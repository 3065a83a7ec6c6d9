/**
 The condition id `_diff`, which the comparison of graphs passes over, and
 exactly when restored conditions can be trusted.
 */
module DiffIds {
  import opened Common
  import opened Collation
  import opened GraphLogic
  import opened KeyOrder
  import opened SameLogic
  import opened ZenText
  import opened Builder
  import opened BuilderLaws
  import opened RestoreLaws
  import opened BuilderKeys

  // ----- an edit that no comparison sees -----

  /** The first rule with another text under `_diff`. */
  function Altered(columns: seq<Column>, conditions: seq<Condition>, cell: string): Raw {
    RObj(Assign(MatchRule(columns, conditions).fields, "_diff", RStr(cell)))
  }

  function AlteredTable(columns: seq<Column>, conditions: seq<Condition>, cell: string): seq<Field> {
    var rules := [Altered(columns, conditions, cell), OtherwiseRule(conditions)];
    TableFields(columns, conditions)[3 := Field("rules", Some(RArr(rules)))]
  }

  function AlteredGraph(columns: seq<Column>, conditions: seq<Condition>, schema: string, cell: string): Graph {
    var g := MakeGraph(columns, conditions, schema);
    var table := g.nodes[1].(content := Some(RObj(AlteredTable(columns, conditions, cell))));
    Graph([g.nodes[0], table, g.nodes[2]], g.edges)
  }

  /** The fields count for the same in a canonical form. */
  predicate CountAlike(le: Order, f: Field, g: Field) {
    (Kept(f) <==> Kept(g)) && (Kept(f) ==> f.key == g.key && Canon(le, f.value.value) == Canon(le, g.value.value))
  }

  lemma {:induction false} AlikeMembers(le: Order, r: Raw, s: Raw, n: nat)
    requires r.RObj? && s.RObj? && n <= |r.fields| && |r.fields| == |s.fields|
    requires forall i :: 0 <= i < |r.fields| ==> CountAlike(le, r.fields[i], s.fields[i])
    ensures KeptMembers(le, r, n) == KeptMembers(le, s, n)
  {
    hide Canon, Kept;
    if n > 0 {
      AlikeMembers(le, r, s, n - 1);
      assert CountAlike(le, r.fields[n - 1], s.fields[n - 1]);
    }
  }

  lemma {:induction false} AlikeCanon(le: Order, fs: seq<Field>, gs: seq<Field>)
    requires |fs| == |gs| && forall i :: 0 <= i < |fs| ==> CountAlike(le, fs[i], gs[i])
    ensures Canon(le, RObj(fs)) == Canon(le, RObj(gs))
  {
    hide Canon, SortMembers, KeptMembers, CountAlike;
    AlikeMembers(le, RObj(fs), RObj(gs), |fs|);
    CanonIs(le, RObj(fs));
    CanonIs(le, RObj(gs));
  }

  /** Whatever is assigned to `_diff`, the canonical form stays. */
  lemma {:induction false} DiffAssigned(le: Order, fs: seq<Field>, v: Raw)
    ensures Canon(le, RObj(Assign(fs, "_diff", v))) == Canon(le, RObj(fs))
  {
    hide Canon;
    if HasKey(fs, "_diff") {
      AlikeCanon(le, Replaced(fs, "_diff", v), fs);
    } else {
      LastNotKept(le, fs, Field("_diff", Some(v)));
    }
  }

  lemma {:induction false} CanonList(le: Order, p: seq<Raw>, q: seq<Raw>)
    requires |p| == |q| && forall i :: 0 <= i < |p| ==> Canon(le, p[i]) == Canon(le, q[i])
    ensures Canon(le, RArr(p)) == Canon(le, RArr(q))
  {
    ItemsAre(le, RArr(p));
    ItemsAre(le, RArr(q));
    assert Canon(le, RArr(p)).items == Canon(le, RArr(q)).items;
  }

  lemma {:induction false} AlteredRules(le: Order, columns: seq<Column>, conditions: seq<Condition>, cell: string)
    requires conditions != []
    ensures Canon(le, RArr([Altered(columns, conditions, cell), OtherwiseRule(conditions)])) ==
            Canon(le, RArr(Rules(columns, conditions)))
  {
    hide Canon, RuleFields, Assign;
    DiffAssigned(le, MatchRule(columns, conditions).fields, RStr(cell));
    CanonList(le, [Altered(columns, conditions, cell), OtherwiseRule(conditions)], Rules(columns, conditions));
  }

  lemma {:induction false} AlteredWords(columns: seq<Column>, conditions: seq<Condition>, cell: string)
    ensures NoDefaults(AlteredTable(columns, conditions, cell))
  {
    hide Altered, MatchRule, OtherwiseRule, Inputs, OutputOf;
    TableWords(columns, conditions);
    var fs, gs := TableFields(columns, conditions), AlteredTable(columns, conditions, cell);
    forall key | key in KEYS
      ensures !HasKey(gs, key)
    {
      assert !HasKey(fs, key);
      assert forall i :: 0 <= i < 4 ==> gs[i].key == fs[i].key;
    }
  }

  lemma {:induction false} AlteredContent(le: Order, columns: seq<Column>, conditions: seq<Condition>, schema: string,
      cell: string)
    requires conditions != []
    ensures var n := AlteredGraph(columns, conditions, schema, cell).nodes[1];
      ContentOf(n).Some? && Canon(le, ContentOf(n).value) == Canon(le, RObj(Table(columns, conditions)))
  {
    hide Canon, Altered, MatchRule, OtherwiseRule, Inputs, OutputOf, Filled;
    var gs := AlteredTable(columns, conditions, cell);
    AlteredWords(columns, conditions, cell);
    FilledNew(gs);
    AlteredRules(le, columns, conditions, cell);
    var fs := Table(columns, conditions);
    assert fs[3].value.value == RArr(Rules(columns, conditions));
    forall i | 0 <= i < |fs|
      ensures CountAlike(le, (gs + DEFAULTS)[i], fs[i])
    {
      assert i != 3 ==> (gs + DEFAULTS)[i] == fs[i];
    }
    AlikeCanon(le, gs + DEFAULTS, fs);
  }

  lemma {:induction false} AlteredMember(le: Order, columns: seq<Column>, conditions: seq<Condition>, schema: string,
      cell: string)
    requires conditions != []
    ensures NodeMember(le, AlteredGraph(columns, conditions, schema, cell).nodes[1]) ==
            NodeMember(le, MakeGraph(columns, conditions, schema).nodes[1])
  {
    hide Canon, AlteredTable, TableFields, ContentOf, Table;
    AlteredContent(le, columns, conditions, schema, cell);
    TableIs(columns, conditions, schema);
  }

  lemma {:induction false} AlteredRuleSound(columns: seq<Column>, conditions: seq<Condition>, cell: string)
    ensures Sound(Altered(columns, conditions, cell))
  {
    hide RuleFields, Assign, SoundFields;
    RuleSound("match", conditions, c => Expression(c, columns), "true", MATCHES);
    var fs := MatchRule(columns, conditions).fields;
    SpreadSound(RObj(fs));
    TextSound(cell);
    AssignSound(fs, "_diff", RStr(cell));
    FieldsSound(Assign(fs, "_diff", RStr(cell)));
  }

  lemma {:induction false} AlteredTableSound(columns: seq<Column>, conditions: seq<Condition>, cell: string)
    ensures Sound(RObj(AlteredTable(columns, conditions, cell)))
  {
    hide Rule, Altered, Inputs, OutputOf;
    TableSound(columns, conditions);
    AlteredRuleSound(columns, conditions, cell);
    RuleSound("otherwise", conditions, c => "", "false", OTHERWISE);
    var rules := [Altered(columns, conditions, cell), OtherwiseRule(conditions)];
    assert Sound(RArr(rules));
    assert TableFields(columns, conditions)[3].key == "rules";
    UpdatedSound(TableFields(columns, conditions), 3, RArr(rules));
  }

  lemma {:induction false} AlteredSound(columns: seq<Column>, conditions: seq<Condition>, schema: string, cell: string)
    ensures SoundGraph(AlteredGraph(columns, conditions, schema, cell))
  {
    hide AlteredTable, TableFields, Sound;
    MadeSound(columns, conditions, schema);
    AlteredTableSound(columns, conditions, cell);
    var made := MakeGraph(columns, conditions, schema);
    assert SoundNode(made.nodes[0]) && SoundNode(made.nodes[2]);
  }

  /** Whatever text is put under `_diff`, the conditions come back. */
  lemma {:induction false} AlteredGivesBack(le: Order, columns: seq<Column>, conditions: seq<Condition>,
      schema: string, cell: string)
    requires AllAccepted(conditions, columns) && conditions != []
    ensures var g := AlteredGraph(columns, conditions, schema, cell);
      SoundGraph(g) && SimpleConditions(le, Edited(conditions, g), columns, schema) == Some(conditions)
  {
    hide NodeMember, AlteredTable, TableFields, AllAccepted, SimpleConditions, SortMembers, EdgeMember, SameGraphLogic;
    var g, made := AlteredGraph(columns, conditions, schema, cell), MakeGraph(columns, conditions, schema);
    AlteredMember(le, columns, conditions, schema, cell);
    AlteredSound(columns, conditions, schema, cell);
    MadeSound(columns, conditions, schema);
    assert NodeMembers(le, g.nodes) == NodeMembers(le, made.nodes);
    SameMemberLists(le, made, g);
    EditedGivesBack(le, columns, conditions, schema, g);
  }

  // ----- what the altered graph flags -----

  lemma {:induction false} AlteredReads(columns: seq<Column>, conditions: seq<Condition>, cell: string)
    ensures var t := RObj(AlteredTable(columns, conditions, cell));
      && TextOf(Get(t, "hitPolicy")) == "first" && ItemsOf(Get(t, "inputs")) == Inputs(conditions)
      && ItemsOf(Get(t, "rules")) == [Altered(columns, conditions, cell), OtherwiseRule(conditions)]
  {
    hide Altered, MatchRule, OtherwiseRule, Inputs, Find;
    TableReads(columns, conditions);
    var fs, v := TableFields(columns, conditions),
      RArr([Altered(columns, conditions, cell), OtherwiseRule(conditions)]);
    var gs := AlteredTable(columns, conditions, cell);
    FourKeys(columns, conditions);
    assert fs[3].key == "rules" && gs == fs[3 := Field(fs[3].key, Some(v))];
    assert Unrepeated(gs);
    UpdatedFind(fs, 3, v, "hitPolicy");
    UpdatedFind(fs, 3, v, "inputs");
    UpdatedFind(fs, 3, v, "rules");
  }

  lemma {:induction false} FourKeys(columns: seq<Column>, conditions: seq<Condition>)
    ensures Unrepeated(TableFields(columns, conditions)) && "hitPolicy" != "rules" && "inputs" != "rules"
  {
    hide MatchRule, OtherwiseRule, Inputs;
    assert |"hitPolicy"| == 9 && |"inputs"| == 6 && |"outputs"| == 7 && |"rules"| == 5;
  }

  lemma {:induction false} AlteredCells(columns: seq<Column>, conditions: seq<Condition>, cell: string, k: string)
    ensures TextOf(Get(Altered(columns, conditions, cell), k)) ==
      if k == "_diff" then cell else TextOf(Get(MatchRule(columns, conditions), k))
  {
    hide RuleFields, Assign, Find;
    RuleTexts("match", conditions, c => Expression(c, columns), "true", MATCHES);
    AssignIs(MatchRule(columns, conditions).fields, "_diff", RStr(cell));
  }

  /** The altered table decides by the altered rule alone. */
  lemma {:induction false} AlteredFlags(holds: (Test, Value) -> bool, columns: seq<Column>,
      conditions: seq<Condition>, cell: string, row: Row)
    ensures Flags(holds, RObj(AlteredTable(columns, conditions, cell)), row) <==>
      RuleHolds(holds, Inputs(conditions), Altered(columns, conditions, cell), row)
  {
    hide Altered, MatchRule, OtherwiseRule, Inputs, AlteredTable, FirstHit, Get, RuleHolds;
    AlteredReads(columns, conditions, cell);
    FlagCells(columns, conditions);
    AlteredCells(columns, conditions, cell, "flag");
    assert "flag"[0] != "_diff"[0];
    OneBefore(holds, Inputs(conditions), Altered(columns, conditions, cell), OtherwiseRule(conditions), row);
    OnlyOne(holds, Inputs(conditions), OtherwiseRule(conditions), row);
    assert [Altered(columns, conditions, cell)] + [OtherwiseRule(conditions)] ==
           [Altered(columns, conditions, cell), OtherwiseRule(conditions)];
  }

  lemma {:induction false} AlteredGraphFlags(holds: (Test, Value) -> bool, columns: seq<Column>,
      conditions: seq<Condition>, schema: string, cell: string, row: Row)
    ensures GraphFlags(holds, AlteredGraph(columns, conditions, schema, cell), row) <==>
      RuleHolds(holds, Inputs(conditions), Altered(columns, conditions, cell), row)
  {
    hide Filled, AlteredTable, TableFields, Flags, Inputs, RuleHolds, Altered, SoundFields;
    var g := AlteredGraph(columns, conditions, schema, cell);
    var gs := AlteredTable(columns, conditions, cell);
    AlteredSound(columns, conditions, schema, cell);
    assert SoundNode(g.nodes[1]);
    SpreadSound(RObj(gs));
    FilledFlags(holds, gs, row);
    AlteredFlags(holds, columns, conditions, cell, row);
    assert "inputNode"[0] != TABLE[0] && "outputNode"[0] != TABLE[0];
    assert ContentOf(g.nodes[1]) == Some(RObj(Filled(gs)));
  }

  // ----- exactly when restored conditions mean what the graph does -----

  /** If the model gives the conditions back, its graph flags what they say. */
  predicate Trusted(le: Order, m: Model, columns: seq<Column>, schema: string, conditions: seq<Condition>,
      holds: (Test, Value) -> bool, row: Row) {
    SoundGraph(m.graph) && SimpleConditions(le, m, columns, schema) == Some(conditions)
    ==> (GraphFlags(holds, m.graph, row) <==> ConditionsHold(holds, columns, conditions, row))
  }

  lemma {:induction false} NoParse()
    ensures ParseTest("(") == None
  {
    hide ReadConcat;
    assert "("[0] == '(' && EMPTY[0] == 'n' && NOT_EMPTY[0] == '$' && "("[1..] == "" && "true"[0] == 't'
      && "false"[0] == 'f';
    assert Prefix(Eq) + "(" == "(";
    TestReads(Eq, "(");
    NoConcat();
  }

  lemma {:induction false} NoConcat()
    ensures ReadConcat("") == None && ReadText("(") == None
  {
  }

  /** A text that is no test, put under `_diff`, makes the graph flag nothing. */
  lemma {:induction false} DiffIdBreaks(le: Order, columns: seq<Column>, schema: string, conditions: seq<Condition>,
      i: nat)
    requires AllAccepted(conditions, columns) && i < |conditions| && conditions[i].id == "_diff"
    ensures var m := Edited(conditions, AlteredGraph(columns, conditions, schema, "("));
      !Trusted(le, m, columns, schema, conditions, (t, v) => true, map[])
  {
    hide AllAccepted, SimpleConditions, AlteredGraph, GraphFlags, ParseTest, Get, SoundGraph, FieldColumn, Altered,
      InputOf;
    var g := AlteredGraph(columns, conditions, schema, "(");
    AlteredGivesBack(le, columns, conditions, schema, "(");
    AlteredGraphFlags((t, v) => true, columns, conditions, schema, "(", map[]);
    AlteredCells(columns, conditions, "(", "_diff");
    InputReads(conditions[i]);
    NoParse();
    assert !CellHolds((t, v) => true, Altered(columns, conditions, "("), Inputs(conditions)[i], map[]);
  }

  /**
   A list whose meaning the builder does not keep comes back from its own
   compiled graph, which says something else.
   */
  lemma {:induction false} LostTestBreaks(le: Order, columns: seq<Column>, schema: string, conditions: seq<Condition>)
    requires Collates(le) && AllAccepted(conditions, columns)
    requires Compiled(columns, conditions) != Stated(columns, conditions)
    requires forall i :: 0 <= i < |conditions| ==> conditions[i].id != "_diff"
    ensures exists holds: (Test, Value) -> bool, row: Row ::
      !Trusted(le, Edited(conditions, MakeGraph(columns, conditions, schema)), columns, schema, conditions, holds, row)
  {
    hide AllAccepted, SimpleConditions, GraphFlags, SoundGraph, Collates, MakeGraph, Agrees, Compiled, Stated,
         ConditionsHold, Flags, TableFields, Normal, NodeMeanings, EdgeMeanings;
    var g := MakeGraph(columns, conditions, schema);
    MadeSound(columns, conditions, schema);
    EditedGivesBack(le, columns, conditions, schema, g);
    BuilderPreservesMeaningIff(columns, conditions);
    var holds: (Test, Value) -> bool, row: Row :| !Agrees(holds, columns, conditions, row);
    RecompiledFlags(holds, g, columns, conditions, schema, row);
    DisagreeMeans(holds, columns, conditions, row);
    assert !Trusted(le, Edited(conditions, g), columns, schema, conditions, holds, row);
  }

  lemma {:induction false} DisagreeMeans(holds: (Test, Value) -> bool, columns: seq<Column>,
      conditions: seq<Condition>, row: Row)
    ensures Agrees(holds, columns, conditions, row) <==>
      (Flags(holds, RObj(TableFields(columns, conditions)), row) <==> ConditionsHold(holds, columns, conditions, row))
  {
  }

  /**
   Whatever was edited, every graph that gives an accepted list back flags what
   the list says, for all engines and rows, if and only if no id is `_diff` and
   the compiled inputs make the tests that the conditions state.
   */
  lemma {:induction false} RestoredMeansConditionsIff(le: Order, columns: seq<Column>, schema: string,
      conditions: seq<Condition>)
    requires Collates(le) && AllAccepted(conditions, columns)
    ensures (forall m: Model, holds: (Test, Value) -> bool, row: Row ::
               Trusted(le, m, columns, schema, conditions, holds, row))
      <==> (forall i :: 0 <= i < |conditions| ==> conditions[i].id != "_diff")
           && Compiled(columns, conditions) == Stated(columns, conditions)
  {
    hide AllAccepted, SimpleConditions, GraphFlags, SoundGraph, Collates, ConditionsHold, Compiled, Stated, Edited;
    if i :| 0 <= i < |conditions| && conditions[i].id == "_diff" {
      DiffIdBreaks(le, columns, schema, conditions, i);
    } else if Compiled(columns, conditions) != Stated(columns, conditions) {
      LostTestBreaks(le, columns, schema, conditions);
    } else {
      forall m: Model, holds: (Test, Value) -> bool, row: Row
        ensures Trusted(le, m, columns, schema, conditions, holds, row)
      {
        if SoundGraph(m.graph) && SimpleConditions(le, m, columns, schema) == Some(conditions) {
          RestoredMeansConditions(le, holds, m, columns, schema, conditions, row);
        }
      }
    }
  }

  /** With proper ids, such as the client draws, only `_diff` is in the way. */
  lemma {:induction false} ProperIdsTrustedIff(le: Order, columns: seq<Column>, schema: string,
      conditions: seq<Condition>)
    requires Collates(le) && AllAccepted(conditions, columns) && ProperIds(conditions)
    ensures (forall m: Model, holds: (Test, Value) -> bool, row: Row ::
               Trusted(le, m, columns, schema, conditions, holds, row))
      <==> forall i :: 0 <= i < |conditions| ==> conditions[i].id != "_diff"
  {
    hide AllAccepted, Trusted, Collates, ProperIds, Compiled, Stated;
    ProperTests(columns, conditions);
    RestoredMeansConditionsIff(le, columns, schema, conditions);
  }

  // ----- one failing analysis -----

  const DIFF_CONDITION := [Condition("_diff", "c", "empty", "")]

  /**
   One condition with the id `_diff`, and an edit that blanks its cell: the
   condition comes back, and the graph flags every row.
   */
  lemma {:induction false} DiffIdLosesACondition(le: Order, schema: string, holds: (Test, Value) -> bool, row: Row)
    ensures var m := Edited(DIFF_CONDITION, AlteredGraph(TEXT_COLUMN, DIFF_CONDITION, schema, ""));
      && SoundGraph(m.graph) && SimpleConditions(le, m, TEXT_COLUMN, schema) == Some(DIFF_CONDITION)
      && AllAccepted(DIFF_CONDITION, TEXT_COLUMN) && ProperIds(DIFF_CONDITION)
      && GraphFlags(holds, m.graph, row)
      && (ConditionsHold(holds, TEXT_COLUMN, DIFF_CONDITION, row) <==> holds(Empty, ValueOf(row, "c")))
  {
    hide SimpleConditions, AlteredGraph, GraphFlags, Get, SoundGraph, FieldColumn, Altered, InputOf, ValueOf;
    var cs := DIFF_CONDITION;
    assert |"_diff"| == 5 && |"flag"| == 4 && |"reason"| == 6;
    assert cs[0] == Condition("_diff", "c", "empty", "");
    AlteredGivesBack(le, TEXT_COLUMN, cs, schema, "");
    AlteredGraphFlags(holds, TEXT_COLUMN, cs, schema, "", row);
    AlteredCells(TEXT_COLUMN, cs, "", "_diff");
    InputReads(cs[0]);
    assert CellHolds(holds, Altered(TEXT_COLUMN, cs, ""), Inputs(cs)[0], row);
  }
}
