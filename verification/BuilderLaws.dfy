/** What compiled tables decide, and when a saved graph gives its conditions back. */
module BuilderLaws {
  import opened Common
  import opened Strings
  import opened GraphLogic
  import opened SameLogic
  import opened ZenText
  import opened Builder

  // ----- the cells of a compiled rule -----

  /** The last condition with the id; later ones overwrite earlier ones in the rule object. */
  function LastWith(conditions: seq<Condition>, id: string): Option<Condition> {
    if conditions == [] then None
    else if conditions[|conditions| - 1].id == id then Some(conditions[|conditions| - 1])
    else LastWith(conditions[..|conditions| - 1], id)
  }

  lemma {:induction false} AssignTextsAre(fs: seq<Field>, conditions: seq<Condition>, cell: Condition -> string,
      k: string)
    requires Unrepeated(fs)
    ensures Unrepeated(AssignTexts(fs, conditions, cell))
    ensures Find(AssignTexts(fs, conditions, cell), k) ==
      match LastWith(conditions, k) case Some(c) => Some(RStr(cell(c))) case None => Find(fs, k)
  {
    hide Assign, Find;
    if conditions != [] {
      var n := |conditions| - 1;
      AssignTextsAre(fs, conditions[..n], cell, k);
      AssignIs(AssignTexts(fs, conditions[..n], cell), conditions[n].id, RStr(cell(conditions[n])));
    }
  }

  /** The text of a cell of a compiled rule. */
  function CellOf(name: string, conditions: seq<Condition>, cell: Condition -> string, flag: string, reason: string,
      k: string): string {
    if k == "reason" then reason
    else if k == "flag" then flag
    else match LastWith(conditions, k)
      case Some(c) => cell(c)
      case None => if k == "_id" then name else ""
  }

  lemma {:induction false} RuleCells(name: string, conditions: seq<Condition>, cell: Condition -> string,
      flag: string, reason: string, k: string)
    ensures TextOf(Get(Rule(name, conditions, cell, flag, reason), k)) ==
      CellOf(name, conditions, cell, flag, reason, k)
  {
    hide Assign, AssignTexts;
    var base := [TextField("_id", name)];
    var a := AssignTexts(base, conditions, cell);
    AssignTextsAre(base, conditions, cell, k);
    AssignIs(a, "flag", RStr(flag));
    AssignIs(Assign(a, "flag", RStr(flag)), "reason", RStr(reason));
    assert base[..0] == [];
  }

  lemma {:induction false} InputReads(c: Condition)
    ensures TextOf(Get(InputOf(c), "id")) == c.id && FieldColumn(TextOf(Get(InputOf(c), "field"))) == Some(c.column)
  {
    hide FieldText, FieldColumn;
    FieldReads(c.column);
    var fs := InputOf(c).fields;
    assert "name"[0] != "id"[0] && "field"[0] != "id"[0] && "field"[0] != "name"[0];
    assert fs[..2][..1] == fs[..1];
    assert Find(fs[..1], "id") == Some(RStr(c.id));
    assert Find(fs[..2], "id") == Find(fs[..1], "id");
  }

  lemma {:induction false} TableReads(columns: seq<Column>, conditions: seq<Condition>)
    ensures var t := RObj(TableFields(columns, conditions));
      && TextOf(Get(t, "hitPolicy")) == "first"
      && ItemsOf(Get(t, "inputs")) == Inputs(conditions)
      && ItemsOf(Get(t, "rules")) == (if conditions != [] then [MatchRule(columns, conditions)] else [])
         + [OtherwiseRule(conditions)]
  {
    hide MatchRule, OtherwiseRule, Inputs;
    var fs := TableFields(columns, conditions);
    assert "hitPolicy"[0] != "inputs"[0] && "hitPolicy"[0] != "outputs"[0] && "hitPolicy"[0] != "rules"[0];
    assert "inputs"[0] != "outputs"[0] && "inputs"[0] != "rules"[0] && "outputs"[0] != "rules"[0];
    assert fs[..3][..2] == fs[..2] && fs[..2][..1] == fs[..1];
    assert Find(fs[..1], "hitPolicy") == Some(RStr("first"));
    assert Find(fs[..2], "hitPolicy") == Find(fs[..1], "hitPolicy") == Find(fs[..3], "hitPolicy");
    assert Find(fs[..2], "inputs") == fs[1].value == Find(fs[..3], "inputs");
  }

  // ----- what a compiled table decides -----

  predicate AllAccepted(conditions: seq<Condition>, columns: seq<Column>) {
    forall i :: 0 <= i < |conditions| ==> FormAccepts(conditions[i], columns)
  }

  /** What the compiled cell under the input of condition `c` tests. */
  function CompiledTest(conditions: seq<Condition>, c: Condition, columns: seq<Column>): Test {
    if c.id == "reason" then Compare(Eq, Literal(REASON))
    else if c.id == "flag" then Compare(Eq, Truth(true))
    else match LastWith(conditions, c.id) case Some(d) => TestOf(d, columns) case None => Any
  }

  lemma {:induction false} LastWithFinds(conditions: seq<Condition>, i: nat)
    requires i < |conditions|
    ensures var d := LastWith(conditions, conditions[i].id);
      d.Some? && d.value.id == conditions[i].id && d.value in conditions
  {
    var n := |conditions| - 1;
    if conditions[n].id != conditions[i].id {
      assert conditions[..n][i] == conditions[i];
      LastWithFinds(conditions[..n], i);
    }
  }

  lemma {:induction false} FixedCells()
    ensures ParseTest("true") == Some(Compare(Eq, Truth(true)))
    ensures ParseTest(MATCHES) == Some(Compare(Eq, Literal(REASON)))
  {
    hide ParseOperand, ReadConcat, ReadLiteral;
    assert "true"[0] == 't' && MATCHES[0] == '"';
    assert Prefix(Eq) + "true" == "true" && Prefix(Eq) + MATCHES == MATCHES;
    TestReads(Eq, "true");
    TestReads(Eq, MATCHES);
    TrueReads();
    MatchesReads();
  }

  lemma {:induction false} TrueReads()
    ensures ParseOperand("true") == Some(Truth(true))
  {
  }

  lemma {:induction false} FreeTogether(a: string, b: string, c: char)
    requires Free(a, c) && Free(b, c)
    ensures Free(a + b, c)
  {
  }

  lemma {:induction false} MatchesFree()
    ensures Free(REASON, QUOTE)
  {
    var a, b, c := "Matches the ", "configured ", "conditions";
    assert Free(a, QUOTE) && Free(b, QUOTE) && Free(c, QUOTE);
    assert REASON == a + b + c;
    FreeTogether(a, b, QUOTE);
    FreeTogether(a + b, c, QUOTE);
  }

  lemma {:induction false} MatchesReads()
    ensures ParseOperand(MATCHES) == Some(Literal(REASON))
  {
    hide ReadUntil;
    assert MATCHES == Quoted(REASON) + "";
    MatchesFree();
    ReadQuoted(REASON, "");
    assert MATCHES[0] == '"' && "true"[0] == 't' && "false"[0] == 'f' && "("[0] == '(';
  }

  lemma {:induction false} CompiledCell(holds: (Test, Value) -> bool, columns: seq<Column>,
      conditions: seq<Condition>, row: Row, i: nat)
    requires AllAccepted(conditions, columns) && i < |conditions|
    ensures CellHolds(holds, MatchRule(columns, conditions), InputOf(conditions[i]), row)
      <==> holds(CompiledTest(conditions, conditions[i], columns), ValueOf(row, conditions[i].column))
  {
    hide ParseTest, FieldColumn, Rule, InputOf, Expression, TestOf, FormAccepts;
    var c := conditions[i];
    InputReads(c);
    RuleCells("match", conditions, c => Expression(c, columns), "true", MATCHES, c.id);
    FixedCells();
    LastWithFinds(conditions, i);
    ExpressionReads(LastWith(conditions, c.id).value, columns);
    NeverAny(LastWith(conditions, c.id).value, columns);
  }

  lemma {:induction false} NeverAny(c: Condition, columns: seq<Column>)
    ensures !TestOf(c, columns).Any?
  {
  }

  lemma {:induction false} OnlyOne(holds: (Test, Value) -> bool, inputs: seq<Raw>, rule: Raw, row: Row)
    ensures FirstHit(holds, inputs, [rule], row) == if RuleHolds(holds, inputs, rule, row) then Some(rule) else None
  {
    assert [rule][1..] == [];
  }

  lemma {:induction false} OneBefore(holds: (Test, Value) -> bool, inputs: seq<Raw>, first: Raw, second: Raw, row: Row)
    ensures FirstHit(holds, inputs, [first] + [second], row) ==
      if RuleHolds(holds, inputs, first, row) then Some(first) else FirstHit(holds, inputs, [second], row)
  {
    assert ([first] + [second])[1..] == [second];
  }

  /**
   A compiled table flags a row exactly when there are conditions and every
   input's compiled cell holds of the row.
   */
  lemma {:induction false} CompiledFlags(holds: (Test, Value) -> bool, columns: seq<Column>,
      conditions: seq<Condition>, row: Row)
    requires AllAccepted(conditions, columns)
    ensures Flags(holds, RObj(TableFields(columns, conditions)), row) <==>
      conditions != [] && forall i :: 0 <= i < |conditions| ==>
        holds(CompiledTest(conditions, conditions[i], columns), ValueOf(row, conditions[i].column))
  {
    hide CellHolds, MatchRule, OtherwiseRule, InputOf, CompiledTest, FormAccepts, TableFields, FirstHit;
    TableReads(columns, conditions);
    FlagCells(columns, conditions);
    forall i | 0 <= i < |conditions|
      ensures CellHolds(holds, MatchRule(columns, conditions), Inputs(conditions)[i], row)
        <==> holds(CompiledTest(conditions, conditions[i], columns), ValueOf(row, conditions[i].column))
    {
      CompiledCell(holds, columns, conditions, row, i);
    }
    OnlyOne(holds, Inputs(conditions), OtherwiseRule(conditions), row);
    if conditions != [] {
      OneBefore(holds, Inputs(conditions), MatchRule(columns, conditions), OtherwiseRule(conditions), row);
    } else {
      assert [] + [OtherwiseRule(conditions)] == [OtherwiseRule(conditions)];
    }
    assert |Inputs(conditions)| == |conditions|;
    assert RuleHolds(holds, Inputs(conditions), MatchRule(columns, conditions), row) <==>
      forall i :: 0 <= i < |conditions| ==>
        CellHolds(holds, MatchRule(columns, conditions), Inputs(conditions)[i], row);
  }

  lemma {:induction false} FlagCells(columns: seq<Column>, conditions: seq<Condition>)
    ensures TextOf(Get(MatchRule(columns, conditions), "flag")) == "true"
    ensures TextOf(Get(OtherwiseRule(conditions), "flag")) != "true"
  {
    hide Rule;
    assert "flag"[0] != "reason"[0] && "true"[0] != "false"[0];
    RuleCells("match", conditions, c => Expression(c, columns), "true", MATCHES, "flag");
    RuleCells("otherwise", conditions, c => "", "false", OTHERWISE, "flag");
  }

  /** Condition ids are unique and name no output column. */
  predicate ProperIds(conditions: seq<Condition>) {
    && (forall i, j :: 0 <= i < j < |conditions| ==> conditions[i].id != conditions[j].id)
    && forall i :: 0 <= i < |conditions| ==> conditions[i].id != "flag" && conditions[i].id != "reason"
  }

  lemma {:induction false} LastIsOnly(conditions: seq<Condition>, i: nat)
    requires ProperIds(conditions) && i < |conditions|
    ensures LastWith(conditions, conditions[i].id) == Some(conditions[i])
  {
    var n := |conditions| - 1;
    if i < n {
      assert conditions[..n][i] == conditions[i];
      LastIsOnly(conditions[..n], i);
    }
  }

  // ----- when the builder preserves meaning -----

  /** What a list of tests on columns says of a row, in any order. */
  ghost predicate AllHold(holds: (Test, Value) -> bool, tests: set<(Test, string)>, row: Row) {
    forall p :: p in tests ==> holds(p.0, ValueOf(row, p.1))
  }

  /** What the compiled inputs test, and on which columns. */
  function Compiled(columns: seq<Column>, conditions: seq<Condition>): set<(Test, string)> {
    set i | 0 <= i < |conditions| :: (CompiledTest(conditions, conditions[i], columns), conditions[i].column)
  }

  /** What the conditions say, and of which columns. */
  function Stated(columns: seq<Column>, conditions: seq<Condition>): set<(Test, string)> {
    set i | 0 <= i < |conditions| :: (TestOf(conditions[i], columns), conditions[i].column)
  }

  predicate ConditionsHold(holds: (Test, Value) -> bool, columns: seq<Column>, conditions: seq<Condition>, row: Row) {
    conditions != [] && forall i :: 0 <= i < |conditions| ==> ConditionHolds(holds, conditions[i], columns, row)
  }

  /** For this engine and row the compiled table says what the conditions say. */
  predicate Agrees(holds: (Test, Value) -> bool, columns: seq<Column>, conditions: seq<Condition>, row: Row) {
    Flags(holds, RObj(TableFields(columns, conditions)), row) <==> ConditionsHold(holds, columns, conditions, row)
  }

  lemma {:induction false} BothSides(holds: (Test, Value) -> bool, columns: seq<Column>, conditions: seq<Condition>,
      row: Row)
    requires AllAccepted(conditions, columns)
    ensures Flags(holds, RObj(TableFields(columns, conditions)), row) <==>
      conditions != [] && AllHold(holds, Compiled(columns, conditions), row)
    ensures ConditionsHold(holds, columns, conditions, row) <==>
      conditions != [] && AllHold(holds, Stated(columns, conditions), row)
  {
    hide Flags, TableFields, CompiledTest, TestOf, AllAccepted, ValueOf;
    CompiledFlags(holds, columns, conditions, row);
    forall i | 0 <= i < |conditions|
      ensures (CompiledTest(conditions, conditions[i], columns), conditions[i].column) in Compiled(columns, conditions)
      ensures (TestOf(conditions[i], columns), conditions[i].column) in Stated(columns, conditions)
    {
    }
  }

  /** An engine and a row on which one test on one column is the only one to fail. */
  lemma {:induction false} FailsOnly(test: Test, column: string, tests: set<(Test, string)>)
    ensures var holds := (t: Test, v: Value) => t != test || v != VText("x");
      AllHold(holds, tests, map[column := VText("x")]) <==> (test, column) !in tests
  {
    var holds := (t: Test, v: Value) => t != test || v != VText("x");
    var row: Row := map[column := VText("x")];
    if (test, column) in tests {
      assert !holds(test, ValueOf(row, column));
    } else {
      forall p | p in tests
        ensures holds(p.0, ValueOf(row, p.1))
      {
        assert p == (p.0, p.1);
      }
    }
  }

  lemma {:induction false} DifferenceShows(columns: seq<Column>, conditions: seq<Condition>, p: (Test, string))
    requires AllAccepted(conditions, columns)
    requires p in Compiled(columns, conditions) <==> p !in Stated(columns, conditions)
    ensures var holds := (t: Test, v: Value) => t != p.0 || v != VText("x");
      !Agrees(holds, columns, conditions, map[p.1 := VText("x")])
  {
    hide Flags, TableFields, CompiledTest, TestOf, AllAccepted, ValueOf, AllHold, ConditionsHold;
    var holds := (t: Test, v: Value) => t != p.0 || v != VText("x");
    BothSides(holds, columns, conditions, map[p.1 := VText("x")]);
    FailsOnly(p.0, p.1, Compiled(columns, conditions));
    FailsOnly(p.0, p.1, Stated(columns, conditions));
    assert p == (p.0, p.1);
  }

  /**
   Every list the form accepts keeps its meaning, for all engines and rows,
   exactly when the compiled inputs make the tests the conditions state, on the
   same columns.
   */
  lemma {:induction false} BuilderPreservesMeaningIff(columns: seq<Column>, conditions: seq<Condition>)
    requires AllAccepted(conditions, columns)
    ensures (forall holds: (Test, Value) -> bool, row: Row :: Agrees(holds, columns, conditions, row))
      <==> Compiled(columns, conditions) == Stated(columns, conditions)
  {
    hide Agrees, AllAccepted, Compiled, Stated;
    if Compiled(columns, conditions) == Stated(columns, conditions) {
      forall holds: (Test, Value) -> bool, row: Row
        ensures Agrees(holds, columns, conditions, row)
      {
        SameTestsAgree(holds, columns, conditions, row);
      }
    } else {
      var p :| p in Compiled(columns, conditions) <==> p !in Stated(columns, conditions);
      DifferenceShows(columns, conditions, p);
    }
  }

  lemma {:induction false} SameTestsAgree(holds: (Test, Value) -> bool, columns: seq<Column>,
      conditions: seq<Condition>, row: Row)
    requires AllAccepted(conditions, columns) && Compiled(columns, conditions) == Stated(columns, conditions)
    ensures Agrees(holds, columns, conditions, row)
  {
    hide Flags, TableFields, Compiled, Stated, AllAccepted, ConditionsHold, AllHold;
    BothSides(holds, columns, conditions, row);
  }

  lemma {:induction false} ProperTests(columns: seq<Column>, conditions: seq<Condition>)
    requires ProperIds(conditions)
    ensures Compiled(columns, conditions) == Stated(columns, conditions)
  {
    hide TestOf;
    forall i | 0 <= i < |conditions|
      ensures CompiledTest(conditions, conditions[i], columns) == TestOf(conditions[i], columns)
    {
      LastIsOnly(conditions, i);
    }
  }

  /**
   With proper ids a compiled table flags a row exactly when the list is not
   empty and every condition holds of the row.
   */
  lemma {:induction false} BuilderPreservesMeaning(holds: (Test, Value) -> bool, columns: seq<Column>,
      conditions: seq<Condition>, row: Row)
    requires AllAccepted(conditions, columns) && ProperIds(conditions)
    ensures Flags(holds, RObj(TableFields(columns, conditions)), row) <==>
      conditions != [] && forall i :: 0 <= i < |conditions| ==> ConditionHolds(holds, conditions[i], columns, row)
  {
    hide Flags, TableFields, TestOf, AllAccepted, Compiled, Stated, ProperIds;
    ProperTests(columns, conditions);
    SameTestsAgree(holds, columns, conditions, row);
  }

  /** Where an id is shared, the last condition's test takes the place of the others'. */
  lemma {:induction false} SharedIdLosesATest(holds: (Test, Value) -> bool, columns: seq<Column>, a: Condition,
      b: Condition, row: Row)
    requires FormAccepts(a, columns) && FormAccepts(b, columns) && a.id == b.id && a.id != "flag" && a.id != "reason"
    ensures Flags(holds, RObj(TableFields(columns, [a, b])), row) <==>
      holds(TestOf(b, columns), ValueOf(row, a.column)) && holds(TestOf(b, columns), ValueOf(row, b.column))
  {
    hide Flags, TableFields, TestOf, FormAccepts;
    CompiledFlags(holds, columns, [a, b], row);
    var cs := [a, b];
    assert cs[0] == a && cs[1] == b;
    assert LastWith(cs, a.id) == Some(b);
  }

  /** Two conditions with one id keep their meaning exactly when they make the same test. */
  lemma {:induction false} SharedIdIff(columns: seq<Column>, a: Condition, b: Condition)
    requires FormAccepts(a, columns) && FormAccepts(b, columns) && a.id == b.id && a.id != "flag" && a.id != "reason"
    ensures (forall holds: (Test, Value) -> bool, row: Row :: Agrees(holds, columns, [a, b], row))
      <==> TestOf(a, columns) == TestOf(b, columns)
  {
    hide Agrees, TestOf, FormAccepts;
    var cs := [a, b];
    assert cs[0] == a && cs[1] == b;
    assert LastWith(cs, a.id) == Some(b);
    BuilderPreservesMeaningIff(columns, cs);
    var x, y, z := (TestOf(a, columns), a.column), (TestOf(b, columns), a.column), (TestOf(b, columns), b.column);
    assert CompiledTest(cs, a, columns) == CompiledTest(cs, b, columns) == TestOf(b, columns);
    assert Stated(columns, cs) == {x, z} by {
      assert (TestOf(cs[0], columns), cs[0].column) == x && (TestOf(cs[1], columns), cs[1].column) == z;
    }
    assert Compiled(columns, cs) == {y, z} by {
      assert (CompiledTest(cs, cs[0], columns), cs[0].column) == y
        && (CompiledTest(cs, cs[1], columns), cs[1].column) == z;
    }
    assert x in Stated(columns, cs);
  }

  /**
   A single condition keeps its meaning on every row, for every engine, exactly
   when its id names no output column, or the output's cell tests the same.
   */
  lemma {:induction false} SingleConditionIff(columns: seq<Column>, c: Condition)
    requires FormAccepts(c, columns)
    ensures (forall holds: (Test, Value) -> bool, row: Row :: Agrees(holds, columns, [c], row)) <==>
      (c.id == "flag" ==> TestOf(c, columns) == Compare(Eq, Truth(true)))
      && (c.id == "reason" ==> TestOf(c, columns) == Compare(Eq, Literal(REASON)))
  {
    hide Agrees, TestOf, FormAccepts;
    var cs := [c];
    assert cs[0] == c && LastWith(cs, c.id) == Some(c);
    BuilderPreservesMeaningIff(columns, cs);
    var x, y := (CompiledTest(cs, c, columns), c.column), (TestOf(c, columns), c.column);
    assert Compiled(columns, cs) == {x} by {
      assert (CompiledTest(cs, cs[0], columns), cs[0].column) == x;
    }
    assert Stated(columns, cs) == {y} by {
      assert (TestOf(cs[0], columns), cs[0].column) == y;
    }
  }
}
