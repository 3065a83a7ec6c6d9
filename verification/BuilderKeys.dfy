/** What a collation has to tell apart in a compiled graph, and two condition ids that it may not. */
module BuilderKeys {
  import opened Common
  import opened Strings
  import opened Collation
  import opened GraphLogic
  import opened KeyOrder
  import opened SameLogic
  import opened LogicOrder
  import opened ZenText
  import opened Builder
  import opened BuilderLaws
  import opened RestoreLaws

  // ----- the builder's own words -----

  const TABLE_KEYS := {"hitPolicy", "inputs", "outputs", "rules",
                       "passThrough", "executionMode", "inputField", "outputPath"}

  const COLUMN_KEYS := {"id", "name", "field"}

  const NODE_IDS := {"data-input", "autodit-rules", "data-output"}

  const INTO := Edge("input-rules", "data-input", "autodit-rules", None, None)
  const OUT := Edge("rules-output", "autodit-rules", "data-output", None, None)

  predicate TellsApart(le: Order, words: set<string>) {
    forall a, b :: a in words && b in words && a != b ==> !Ties(le, a, b)
  }

  /** The collation tells apart the words that the builder itself writes. */
  predicate TellsWords(le: Order) {
    && TellsApart(le, TABLE_KEYS) && TellsApart(le, COLUMN_KEYS) && TellsApart(le, NODE_IDS)
    && !Ties(le, EdgeMember(INTO).key, EdgeMember(OUT).key)
  }

  /** The keys of a compiled rule that a comparison looks at. */
  function RuleKeys(conditions: seq<Condition>): set<string> {
    ({"_id", "flag", "reason"} + set i | 0 <= i < |conditions| :: conditions[i].id) - {"_diff"}
  }

  // ----- objects -----

  lemma {:induction false} ApartObject(le: Order, fs: seq<Field>)
    requires Unrepeated(fs) && FieldsApart(le, fs)
    requires forall f :: f in fs && Kept(f) ==> Apart(le, Mean(f.value.value))
    ensures Apart(le, Mean(RObj(fs)))
  {
    hide Mean, Apart, FieldsApart, Unrepeated;
    forall i | 0 <= i < |fs| && Kept(fs[i])
      ensures Apart(le, Mean(fs[i].value.value))
    {
      assert fs[i] in fs;
    }
    if !Apart(le, Mean(RObj(fs))) {
      var i := TiedWithin(le, RObj(fs));
    }
  }

  lemma {:induction false} KeysAmong(le: Order, fs: seq<Field>, words: set<string>)
    requires Unrepeated(fs) && TellsApart(le, words) && forall f :: f in fs && Kept(f) ==> f.key in words
    ensures FieldsApart(le, fs)
  {
    hide Ties, Kept;
    forall i, j | 0 <= i < |fs| && 0 <= j < |fs| && i != j && Kept(fs[i]) && Kept(fs[j])
      ensures !Ties(le, fs[i].key, fs[j].key)
    {
      NotRepeated(fs, i, j);
      assert fs[i] in fs && fs[j] in fs;
    }
  }

  predicate IsText(f: Field) {
    f.value.Some? && f.value.value.RStr?
  }

  lemma {:induction false} TextsApart(le: Order, fs: seq<Field>)
    requires Unrepeated(fs) && FieldsApart(le, fs) && forall f :: f in fs ==> IsText(f)
    ensures Apart(le, Mean(RObj(fs)))
  {
    hide Apart, FieldsApart, Unrepeated;
    forall f | f in fs && Kept(f)
      ensures Apart(le, Mean(f.value.value))
    {
      assert IsText(f);
      ScalarApart(le, f.value.value);
    }
    ApartObject(le, fs);
  }

  lemma {:induction false} ColumnApart(le: Order, a: string, b: string, c: string)
    requires TellsApart(le, COLUMN_KEYS)
    ensures Apart(le, Mean(RObj([TextField("id", a), TextField("name", b), TextField("field", c)])))
  {
    hide Apart, FieldsApart, TellsApart, Mean;
    var fs := [TextField("id", a), TextField("name", b), TextField("field", c)];
    assert "id"[0] != "name"[0] && "id"[0] != "field"[0] && "name"[0] != "field"[0];
    assert Unrepeated(fs);
    KeysAmong(le, fs, COLUMN_KEYS);
    TextsApart(le, fs);
  }

  // ----- compiled rules -----

  lemma {:induction false} LastWithIff(conditions: seq<Condition>, id: string)
    ensures LastWith(conditions, id).Some? <==> exists i :: 0 <= i < |conditions| && conditions[i].id == id
  {
    if conditions != [] && conditions[|conditions| - 1].id != id {
      var front := conditions[..|conditions| - 1];
      LastWithIff(front, id);
      assert forall i :: 0 <= i < |front| ==> front[i] == conditions[i];
    }
  }

  /** The fields of a compiled rule: its keys, each with a text. */
  lemma {:induction false} KeysFound(name: string, conditions: seq<Condition>, cell: Condition -> string,
      flag: string, reason: string, k: string)
    ensures var fs := RuleFields(name, conditions, cell, flag, reason);
      && Unrepeated(fs) && (k != "_diff" ==> (Find(fs, k).Some? <==> k in RuleKeys(conditions)))
      && (Find(fs, k).Some? ==> Find(fs, k).value.RStr?)
  {
    hide Assign, AssignTexts;
    var base := [TextField("_id", name)];
    var a := AssignTexts(base, conditions, cell);
    AssignTextsAre(base, conditions, cell, k);
    AssignIs(a, "flag", RStr(flag));
    AssignIs(Assign(a, "flag", RStr(flag)), "reason", RStr(reason));
    assert base[..0] == [];
    LastWithIff(conditions, k);
  }

  lemma {:induction false} RuleTexts(name: string, conditions: seq<Condition>, cell: Condition -> string,
      flag: string, reason: string)
    ensures Unrepeated(RuleFields(name, conditions, cell, flag, reason))
    ensures forall f :: f in RuleFields(name, conditions, cell, flag, reason) ==> f.value.Some? ==> IsText(f)
    ensures forall f :: f in RuleFields(name, conditions, cell, flag, reason) && Kept(f) ==>
      f.key in RuleKeys(conditions)
  {
    hide RuleFields, Find, RuleKeys;
    var fs := RuleFields(name, conditions, cell, flag, reason);
    KeysFound(name, conditions, cell, flag, reason, "");
    forall f | f in fs
      ensures (f.value.Some? ==> IsText(f)) && (Kept(f) ==> f.key in RuleKeys(conditions))
    {
      var i :| 0 <= i < |fs| && fs[i] == f;
      FindIs(fs, i);
      KeysFound(name, conditions, cell, flag, reason, f.key);
    }
  }

  lemma {:induction false} RuleApart(le: Order, name: string, conditions: seq<Condition>, cell: Condition -> string,
      flag: string, reason: string)
    ensures Apart(le, Mean(Rule(name, conditions, cell, flag, reason))) <==> TellsApart(le, RuleKeys(conditions))
  {
    hide RuleFields, Find, RuleKeys, Mean, Apart, Ties;
    var r := Rule(name, conditions, cell, flag, reason);
    RuleTexts(name, conditions, cell, flag, reason);
    if TellsApart(le, RuleKeys(conditions)) {
      KeysAmong(le, r.fields, RuleKeys(conditions));
      forall f | f in r.fields && Kept(f)
        ensures Apart(le, Mean(f.value.value))
      {
        ScalarApart(le, f.value.value);
      }
      ApartObject(le, r.fields);
    }
    if Apart(le, Mean(r)) {
      ApartFields(le, r);
      forall a, b | a in RuleKeys(conditions) && b in RuleKeys(conditions) && a != b
        ensures !Ties(le, a, b)
      {
        var i := KeyAt(name, conditions, cell, flag, reason, a);
        var j := KeyAt(name, conditions, cell, flag, reason, b);
      }
    }
  }

  lemma {:induction false} KeyAt(name: string, conditions: seq<Condition>, cell: Condition -> string, flag: string,
      reason: string, k: string) returns (i: nat)
    requires k in RuleKeys(conditions)
    ensures var fs := RuleFields(name, conditions, cell, flag, reason); i < |fs| && fs[i].key == k && Kept(fs[i])
  {
    hide RuleFields, Find;
    var fs := RuleFields(name, conditions, cell, flag, reason);
    KeysFound(name, conditions, cell, flag, reason, k);
    FindWhere(fs, k);
    i :| 0 <= i < |fs| && fs[i].key == k && fs[i].value == Find(fs, k);
  }

  // ----- the compiled table -----

  lemma {:induction false} AssignNew(fs: seq<Field>, key: string, value: Raw)
    requires !HasKey(fs, key)
    ensures Assign(fs, key, value) == fs + [Field(key, Some(value))] && Find(fs, key) == None
  {
    FoundHasKey(fs, key);
  }

  const DEFAULTS := [Field("passThrough", Some(RBool(false))), Field("executionMode", Some(RStr("single"))),
                     Field("inputField", Some(RNull)), Field("outputPath", Some(RNull))]

  predicate NoDefaults(fs: seq<Field>) {
    forall key :: key in KEYS ==> !HasKey(fs, key)
  }

  lemma {:induction false} StillNew(fs: seq<Field>, f: Field, key: string)
    requires !HasKey(fs, key) && f.key != key
    ensures !HasKey(fs + [f], key)
  {
  }

  /** Fields that mention none of the four keys get the defaults at their end. */
  lemma {:induction false} FilledNew(fs: seq<Field>)
    requires NoDefaults(fs)
    ensures Filled(fs) == fs + DEFAULTS
  {
    hide Find, Assign, HasKey;
    DistinctKeys();
    assert "passThrough" in KEYS && "executionMode" in KEYS && "inputField" in KEYS && "outputPath" in KEYS;
    var p, q, r, s := DEFAULTS[0], DEFAULTS[1], DEFAULTS[2], DEFAULTS[3];
    AssignNew(fs, "passThrough", RBool(false));
    AssignNew(fs, "executionMode", RStr("single"));
    AssignNew(fs, "inputField", RNull);
    AssignNew(fs, "outputPath", RNull);
    StillNew(fs, p, "executionMode");
    AssignNew(fs + [p], "executionMode", RStr("single"));
    StillNew(fs, p, "inputField");
    StillNew(fs + [p], q, "inputField");
    AssignNew(fs + [p] + [q], "inputField", RNull);
    StillNew(fs, p, "outputPath");
    StillNew(fs + [p], q, "outputPath");
    StillNew(fs + [p] + [q], r, "outputPath");
    AssignNew(fs + [p] + [q] + [r], "outputPath", RNull);
    assert fs + [p] + [q] + [r] + [s] == fs + DEFAULTS;
  }

  lemma {:induction false} TableWords(columns: seq<Column>, conditions: seq<Condition>)
    ensures NoDefaults(TableFields(columns, conditions))
  {
    assert |"hitPolicy"| == 9 && |"inputs"| == 6 && |"outputs"| == 7 && |"rules"| == 5;
    assert |"passThrough"| == 11 && |"executionMode"| == 13 && |"inputField"| == 10 && |"outputPath"| == 10;
  }

  lemma {:induction false} ApartList(le: Order, items: seq<Raw>)
    ensures Apart(le, Mean(RArr(items))) <==> forall i :: 0 <= i < |items| ==> Apart(le, Mean(items[i]))
  {
    hide Canon;
    ItemsAre(le, RArr(items));
    forall i | 0 <= i < |items|
      ensures Mean(RArr(items)).items[i] == Mean(items[i])
    {
    }
    assert forall i :: 0 <= i < |items| ==> RArr(items).items[i] == items[i];
  }

  lemma {:induction false} InputsApart(le: Order, conditions: seq<Condition>)
    requires TellsApart(le, COLUMN_KEYS)
    ensures Apart(le, Mean(RArr(Inputs(conditions))))
  {
    hide Apart, Mean, TellsApart, FieldText;
    forall i | 0 <= i < |conditions|
      ensures Apart(le, Mean(Inputs(conditions)[i]))
    {
      ColumnApart(le, conditions[i].id, conditions[i].column, FieldText(conditions[i].column));
    }
    ApartList(le, Inputs(conditions));
  }

  function Outputs(): seq<Raw> {
    [OutputOf("flag", "Flag"), OutputOf("reason", "Reason")]
  }

  lemma {:induction false} OutputsApart(le: Order)
    requires TellsApart(le, COLUMN_KEYS)
    ensures Apart(le, Mean(RArr(Outputs())))
  {
    hide Apart, Mean, TellsApart;
    ColumnApart(le, "flag", "Flag", "flag");
    ColumnApart(le, "reason", "Reason", "reason");
    ApartList(le, Outputs());
  }

  function Rules(columns: seq<Column>, conditions: seq<Condition>): seq<Raw> {
    (if conditions != [] then [MatchRule(columns, conditions)] else []) + [OtherwiseRule(conditions)]
  }

  lemma {:induction false} RulesApart(le: Order, columns: seq<Column>, conditions: seq<Condition>)
    ensures Apart(le, Mean(RArr(Rules(columns, conditions)))) <==> TellsApart(le, RuleKeys(conditions))
  {
    hide Apart, Mean, TellsApart, Rule, RuleKeys;
    RuleApart(le, "match", conditions, c => Expression(c, columns), "true", MATCHES);
    RuleApart(le, "otherwise", conditions, c => "", "false", OTHERWISE);
    var rules := Rules(columns, conditions);
    assert rules[|rules| - 1] == OtherwiseRule(conditions);
    ApartList(le, rules);
  }

  /** The compiled table as it is compared, with its defaults. */
  function Table(columns: seq<Column>, conditions: seq<Condition>): seq<Field> {
    TableFields(columns, conditions) + DEFAULTS
  }

  lemma {:induction false} TableIs(columns: seq<Column>, conditions: seq<Condition>, schema: string)
    ensures ContentOf(MakeGraph(columns, conditions, schema).nodes[1]) == Some(RObj(Table(columns, conditions)))
  {
    hide TableFields, Filled, HasKey, Assign;
    TableWords(columns, conditions);
    FilledNew(TableFields(columns, conditions));
  }

  lemma {:induction false} TableKeys(columns: seq<Column>, conditions: seq<Condition>)
    ensures Unrepeated(Table(columns, conditions))
      && forall f :: f in Table(columns, conditions) ==> f.key in TABLE_KEYS
  {
    hide Inputs, MatchRule, OtherwiseRule, OutputOf;
    assert |"hitPolicy"| == 9 && |"inputs"| == 6 && |"outputs"| == 7 && |"rules"| == 5;
    assert |"passThrough"| == 11 && |"executionMode"| == 13 && |"inputField"| == 10 && |"outputPath"| == 10;
    assert "inputField"[0] != "outputPath"[0];
  }

  lemma {:induction false} DefaultsApart(le: Order)
    ensures forall i :: 0 <= i < |DEFAULTS| ==> Kept(DEFAULTS[i]) ==> Apart(le, Mean(DEFAULTS[i].value.value))
  {
    hide Apart, Mean;
    ScalarApart(le, RStr("single"));
    ScalarApart(le, RBool(false));
    ScalarApart(le, RNull);
  }

  lemma {:induction false} FieldsOfTable(columns: seq<Column>, conditions: seq<Condition>)
    ensures var fs := Table(columns, conditions);
      && |fs| == 8 && fs[4..] == DEFAULTS
      && fs[0].value == Some(RStr("first")) && fs[1].value == Some(RArr(Inputs(conditions)))
      && fs[2].value == Some(RArr(Outputs())) && fs[3].value == Some(RArr(Rules(columns, conditions)))
  {
    hide Inputs, MatchRule, OtherwiseRule, OutputOf;
  }

  lemma {:induction false} TableApart(le: Order, columns: seq<Column>, conditions: seq<Condition>)
    requires TellsApart(le, TABLE_KEYS) && TellsApart(le, COLUMN_KEYS) && TellsApart(le, RuleKeys(conditions))
    ensures Apart(le, Mean(RObj(Table(columns, conditions))))
  {
    hide Apart, Mean, TellsApart, Table, Inputs, Rules, Outputs, RuleKeys, Unrepeated, FieldsApart;
    var fs := Table(columns, conditions);
    TableKeys(columns, conditions);
    KeysAmong(le, fs, TABLE_KEYS);
    InputsApart(le, conditions);
    OutputsApart(le);
    RulesApart(le, columns, conditions);
    ScalarApart(le, RStr("first"));
    DefaultsApart(le);
    FieldsOfTable(columns, conditions);
    forall f | f in fs && Kept(f)
      ensures Apart(le, Mean(f.value.value))
    {
      var i :| 0 <= i < |fs| && fs[i] == f;
      assert i >= 4 ==> fs[i] == DEFAULTS[i - 4];
    }
    ApartObject(le, fs);
  }

  lemma {:induction false} TableNeedsRules(le: Order, columns: seq<Column>, conditions: seq<Condition>)
    requires Apart(le, Mean(RObj(Table(columns, conditions))))
    ensures TellsApart(le, RuleKeys(conditions))
  {
    hide Apart, Mean, TellsApart, Inputs, MatchRule, OtherwiseRule, OutputOf, RuleKeys;
    var fs := Table(columns, conditions);
    TableKeys(columns, conditions);
    ApartFields(le, RObj(fs));
    assert fs[3] == Field("rules", Some(RArr(Rules(columns, conditions))));
    assert "rules"[0] != "_diff"[0];
    RulesApart(le, columns, conditions);
  }

  lemma {:induction false} SchemaApart(le: Order, schema: string)
    ensures Apart(le, Mean(RObj([TextField("schema", schema)])))
  {
    hide Mean, Apart;
    TextsApart(le, [TextField("schema", schema)]);
  }

  /** Where a collation tells the builder's own words apart, all it has to tell is the keys of a rule. */
  lemma {:induction false} MadeTold(le: Order, columns: seq<Column>, conditions: seq<Condition>, schema: string)
    ensures Told(le, MakeGraph(columns, conditions, schema)) ==> TellsApart(le, RuleKeys(conditions))
    ensures TellsWords(le) && TellsApart(le, RuleKeys(conditions)) ==> Told(le, MakeGraph(columns, conditions, schema))
  {
    hide Apart, Mean, TellsApart, TableFields, RuleKeys, Filled, EdgeMember, Ties;
    var g := MakeGraph(columns, conditions, schema);
    TableIs(columns, conditions, schema);
    assert "inputNode"[0] != TABLE[0] && "outputNode"[0] != TABLE[0];
    if Told(le, g) {
      assert ContentApart(le, g.nodes[1]);
      TableNeedsRules(le, columns, conditions);
    }
    if TellsWords(le) && TellsApart(le, RuleKeys(conditions)) {
      TableApart(le, columns, conditions);
      SchemaApart(le, schema);
      SchemaApart(le, "");
      assert AllApart(le, g.nodes);
      IdsTold(le, g.nodes);
      assert g.edges == [INTO, OUT];
      TiesSwap(le, EdgeMember(INTO).key, EdgeMember(OUT).key);
      assert EdgesTold(le, g.edges);
    }
  }

  lemma {:induction false} IdsTold(le: Order, nodes: seq<Node>)
    requires TellsApart(le, NODE_IDS) && |nodes| == 3
    requires nodes[0].id == "data-input" && nodes[1].id == "autodit-rules" && nodes[2].id == "data-output"
    ensures NodesTold(le, nodes)
  {
    hide NodeMeans, Ties;
    assert |"data-input"| == 10 && |"data-output"| == 11 && "autodit-rules"[0] != "data-input"[0]
      && "autodit-rules"[0] != "data-output"[0];
  }

  /**
   Where a collation tells the builder's own words apart, every edit that keeps
   the meaning of the compiled graph gives back the conditions if and only if
   the collation tells apart their ids, from each other and from a rule's own
   keys.
   */
  lemma {:induction false} EditsRestoreIff(le: Order, columns: seq<Column>, conditions: seq<Condition>, schema: string)
    requires Collates(le) && TellsWords(le) && AllAccepted(conditions, columns)
    ensures (forall graph :: EditGivesBack(le, columns, conditions, schema, graph)) <==>
      TellsApart(le, RuleKeys(conditions))
  {
    hide EditGivesBack, Told, Collates, AllAccepted, TellsApart, TellsWords, MakeGraph, RuleKeys;
    EditsRestore(le, columns, conditions, schema);
    MadeTold(le, columns, conditions, schema);
  }

  // ----- two spellings of one letter -----

  /** Writes every combining acute accent after `e` as one letter with it. */
  function Composed(s: string): string {
    if s == "" then ""
    else if |s| >= 2 && s[0] == 'e' && s[1] == '\U{301}' then "\U{e9}" + Composed(s[2..])
    else [s[0]] + Composed(s[1..])
  }

  /** A collation that does not tell the two spellings apart, as canonical equivalence asks. */
  const COMPOSED: Order := (a, b) => Leq(Composed(a), Composed(b))

  lemma {:induction false} ComposedCollates()
    ensures Collates(COMPOSED) && Ties(COMPOSED, "\U{e9}", "e\U{301}")
  {
    hide Composed;
    forall a, b
      ensures COMPOSED(a, b) || COMPOSED(b, a)
    {
      LeqTotal(Composed(a), Composed(b));
    }
    forall a, b, c | COMPOSED(a, b) && COMPOSED(b, c)
      ensures COMPOSED(a, c)
    {
      LeqTransitive(Composed(a), Composed(b), Composed(c));
    }
    OneLetter();
    LeqTotal(Composed("\U{e9}"), Composed("e\U{301}"));
  }

  lemma {:induction false} OneLetter()
    ensures Composed("\U{e9}") == Composed("e\U{301}")
  {
    assert "\U{e9}"[1..] == "" && "e\U{301}"[2..] == "";
    assert Composed("\U{e9}") == "\U{e9}" + "";
  }

  const TEXT_COLUMN := [Column("c", OfString)]

  const TWO_SPELLINGS := [Condition("\U{e9}", "c", "empty", ""), Condition("e\U{301}", "c", "notempty", "")]

  /**
   Under that collation two conditions whose ids are the two spellings do not
   come back from some edit that only changes the order of keys.
   */
  lemma {:induction false} TwoSpellingsLoseConditions(schema: string) returns (graph: Graph)
    ensures Collates(COMPOSED) && AllAccepted(TWO_SPELLINGS, TEXT_COLUMN) && ProperIds(TWO_SPELLINGS)
    ensures SoundGraph(graph) && Recompiles(graph, TEXT_COLUMN, TWO_SPELLINGS, schema)
    ensures SimpleConditions(COMPOSED, Edited(TWO_SPELLINGS, graph), TEXT_COLUMN, schema) != Some(TWO_SPELLINGS)
  {
    hide Collates, MakeGraph, Told, SimpleConditions, Recompiles, SoundGraph, Ties, Edited;
    ComposedCollates();
    SpellingsAccepted();
    MadeTold(COMPOSED, TEXT_COLUMN, TWO_SPELLINGS, schema);
    EditsRestore(COMPOSED, TEXT_COLUMN, TWO_SPELLINGS, schema);
    graph :| !EditGivesBack(COMPOSED, TEXT_COLUMN, TWO_SPELLINGS, schema, graph);
  }

  lemma {:induction false} SpellingsAccepted()
    ensures AllAccepted(TWO_SPELLINGS, TEXT_COLUMN) && ProperIds(TWO_SPELLINGS)
    ensures "\U{e9}" in RuleKeys(TWO_SPELLINGS) && "e\U{301}" in RuleKeys(TWO_SPELLINGS) && "\U{e9}" != "e\U{301}"
  {
    var cs := TWO_SPELLINGS;
    assert |"\U{e9}"| == 1 && |"e\U{301}"| == 2 && |"flag"| == 4 && |"reason"| == 6 && |"_diff"| == 5;
    assert cs[0].id == "\U{e9}" && cs[1].id == "e\U{301}";
  }
}
