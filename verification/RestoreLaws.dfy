/** When a saved graph gives its conditions back, and what it then still means. */
module RestoreLaws {
  import opened Common
  import opened Collation
  import opened GraphLogic
  import opened SameLogic
  import opened LogicOrder
  import opened ZenText
  import opened Builder
  import opened BuilderLaws

  // ----- compiled graphs are well-formed -----

  lemma {:induction false} RuleSound(name: string, conditions: seq<Condition>, cell: Condition -> string,
      flag: string, reason: string)
    ensures Sound(Rule(name, conditions, cell, flag, reason))
  {
    hide Assign;
    var base := [TextField("_id", name)];
    TextsSound(base, conditions, cell);
    var a := AssignTexts(base, conditions, cell);
    AssignSound(a, "flag", RStr(flag));
    var b := Assign(a, "flag", RStr(flag));
    AssignSound(b, "reason", RStr(reason));
    var fs := Assign(b, "reason", RStr(reason));
    assert forall i :: 0 <= i < |fs| ==> fs[i] in fs;
  }

  lemma {:induction false} TextsSound(fs: seq<Field>, conditions: seq<Condition>, cell: Condition -> string)
    requires SoundFields(fs)
    ensures SoundFields(AssignTexts(fs, conditions, cell))
  {
    hide Assign, SoundFields;
    if conditions != [] {
      var n := |conditions| - 1;
      TextsSound(fs, conditions[..n], cell);
      TextSound(cell(conditions[n]));
      AssignSound(AssignTexts(fs, conditions[..n], cell), conditions[n].id, RStr(cell(conditions[n])));
    }
  }

  lemma {:induction false} TextSound(s: string)
    ensures Sound(RStr(s))
  {
  }

  lemma {:induction false} InputSound(c: Condition)
    ensures Sound(InputOf(c))
  {
    hide FieldText;
    assert |"id"| == 2 && |"name"| == 4 && |"field"| == 5;
  }

  lemma {:induction false} OutputSound(id: string, name: string)
    ensures Sound(OutputOf(id, name))
  {
    assert |"id"| == 2 && |"name"| == 4 && |"field"| == 5;
  }

  lemma {:induction false} TableSound(columns: seq<Column>, conditions: seq<Condition>)
    ensures Sound(RObj(TableFields(columns, conditions)))
  {
    hide Rule, InputOf, OutputOf;
    RuleSound("match", conditions, c => Expression(c, columns), "true", MATCHES);
    RuleSound("otherwise", conditions, c => "", "false", OTHERWISE);
    forall i | 0 <= i < |conditions|
      ensures Sound(Inputs(conditions)[i])
    {
      InputSound(conditions[i]);
    }
    var fs := TableFields(columns, conditions);
    assert |"hitPolicy"| == 9 && |"inputs"| == 6 && |"outputs"| == 7 && |"rules"| == 5;
    assert fs[0].key == "hitPolicy" && fs[1].key == "inputs" && fs[2].key == "outputs" && fs[3].key == "rules";
    var rules := (if conditions != [] then [MatchRule(columns, conditions)] else []) + [OtherwiseRule(conditions)];
    assert forall i :: 0 <= i < |rules| ==> Sound(rules[i]);
    var outputs := [OutputOf("flag", "Flag"), OutputOf("reason", "Reason")];
    OutputSound("flag", "Flag");
    OutputSound("reason", "Reason");
    assert Sound(outputs[0]) && Sound(outputs[1]);
    assert Sound(RArr(rules)) && Sound(RArr(Inputs(conditions))) && Sound(RArr(outputs));
    assert Sound(RStr("first"));
  }

  lemma {:induction false} MadeSound(columns: seq<Column>, conditions: seq<Condition>, schema: string)
    ensures SoundGraph(MakeGraph(columns, conditions, schema))
  {
    hide TableFields;
    TableSound(columns, conditions);
    assert Sound(RObj([TextField("schema", schema)])) && Sound(RObj([TextField("schema", "")]));
  }

  // ----- restoring -----

  /** The graph has the nodes and the edges of the compiled one, in what they mean. */
  predicate Recompiles(g: Graph, columns: seq<Column>, conditions: seq<Condition>, schema: string) {
    SameMeaning(MakeGraph(columns, conditions, schema), g)
  }

  /** The condition names one of the columns and one of the operators. */
  predicate Known(c: Condition, columns: seq<Column>) {
    && (exists j :: 0 <= j < |columns| && columns[j].name == c.column)
    && c.operator in {"eq", "neq", "gt", "gte", "lt", "lte", "empty", "notempty"}
  }

  lemma {:induction false} TypeFound(columns: seq<Column>, name: string)
    ensures TypeOf(columns, name).Some? <==> exists j :: 0 <= j < |columns| && columns[j].name == name
  {
    if columns != [] && columns[0].name != name {
      TypeFound(columns[1..], name);
      assert forall j :: 1 <= j < |columns| ==> columns[j] == columns[1..][j - 1];
    }
  }

  lemma {:induction false} RestorableIff(c: Condition, columns: seq<Column>)
    ensures Restorable(c, columns) <==> Known(c, columns)
  {
    hide TypeOf;
    TypeFound(columns, c.column);
  }

  /** The model's own record is of these conditions, each of which names a column and a known operator. */
  predicate Records(m: Model, columns: seq<Column>, conditions: seq<Condition>) {
    m.metadata == Some(Metadata("simple", conditions))
      && forall i :: 0 <= i < |conditions| ==> Known(conditions[i], columns)
  }

  lemma {:induction false} GivesBack(le: Order, m: Model, columns: seq<Column>, schema: string,
      conditions: seq<Condition>)
    ensures SimpleConditions(le, m, columns, schema) == Some(conditions) <==>
      Records(m, columns, conditions) && SameGraphLogic(le, MakeGraph(columns, conditions, schema), m.graph)
  {
    hide SameGraphLogic, MakeGraph, Restorable, Known;
    forall c
      ensures Restorable(c, columns) <==> Known(c, columns)
    {
      RestorableIff(c, columns);
    }
    SameSymmetric(le, MakeGraph(columns, conditions, schema), m.graph);
  }

  lemma {:induction false} SameSymmetric(le: Order, g: Graph, h: Graph)
    ensures SameGraphLogic(le, g, h) <==> SameGraphLogic(le, h, g)
  {
  }

  /**
   Conditions come back only when the model records them, each names a column
   and a known operator, and they compile to a graph of the same nodes and
   edges, in what those mean; then all of them come back, in their order.  They
   do come back then, where the collation tells the compiled graph's keys apart.
   */
  lemma {:induction false} RestoresIff(le: Order, m: Model, columns: seq<Column>, schema: string,
      conditions: seq<Condition>)
    requires Collates(le) && SoundGraph(m.graph)
    ensures SimpleConditions(le, m, columns, schema) == Some(conditions)
      ==> Records(m, columns, conditions) && Recompiles(m.graph, columns, conditions, schema)
    ensures Told(le, MakeGraph(columns, conditions, schema)) ==>
      (Records(m, columns, conditions) && Recompiles(m.graph, columns, conditions, schema)
       ==> SimpleConditions(le, m, columns, schema) == Some(conditions))
  {
    hide SameGraphLogic, MakeGraph, SameMeaning, Records, SimpleConditions, Told, Collates;
    GivesBack(le, m, columns, schema, conditions);
    MadeSound(columns, conditions, schema);
    SameLogicIff(le, MakeGraph(columns, conditions, schema), m.graph);
  }

  /** The model that the builder saved, with an edited graph. */
  function Edited(conditions: seq<Condition>, graph: Graph): Model {
    Model(Some(Metadata("simple", conditions)), graph)
  }

  lemma {:induction false} AcceptedRecorded(columns: seq<Column>, conditions: seq<Condition>, graph: Graph)
    requires AllAccepted(conditions, columns)
    ensures Records(Edited(conditions, graph), columns, conditions)
  {
    forall i | 0 <= i < |conditions|
      ensures Known(conditions[i], columns)
    {
      RestorableIff(conditions[i], columns);
    }
  }

  lemma {:induction false} EditedGivesBack(le: Order, columns: seq<Column>, conditions: seq<Condition>,
      schema: string, graph: Graph)
    requires AllAccepted(conditions, columns)
    ensures SimpleConditions(le, Edited(conditions, graph), columns, schema) == Some(conditions)
      <==> SameGraphLogic(le, MakeGraph(columns, conditions, schema), graph)
  {
    hide SameGraphLogic, MakeGraph, SimpleConditions, AllAccepted, Records;
    AcceptedRecorded(columns, conditions, graph);
    GivesBack(le, Edited(conditions, graph), columns, schema, conditions);
  }

  /** If the edited graph means what the compiled one does, the conditions come back. */
  predicate EditGivesBack(le: Order, columns: seq<Column>, conditions: seq<Condition>, schema: string, graph: Graph) {
    SoundGraph(graph) && Recompiles(graph, columns, conditions, schema)
    ==> SimpleConditions(le, Edited(conditions, graph), columns, schema) == Some(conditions)
  }

  /**
   Any edit that keeps the meaning of the compiled nodes and edges gives back
   the original conditions, if and only if the collation tells apart the keys
   in the compiled graph, its node ids and its edges.
   */
  lemma {:induction false} EditsRestore(le: Order, columns: seq<Column>, conditions: seq<Condition>, schema: string)
    requires Collates(le) && AllAccepted(conditions, columns)
    ensures (forall graph :: EditGivesBack(le, columns, conditions, schema, graph))
      <==> Told(le, MakeGraph(columns, conditions, schema))
  {
    hide SameGraphLogic, MakeGraph, SameMeaning, SimpleConditions, Told, Collates, AllAccepted, SoundGraph, Edited;
    var made := MakeGraph(columns, conditions, schema);
    MadeSound(columns, conditions, schema);
    OrderIsNothingIff(le, made);
    forall graph
      ensures EditGivesBack(le, columns, conditions, schema, graph) <==>
        (SoundGraph(graph) && SameMeaning(made, graph) ==> SameGraphLogic(le, made, graph))
    {
      EditedGivesBack(le, columns, conditions, schema, graph);
    }
    if Told(le, made) {
      forall graph
        ensures EditGivesBack(le, columns, conditions, schema, graph)
      {
        assert SoundGraph(graph) && SameMeaning(made, graph) ==> SameGraphLogic(le, made, graph);
      }
    } else {
      var graph :| SoundGraph(graph) && SameMeaning(made, graph) && !SameGraphLogic(le, made, graph);
      assert !EditGivesBack(le, columns, conditions, schema, graph);
    }
  }

  // ----- the meaning of an edited table -----

  lemma {:induction false} GetSound(r: Raw, key: string)
    requires Sound(r)
    ensures Sound(Get(r, key))
  {
    if r.RObj? {
      FindWhere(r.fields, key);
    }
  }

  lemma {:induction false} GetAlike(a: Raw, b: Raw, key: string)
    requires Sound(a) && Sound(b) && Mean(a) == Mean(b) && key != "_diff"
    ensures Sound(Get(a, key)) && Sound(Get(b, key)) && Mean(Get(a, key)) == Mean(Get(b, key))
  {
    hide KeptMeanings, Find;
    GetSound(a, key);
    GetSound(b, key);
    if a.RObj? && b.RObj? {
      MeanObjects(a, b);
      assert MeanAlike(Held(a, key), Held(b, key));
    }
  }

  lemma {:induction false} TextAlike(a: Raw, b: Raw)
    requires Mean(a) == Mean(b)
    ensures TextOf(a) == TextOf(b)
  {
  }

  lemma {:induction false} ItemsAlike(a: Raw, b: Raw)
    requires Sound(a) && Sound(b) && Mean(a) == Mean(b)
    ensures Pairwise(ItemsOf(a), ItemsOf(b))
  {
    if a.RArr? && b.RArr? {
      assert forall i :: 0 <= i < |a.items| ==> Mean(a).items[i] == Mean(a.items[i]);
      assert forall i :: 0 <= i < |b.items| ==> Mean(b).items[i] == Mean(b.items[i]);
    }
  }

  predicate Pairwise(p: seq<Raw>, q: seq<Raw>) {
    |p| == |q| && forall i :: 0 <= i < |p| ==> Sound(p[i]) && Sound(q[i]) && Mean(p[i]) == Mean(q[i])
  }

  /** No input column is called `_diff`, the one key that comparisons pass over. */
  predicate NoDiffColumn(inputs: seq<Raw>) {
    forall i :: 0 <= i < |inputs| ==> TextOf(Get(inputs[i], "id")) != "_diff"
  }

  lemma {:induction false} CellAlike(holds: (Test, Value) -> bool, r: Raw, s: Raw, a: Raw, b: Raw, row: Row)
    requires Sound(r) && Sound(s) && Sound(a) && Sound(b) && Mean(r) == Mean(s) && Mean(a) == Mean(b)
    requires TextOf(Get(a, "id")) != "_diff"
    ensures CellHolds(holds, r, a, row) <==> CellHolds(holds, s, b, row)
  {
    hide Mean, Get, TextOf, ParseTest, FieldColumn, Sound;
    assert "id"[0] != "_diff"[0] && "field"[0] != "_diff"[0];
    GetAlike(a, b, "id");
    TextAlike(Get(a, "id"), Get(b, "id"));
    GetAlike(a, b, "field");
    TextAlike(Get(a, "field"), Get(b, "field"));
    var id := TextOf(Get(a, "id"));
    GetAlike(r, s, id);
    TextAlike(Get(r, id), Get(s, id));
  }

  lemma {:induction false} HitAlike(holds: (Test, Value) -> bool, p: seq<Raw>, q: seq<Raw>, rules: seq<Raw>,
      edited: seq<Raw>, row: Row)
    requires Pairwise(p, q) && Pairwise(rules, edited) && NoDiffColumn(p)
    ensures var a, b := FirstHit(holds, p, rules, row), FirstHit(holds, q, edited, row);
      (a.Some? <==> b.Some?) && (a.Some? ==> Sound(a.value) && Sound(b.value) && Mean(a.value) == Mean(b.value))
    decreases |rules|
  {
    hide CellHolds, Mean, Get, TextOf, Sound;
    if rules != [] {
      forall i | 0 <= i < |p|
        ensures CellHolds(holds, rules[0], p[i], row) <==> CellHolds(holds, edited[0], q[i], row)
      {
        CellAlike(holds, rules[0], edited[0], p[i], q[i], row);
      }
      HitAlike(holds, p, q, rules[1..], edited[1..], row);
    }
  }

  /** Tables that mean the same flag the same rows. */
  lemma {:induction false} FlagsAlike(holds: (Test, Value) -> bool, a: Raw, b: Raw, row: Row)
    requires Sound(a) && Sound(b) && Mean(a) == Mean(b) && NoDiffColumn(ItemsOf(Get(a, "inputs")))
    ensures Flags(holds, a, row) <==> Flags(holds, b, row)
  {
    hide Mean, Get, TextOf, Sound, FirstHit, ItemsOf, Pairwise;
    assert "hitPolicy"[0] != "_diff"[0] && "inputs"[0] != "_diff"[0] && "rules"[0] != "_diff"[0]
      && "flag"[0] != "_diff"[0];
    GetAlike(a, b, "hitPolicy");
    TextAlike(Get(a, "hitPolicy"), Get(b, "hitPolicy"));
    GetAlike(a, b, "inputs");
    GetAlike(a, b, "rules");
    ItemsAlike(Get(a, "inputs"), Get(b, "inputs"));
    ItemsAlike(Get(a, "rules"), Get(b, "rules"));
    var p, q := ItemsOf(Get(a, "inputs")), ItemsOf(Get(b, "inputs"));
    var rules, edited := ItemsOf(Get(a, "rules")), ItemsOf(Get(b, "rules"));
    HitAlike(holds, p, q, rules, edited, row);
    var x, y := FirstHit(holds, p, rules, row), FirstHit(holds, q, edited, row);
    if x.Some? {
      GetAlike(x.value, y.value, "flag");
      TextAlike(Get(x.value, "flag"), Get(y.value, "flag"));
    }
  }

  lemma {:induction false} FilledGet(fs: seq<Field>, key: string)
    requires SoundFields(fs) && key !in KEYS
    ensures Get(RObj(Filled(fs)), key) == Get(RObj(fs), key)
  {
    hide Filled, Find, SoundFields;
    FilledIs(fs);
  }

  lemma {:induction false} FilledFlags(holds: (Test, Value) -> bool, fs: seq<Field>, row: Row)
    requires SoundFields(fs)
    ensures Flags(holds, RObj(Filled(fs)), row) <==> Flags(holds, RObj(fs), row)
    ensures ItemsOf(Get(RObj(Filled(fs)), "inputs")) == ItemsOf(Get(RObj(fs), "inputs"))
  {
    hide Filled, Get, SoundFields, FirstHit;
    assert |"hitPolicy"| == 9 && |"inputs"| == 6 && |"rules"| == 5;
    assert |"passThrough"| == 11 && |"executionMode"| == 13 && |"inputField"| == 10 && |"outputPath"| == 10;
    FilledGet(fs, "hitPolicy");
    FilledGet(fs, "inputs");
    FilledGet(fs, "rules");
  }

  lemma {:induction false} MadeTable(holds: (Test, Value) -> bool, columns: seq<Column>, conditions: seq<Condition>,
      schema: string, row: Row)
    ensures var g := MakeGraph(columns, conditions, schema);
      var table := RObj(Filled(TableFields(columns, conditions)));
      && ContentOf(g.nodes[1]) == Some(table) && Sound(table)
      && (Flags(holds, table, row) <==> Flags(holds, RObj(TableFields(columns, conditions)), row))
      && ItemsOf(Get(table, "inputs")) == Inputs(conditions)
      && g.nodes[0].kind != TABLE && g.nodes[2].kind != TABLE && g.nodes[1].kind == TABLE
  {
    hide Filled, TableFields, Flags, Get, SoundFields;
    TableSound(columns, conditions);
    TableReads(columns, conditions);
    var fs := TableFields(columns, conditions);
    SpreadSound(RObj(fs));
    FilledFlags(holds, fs, row);
    FilledIs(fs);
    FieldsSound(Filled(fs));
    assert "inputNode"[0] != TABLE[0] && "outputNode"[0] != TABLE[0];
  }

  lemma {:induction false} FieldsSound(fs: seq<Field>)
    requires SoundFields(fs)
    ensures Sound(RObj(fs))
  {
    assert forall i :: 0 <= i < |fs| ==> fs[i] in fs;
  }

  lemma {:induction false} MeaningOccurs(g: Graph, i: nat)
    requires i < |g.nodes|
    ensures NodeMeans(g.nodes[i]) in NodeMeanings(g)
  {
    hide NodeMeans;
    assert NodesMean(g.nodes)[i] == NodeMeans(g.nodes[i]);
  }

  lemma {:induction false} MeaningComesFrom(g: Graph, m: NodeMeaning) returns (i: nat)
    requires m in NodeMeanings(g)
    ensures i < |g.nodes| && NodeMeans(g.nodes[i]) == m
  {
    hide NodeMeans;
    assert m in NodesMean(g.nodes);
    i :| 0 <= i < |g.nodes| && NodesMean(g.nodes)[i] == m;
  }

  /** A graph with the meaning of the compiled one flags what the compiled table flags. */
  lemma {:induction false} RecompiledFlags(holds: (Test, Value) -> bool, g: Graph, columns: seq<Column>,
      conditions: seq<Condition>, schema: string, row: Row)
    requires SoundGraph(g) && Recompiles(g, columns, conditions, schema)
    requires forall i :: 0 <= i < |conditions| ==> conditions[i].id != "_diff"
    ensures GraphFlags(holds, g, row) <==> Flags(holds, RObj(TableFields(columns, conditions)), row)
  {
    hide MakeGraph, NodeMeanings, EdgeMeanings, Flags, TableFields, ContentOf, Filled, Get, InputOf, Mean;
    var made := MakeGraph(columns, conditions, schema);
    MadeTable(holds, columns, conditions, schema, row);
    MadeCount(columns, conditions, schema);
    var table := ContentOf(made.nodes[1]).value;
    forall i | 0 <= i < |conditions|
      ensures TextOf(Get(Inputs(conditions)[i], "id")) != "_diff"
    {
      InputReads(conditions[i]);
    }
    if GraphFlags(holds, g, row) {
      var i :| 0 <= i < |g.nodes| && g.nodes[i].kind == TABLE && ContentOf(g.nodes[i]).Some?
               && Flags(holds, ContentOf(g.nodes[i]).value, row);
      MeaningOccurs(g, i);
      var j := MeaningComesFrom(made, NodeMeans(g.nodes[i]));
      ContentSound(g.nodes[i]);
      FlagsAlike(holds, table, ContentOf(g.nodes[i]).value, row);
    }
    if Flags(holds, table, row) {
      MeaningOccurs(made, 1);
      var i := MeaningComesFrom(g, NodeMeans(made.nodes[1]));
      ContentSound(g.nodes[i]);
      FlagsAlike(holds, table, ContentOf(g.nodes[i]).value, row);
    }
  }

  lemma {:induction false} MadeCount(columns: seq<Column>, conditions: seq<Condition>, schema: string)
    ensures |MakeGraph(columns, conditions, schema).nodes| == 3
  {
  }

  /**
   Whatever was edited, a graph that gives conditions back still flags a row
   exactly when there are some and all hold, if the builder kept their meaning.
   */
  lemma {:induction false} RestoredMeansConditions(le: Order, holds: (Test, Value) -> bool, m: Model,
      columns: seq<Column>, schema: string, conditions: seq<Condition>, row: Row)
    requires Collates(le) && SoundGraph(m.graph) && SimpleConditions(le, m, columns, schema) == Some(conditions)
    requires AllAccepted(conditions, columns) && Compiled(columns, conditions) == Stated(columns, conditions)
    requires forall i :: 0 <= i < |conditions| ==> conditions[i].id != "_diff"
    ensures GraphFlags(holds, m.graph, row) <==> ConditionsHold(holds, columns, conditions, row)
  {
    hide SimpleConditions, Recompiles, GraphFlags, Flags, TableFields, ConditionsHold, AllAccepted, Compiled, Stated,
         Collates;
    RestoresIff(le, m, columns, schema, conditions);
    RecompiledFlags(holds, m.graph, columns, conditions, schema, row);
    SameTestsAgree(holds, columns, conditions, row);
  }
}
