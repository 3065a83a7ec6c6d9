/**
 Tenant parameters, the guard on released decision models and the three
 fixtures that gate a release (internal/rules/rules.go, `Simulate` in
 internal/storage/settings.go).
 */
module Rules {
  import opened Common
  import opened Decimals
  import opened Populations

  datatype Parameters = Parameters(explicit: bool, materiality: string, thresholds: map<string, string>,
                                   weekend: seq<int>, ceiling: int)

  predicate NonNegative(amount: string) {
    Money(amount).Some? && Money(amount).value >= 0
  }

  predicate ValidParameters(p: Parameters) {
    && NonNegative(p.materiality)
    && 1 <= p.ceiling <= 100000
    && 1 <= |p.weekend| <= 7
    && (forall c :: c in p.thresholds ==> Currency(c) && NonNegative(p.thresholds[c]))
    && (forall i :: 0 <= i < |p.weekend| ==> 0 <= p.weekend[i] <= 6)
    && (forall i, j :: 0 <= i < j < |p.weekend| ==> p.weekend[i] != p.weekend[j])
  }

  function MaterialityFor(p: Parameters, currency: string): Option<string> {
    if currency in p.thresholds then Some(p.thresholds[currency])
    else if !p.explicit && currency == "USD" then Some(p.materiality)
    else None
  }

  // ----- decision models -----

  datatype Column = Column(id: string, field: string)

  /** The decoded content of a decision table; `None` in a node is content that does not decode. */
  datatype Table = Table(hitPolicy: string, inputs: seq<Column>, outputs: seq<Column>, rules: seq<map<string, string>>)

  datatype Node = Node(id: string, kind: string, content: Option<Table>)

  datatype Edge = Edge(source: string, target: string)

  datatype Model = Model(size: nat, nodes: seq<Node>, edges: seq<Edge>)

  const INPUT := "inputNode"
  const TABLE := "decisionTableNode"
  const OUTPUT := "outputNode"
  const SEVERITIES := {"low", "medium", "high", "critical"}
  const OWNERS := {"auditor", "audit_manager"}
  const FIELDS := {"flag", "severity", "owner_role"}

  /** The cell is one of the names between double quotes. */
  predicate Quoted(cell: string, names: set<string>) {
    |cell| >= 2 && cell[0] == '"' && cell[|cell| - 1] == '"' && cell[1..|cell| - 1] in names
  }

  /** A cell of a row; a missing cell reads as the empty string. */
  function Cell(row: map<string, string>, id: string): string {
    if id in row then row[id] else ""
  }

  /** The id of the output column for a field; the last one wins. */
  function ColumnFor(outputs: seq<Column>, field: string): string {
    if outputs == [] then ""
    else if outputs[|outputs| - 1].field == field then outputs[|outputs| - 1].id
    else ColumnFor(outputs[..|outputs| - 1], field)
  }

  predicate RowOk(t: Table, row: map<string, string>, condition: string)
    requires |t.inputs| == 1
  {
    && Cell(row, t.inputs[0].id) == condition
    && Cell(row, ColumnFor(t.outputs, "flag")) in {"true", "false"}
    && Quoted(Cell(row, ColumnFor(t.outputs, "severity")), SEVERITIES)
    && Quoted(Cell(row, ColumnFor(t.outputs, "owner_role")), OWNERS)
  }

  /** One output column for each of the three fields. */
  predicate OutputsOk(o: seq<Column>) {
    |o| == 3 && {o[0].field, o[1].field, o[2].field} == FIELDS
  }

  predicate TableOk(t: Table) {
    && t.hitPolicy == "first"
    && |t.inputs| == 1 && t.inputs[0].field == "qualifies"
    && |t.rules| == 2
    && OutputsOk(t.outputs)
    && RowOk(t, t.rules[0], "true") && RowOk(t, t.rules[1], "")
  }

  predicate NodeOk(n: Node) {
    n.kind in {INPUT, OUTPUT} || (n.kind == TABLE && n.content.Some? && TableOk(n.content.value))
  }

  function KindOf(nodes: seq<Node>, id: string): string {
    if nodes == [] then ""
    else if nodes[|nodes| - 1].id == id then nodes[|nodes| - 1].kind
    else KindOf(nodes[..|nodes| - 1], id)
  }

  predicate HasLink(m: Model, from: string, to: string) {
    exists i :: 0 <= i < |m.edges| && KindOf(m.nodes, m.edges[i].source) == from
      && KindOf(m.nodes, m.edges[i].target) == to
  }

  /** What the guard accepts. */
  predicate Accepts(m: Model) {
    && m.size <= 131072 && |m.nodes| == 3 && |m.edges| == 2
    && (forall i :: 0 <= i < 3 ==> NodeOk(m.nodes[i]))
    && (forall i, j :: 0 <= i < j < 3 ==> m.nodes[i].id != m.nodes[j].id)
    && HasLink(m, INPUT, TABLE) && HasLink(m, TABLE, OUTPUT)
  }

  lemma {:induction false} ThreeFields(s: set<string>)
    requires s <= FIELDS
    ensures |s| == 3 <==> s == FIELDS
  {
    assert |FIELDS| == 3;
    assert FIELDS == s + (FIELDS - s);
    assert |FIELDS| == |s| + |FIELDS - s|;
  }

  lemma {:induction false} OutputFields(o: seq<Column>)
    requires |o| == 3
    ensures (set k | 0 <= k < 3 :: o[k].field) == {o[0].field, o[1].field, o[2].field}
    ensures OutputsOk(o) <==>
      {o[0].field, o[1].field, o[2].field} <= FIELDS && |{o[0].field, o[1].field, o[2].field}| == 3
  {
    var s := {o[0].field, o[1].field, o[2].field};
    if s <= FIELDS {
      ThreeFields(s);
    }
  }

  /** The map holds the columns of the first `n` outputs, which are all of known fields. */
  ghost predicate Gathered(o: seq<Column>, n: nat, fields: map<string, string>)
    requires n <= |o|
  {
    && fields.Keys == (set k | 0 <= k < n :: o[k].field)
    && (forall f :: f in fields ==> fields[f] == ColumnFor(o[..n], f))
    && forall k :: 0 <= k < n ==> o[k].field in FIELDS
  }

  lemma {:induction false} GatheredNext(o: seq<Column>, n: nat, fields: map<string, string>)
    requires n < |o| && Gathered(o, n, fields) && o[n].field in FIELDS
    ensures Gathered(o, n + 1, fields[o[n].field := o[n].id])
  {
    assert o[..n + 1][..n] == o[..n];
  }

  lemma {:induction false} UnknownField(o: seq<Column>, n: nat)
    requires |o| == 3 && n < 3 && o[n].field !in FIELDS
    ensures !OutputsOk(o)
  {
    hide OutputsOk;
    OutputFields(o);
    assert o[n].field in {o[0].field, o[1].field, o[2].field};
  }

  lemma {:induction false} AllGathered(o: seq<Column>, fields: map<string, string>)
    requires |o| == 3 && Gathered(o, 3, fields)
    ensures |fields.Keys| == 3 <==> OutputsOk(o)
    ensures |fields.Keys| == 3 ==> forall f :: f in FIELDS ==> f in fields && fields[f] == ColumnFor(o, f)
  {
    hide OutputsOk, ColumnFor;
    OutputFields(o);
    assert o[..3] == o;
    assert fields.Keys <= FIELDS;
    ThreeFields(fields.Keys);
  }

  method ReadFields(o: seq<Column>) returns (fields: map<string, string>, ok: bool)
    requires |o| == 3
    ensures ok <==> OutputsOk(o)
    ensures ok ==> forall f :: f in FIELDS ==> f in fields && fields[f] == ColumnFor(o, f)
  {
    hide OutputsOk, Gathered, ColumnFor;
    fields, ok := map[], false;
    assert Gathered(o, 0, fields) by { NoneGathered(o); }
    for i := 0 to |o|
      invariant Gathered(o, i, fields)
    {
      if o[i].field != "flag" && o[i].field != "severity" && o[i].field != "owner_role" {
        UnknownField(o, i);
        return;
      }
      GatheredNext(o, i, fields);
      fields := fields[o[i].field := o[i].id];
    }
    AllGathered(o, fields);
    ok := |fields.Keys| == 3;
  }

  lemma {:induction false} NoneGathered(o: seq<Column>)
    ensures Gathered(o, 0, map[])
  {
  }

  method ValidateRow(t: Table, fields: map<string, string>, row: map<string, string>, first: bool) returns (ok: bool)
    requires |t.inputs| == 1
    requires forall f :: f in FIELDS ==> f in fields && fields[f] == ColumnFor(t.outputs, f)
    ensures ok <==> RowOk(t, row, if first then "true" else "")
  {
    hide Quoted, ColumnFor;
    var condition := Cell(row, t.inputs[0].id);
    if (first && condition != "true") || (!first && condition != "") {
      return false;
    }
    var flag := Cell(row, fields["flag"]);
    if flag != "true" && flag != "false" {
      return false;
    }
    return Quoted(Cell(row, fields["severity"]), SEVERITIES) && Quoted(Cell(row, fields["owner_role"]), OWNERS);
  }

  method ValidateTable(t: Table) returns (ok: bool)
    ensures ok <==> TableOk(t)
  {
    hide RowOk, ColumnFor;
    if t.hitPolicy != "first" || |t.inputs| != 1 || t.inputs[0].field != "qualifies" || |t.outputs| != 3
      || |t.rules| != 2 {
      return false;
    }
    var fields;
    fields, ok := ReadFields(t.outputs);
    if !ok { return; }
    for i := 0 to 2
      invariant ok
      invariant forall k :: 0 <= k < i ==> RowOk(t, t.rules[k], if k == 0 then "true" else "")
    {
      ok := ValidateRow(t, fields, t.rules[i], i == 0);
      if !ok { return; }
    }
    assert RowOk(t, t.rules[0], "true") && RowOk(t, t.rules[1], "");
  }

  /** The nodes are well-formed and have distinct ids. */
  predicate NodesOk(nodes: seq<Node>) {
    && (forall i :: 0 <= i < |nodes| ==> NodeOk(nodes[i]))
    && (forall i, j :: 0 <= i < j < |nodes| ==> nodes[i].id != nodes[j].id)
  }

  method ValidateNode(n: Node) returns (ok: bool)
    ensures ok <==> NodeOk(n)
    ensures ok ==> n.kind != ""
  {
    hide TableOk;
    if n.kind == INPUT || n.kind == OUTPUT {
      return true;
    }
    if n.kind != TABLE || n.content.None? {
      return false;
    }
    ok := ValidateTable(n.content.value);
  }

  method ReadTypes(nodes: seq<Node>) returns (types: map<string, string>, ok: bool)
    ensures ok <==> NodesOk(nodes)
    ensures ok ==> forall id :: KindOf(nodes, id) == if id in types then types[id] else ""
  {
    hide NodeOk;
    types, ok := map[], false;
    for i := 0 to |nodes|
      invariant types.Keys == set k | 0 <= k < i :: nodes[k].id
      invariant forall id :: KindOf(nodes[..i], id) == if id in types then types[id] else ""
      invariant forall id :: id in types ==> types[id] != ""
      invariant NodesOk(nodes[..i])
    {
      var n := nodes[i];
      assert nodes[..i + 1][..i] == nodes[..i];
      if n.id in types && types[n.id] != "" {
        assert exists k :: 0 <= k < i && nodes[k].id == n.id;
        return;
      }
      types := types[n.id := n.kind];
      var fine := ValidateNode(n);
      if !fine { return; }
    }
    assert nodes[..|nodes|] == nodes;
    ok := true;
  }

  method ValidateModel(m: Model) returns (ok: bool)
    ensures ok <==> Accepts(m)
  {
    hide NodeOk, KindOf;
    if m.size > 131072 || |m.nodes| != 3 || |m.edges| != 2 {
      return false;
    }
    var types, fine := ReadTypes(m.nodes);
    if !fine {
      return false;
    }
    var links := {};
    for i := 0 to |m.edges|
      invariant links == set k | 0 <= k < i :: (KindOf(m.nodes, m.edges[k].source), KindOf(m.nodes, m.edges[k].target))
    {
      var e := m.edges[i];
      links := links + {(if e.source in types then types[e.source] else "",
                         if e.target in types then types[e.target] else "")};
    }
    return (INPUT, TABLE) in links && (TABLE, OUTPUT) in links;
  }

  // ----- evaluation -----

  datatype Decision = Decision(flag: bool, severity: string, owner: string)

  /** Any value that the field `qualifies` of an input may have; a missing field is null. */
  datatype Given =
    | Null
    | Boolean(truth: bool)
    | Numeric(digits: string)
    | Textual(text: string)
    | Compound(json: string)

  /** A decision-table cell against `qualifies`: an empty cell holds of anything, a truth value of itself only. */
  predicate CellHolds(cell: string, qualifies: Given) {
    cell == "" || (cell == "true" && qualifies == Boolean(true)) || (cell == "false" && qualifies == Boolean(false))
  }

  function FirstHit(t: Table, qualifies: Given, from: nat): Option<map<string, string>>
    requires |t.inputs| == 1
    decreases |t.rules| - from
  {
    if from >= |t.rules| then None
    else if CellHolds(Cell(t.rules[from], t.inputs[0].id), qualifies) then Some(t.rules[from])
    else FirstHit(t, qualifies, from + 1)
  }

  function Unquote(s: string): string {
    if |s| >= 2 then s[1..|s| - 1] else s
  }

  function TableOf(nodes: seq<Node>): Option<Table> {
    if nodes == [] then None
    else if nodes[|nodes| - 1].kind == TABLE then nodes[|nodes| - 1].content
    else TableOf(nodes[..|nodes| - 1])
  }

  /** First-hit evaluation of the fields the guard reads; `None` is an evaluation error. */
  function Evaluate(m: Model, qualifies: Given): Option<Decision> {
    if !Accepts(m) || TableOf(m.nodes).None? || |TableOf(m.nodes).value.inputs| != 1 then None
    else
      var t := TableOf(m.nodes).value;
      match FirstHit(t, qualifies, 0)
      case None => None
      case Some(row) => Some(Decision(Cell(row, ColumnFor(t.outputs, "flag")) == "true",
                                      Unquote(Cell(row, ColumnFor(t.outputs, "severity"))),
                                      Unquote(Cell(row, ColumnFor(t.outputs, "owner_role")))))
  }

  predicate Passes(m: Model, qualifies: Given, want: bool) {
    Evaluate(m, qualifies).Some? && Evaluate(m, qualifies).value.flag == want
  }

  predicate Releasable(m: Model) {
    Accepts(m) && Passes(m, Boolean(true), true) && Passes(m, Boolean(false), false) && Passes(m, Null, false)
  }

  /** Runs the positive, the negative and the null fixture. */
  method Simulate(m: Model) returns (ok: bool)
    ensures ok <==> Releasable(m)
  {
    hide Accepts, Evaluate;
    var fixtures := [(Boolean(true), true), (Boolean(false), false), (Null, false)];
    var fine := ValidateModel(m);
    if !fine { return false; }
    for i := 0 to |fixtures|
      invariant forall k :: 0 <= k < i ==> Passes(m, fixtures[k].0, fixtures[k].1)
    {
      var ev := Evaluate(m, fixtures[i].0);
      if ev.None? || ev.value.flag != fixtures[i].1 {
        return false;
      }
    }
    assert Passes(m, fixtures[0].0, fixtures[0].1) && Passes(m, fixtures[1].0, fixtures[1].1)
        && Passes(m, fixtures[2].0, fixtures[2].1);
    return true;
  }
}
