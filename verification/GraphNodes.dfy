/** The nodes of a decision graph and what each kind may contain (internal/analysis/graph.go). */
module GraphNodes {
  const INPUT := "inputNode"
  const OUTPUT := "outputNode"
  const TABLE := "decisionTableNode"
  const EXPRESSION := "expressionNode"
  const FUNCTION := "functionNode"
  const SWITCH := "switchNode"

  datatype Column = Column(id: string, field: string)

  datatype Expression = Expression(id: string, key: string, value: string)

  datatype Statement = Statement(id: string, condition: string, isDefault: bool)

  /** What a node's content decodes to for its kind; `Undecodable` when it does not. */
  datatype Content =
    | Table(policy: string, inputs: seq<Column>, outputs: seq<Column>, rules: seq<map<string, string>>)
    | Expressions(expressions: seq<Expression>)
    | Source(source: string)
    | Switch(policy: string, statements: seq<Statement>)
    | Undecodable

  datatype Node = Node(id: string, kind: string, content: Content)

  predicate Policy(s: string) {
    s == "first" || s == "collect"
  }

  predicate ColumnOk(c: Column) {
    c.id != "" && c.id != "_id" && |c.field| <= 4096
  }

  predicate RuleOk(rule: map<string, string>, ids: set<string>) {
    forall key :: key in rule ==> |rule[key]| <= 4096 && (key in ids || key == "_id" || key == "_description")
  }

  predicate DistinctColumns(c: seq<Column>) {
    forall i, j :: 0 <= i < j < |c| ==> c[i].id != c[j].id
  }

  function ColumnIds(c: seq<Column>): set<string> {
    set i | 0 <= i < |c| :: c[i].id
  }

  predicate TableOk(t: Content) {
    && t.Table? && Policy(t.policy) && |t.inputs| <= 200 && 1 <= |t.outputs| <= 200 && 1 <= |t.rules| <= 500
    && var columns := t.inputs + t.outputs;
      && (forall i :: 0 <= i < |columns| ==> ColumnOk(columns[i])) && DistinctColumns(columns)
      && (forall i :: 0 <= i < |t.outputs| ==> t.outputs[i].field != "")
      && (forall i :: 0 <= i < |t.rules| ==> RuleOk(t.rules[i], ColumnIds(columns)))
  }

  method ValidateRule(rule: map<string, string>, ids: set<string>) returns (ok: bool)
    ensures ok <==> RuleOk(rule, ids)
  {
    var keys := rule.Keys;
    while keys != {}
      invariant keys <= rule.Keys
      invariant RuleOk(map key | key in rule && key !in keys :: rule[key], ids)
    {
      var key :| key in keys;
      if |rule[key]| > 4096 || (key !in ids && key != "_id" && key != "_description") {
        return false;
      }
      keys := keys - {key};
    }
    assert rule == map key | key in rule && key !in keys :: rule[key];
    return true;
  }

  method ReadColumns(columns: seq<Column>) returns (ids: set<string>, ok: bool)
    ensures ok <==> (forall i :: 0 <= i < |columns| ==> ColumnOk(columns[i])) && DistinctColumns(columns)
    ensures ok ==> ids == ColumnIds(columns)
  {
    ids, ok := {}, false;
    for i := 0 to |columns|
      invariant ids == ColumnIds(columns[..i])
      invariant forall k :: 0 <= k < i ==> ColumnOk(columns[k])
      invariant DistinctColumns(columns[..i])
    {
      var c := columns[i];
      if !ColumnOk(c) || c.id in ids {
        return;
      }
      ids := ids + {c.id};
    }
    assert columns[..|columns|] == columns;
    ok := true;
  }

  method ValidateTable(t: Content) returns (ok: bool)
    ensures ok <==> TableOk(t)
  {
    hide RuleOk, ColumnOk, DistinctColumns;
    if !t.Table? || !Policy(t.policy) || |t.inputs| > 200 || |t.outputs| == 0 || |t.outputs| > 200
       || |t.rules| == 0 || |t.rules| > 500 {
      return false;
    }
    var ids;
    ids, ok := ReadColumns(t.inputs + t.outputs);
    if !ok { return; }
    for i := 0 to |t.outputs|
      invariant forall k :: 0 <= k < i ==> t.outputs[k].field != ""
    {
      if t.outputs[i].field == "" { return false; }
    }
    for i := 0 to |t.rules|
      invariant forall k :: 0 <= k < i ==> RuleOk(t.rules[k], ids)
    {
      ok := ValidateRule(t.rules[i], ids);
      if !ok { return; }
    }
    return true;
  }

  predicate ExpressionOk(x: Expression) {
    x.id != "" && 1 <= |x.key| <= 256 && 1 <= |x.value| <= 4096
  }

  predicate ExpressionsOk(c: Content) {
    && c.Expressions? && 1 <= |c.expressions| <= 200
    && (forall i :: 0 <= i < |c.expressions| ==> ExpressionOk(c.expressions[i]))
    && forall i, j :: 0 <= i < j < |c.expressions| ==> c.expressions[i].id != c.expressions[j].id
  }

  method ValidateExpressions(c: Content) returns (ok: bool)
    ensures ok <==> ExpressionsOk(c)
  {
    if !c.Expressions? || |c.expressions| == 0 || |c.expressions| > 200 {
      return false;
    }
    var seen := {};
    for i := 0 to |c.expressions|
      invariant seen == set k | 0 <= k < i :: c.expressions[k].id
      invariant forall k :: 0 <= k < i ==> ExpressionOk(c.expressions[k])
      invariant forall j, k :: 0 <= j < k < i ==> c.expressions[j].id != c.expressions[k].id
    {
      var x := c.expressions[i];
      if !ExpressionOk(x) || x.id in seen {
        return false;
      }
      seen := seen + {x.id};
    }
    return true;
  }

  predicate SourceOk(c: Content) {
    c.Source? && 1 <= |c.source| <= 65536
  }

  predicate StatementOk(s: Statement) {
    s.id != "" && |s.condition| <= 4096 && (s.isDefault || s.condition != "")
  }

  predicate SwitchOk(c: Content) {
    && c.Switch? && Policy(c.policy) && 1 <= |c.statements| <= 32
    && (forall i :: 0 <= i < |c.statements| ==> StatementOk(c.statements[i]))
    && (forall i, j :: 0 <= i < j < |c.statements| ==> c.statements[i].id != c.statements[j].id)
    && (forall i, j :: 0 <= i < j < |c.statements| ==> !c.statements[i].isDefault || !c.statements[j].isDefault)
  }

  /** The branches that a switch declares. */
  function BranchesOf(n: Node): set<string> {
    if n.kind == SWITCH && n.content.Switch? then
      set i | 0 <= i < |n.content.statements| :: n.content.statements[i].id
    else {}
  }

  method ValidateSwitch(c: Content) returns (ok: bool, branches: set<string>)
    ensures ok <==> SwitchOk(c)
    ensures ok ==> branches == set i | 0 <= i < |c.statements| :: c.statements[i].id
  {
    ok, branches := false, {};
    if !c.Switch? || !Policy(c.policy) || |c.statements| == 0 || |c.statements| > 32 {
      return;
    }
    var defaultSeen := false;
    for i := 0 to |c.statements|
      invariant branches == set k | 0 <= k < i :: c.statements[k].id
      invariant defaultSeen <==> exists k :: 0 <= k < i && c.statements[k].isDefault
      invariant forall k :: 0 <= k < i ==> StatementOk(c.statements[k])
      invariant forall j, k :: 0 <= j < k < i ==> c.statements[j].id != c.statements[k].id
      invariant forall j, k :: 0 <= j < k < i ==> !c.statements[j].isDefault || !c.statements[k].isDefault
    {
      var s := c.statements[i];
      if !StatementOk(s) || s.id in branches || (s.isDefault && defaultSeen) {
        return;
      }
      branches := branches + {s.id};
      defaultSeen := defaultSeen || s.isDefault;
    }
    ok := true;
  }

  predicate ContentOk(n: Node) {
    || n.kind == INPUT || n.kind == OUTPUT
    || (n.kind == TABLE && TableOk(n.content)) || (n.kind == EXPRESSION && ExpressionsOk(n.content))
    || (n.kind == FUNCTION && SourceOk(n.content)) || (n.kind == SWITCH && SwitchOk(n.content))
  }

  method ValidateContent(n: Node) returns (ok: bool, branches: set<string>)
    ensures ok <==> ContentOk(n)
    ensures ok ==> branches == BranchesOf(n)
  {
    hide TableOk, ExpressionsOk;
    branches := {};
    if n.kind == INPUT || n.kind == OUTPUT {
      ok := true;
    } else if n.kind == TABLE {
      ok := ValidateTable(n.content);
    } else if n.kind == EXPRESSION {
      ok := ValidateExpressions(n.content);
    } else if n.kind == FUNCTION {
      ok := SourceOk(n.content);
    } else if n.kind == SWITCH {
      ok, branches := ValidateSwitch(n.content);
    } else {
      ok := false;
    }
  }
}
