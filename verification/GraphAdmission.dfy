/** What may be added to the parts of a decision graph without breaking its shape. */
module GraphAdmission {
  import opened GraphNodes
  import opened GraphShape

  /** A statement may follow exactly up to 31 others, none of its id, with a condition unless it is the one default. */
  lemma {:induction false} StatementAdded(policy: string, statements: seq<Statement>, s: Statement)
    requires statements != []
    ensures SwitchOk(Switch(policy, statements + [s])) <==>
      && SwitchOk(Switch(policy, statements)) && |statements| < 32
      && s.id != "" && |s.condition| <= 4096 && (s.condition != "" || s.isDefault)
      && (forall i :: 0 <= i < |statements| ==> statements[i].id != s.id)
      && (s.isDefault ==> forall i :: 0 <= i < |statements| ==> !statements[i].isDefault)
  {
    var more := statements + [s];
    assert forall i :: 0 <= i < |statements| ==> more[i] == statements[i];
    assert more[|statements|] == s;
  }

  /** An expression may follow exactly up to 199 others, none of its id. */
  lemma {:induction false} ExpressionAdded(expressions: seq<Expression>, x: Expression)
    requires expressions != []
    ensures ExpressionsOk(Expressions(expressions + [x])) <==>
      && ExpressionsOk(Expressions(expressions)) && |expressions| < 200
      && x.id != "" && 1 <= |x.key| <= 256 && 1 <= |x.value| <= 4096
      && forall i :: 0 <= i < |expressions| ==> expressions[i].id != x.id
  {
    var more := expressions + [x];
    assert forall i :: 0 <= i < |expressions| ==> more[i] == expressions[i];
    assert more[|expressions|] == x;
  }

  /** The smallest contents of the kinds of nodes that have one. */
  lemma {:induction false} SmallestContents(policy: string, s: Statement, x: Expression, source: string)
    ensures SwitchOk(Switch(policy, [s])) <==>
      && policy in {"first", "collect"} && s.id != "" && |s.condition| <= 4096 && (s.condition != "" || s.isDefault)
    ensures ExpressionsOk(Expressions([x])) <==> x.id != "" && 1 <= |x.key| <= 256 && 1 <= |x.value| <= 4096
    ensures SourceOk(Source(source)) <==> 1 <= |source| <= 65536
    ensures !SwitchOk(Switch(policy, [])) && !ExpressionsOk(Expressions([]))
  {
    assert Switch(policy, [s]).statements[0] == s && Expressions([x]).expressions[0] == x;
  }

  /** The cells of a rule name a column, or the rule's own id or description. */
  predicate CellsNamed(rule: map<string, string>, inputs: seq<GraphNodes.Column>, outputs: seq<GraphNodes.Column>) {
    forall key :: key in rule ==>
      && |rule[key]| <= 4096
      && (key in {"_id", "_description"} || (exists i :: 0 <= i < |inputs| && inputs[i].id == key)
          || exists i :: 0 <= i < |outputs| && outputs[i].id == key)
  }

  lemma {:induction false} ColumnIdsOfBoth(inputs: seq<GraphNodes.Column>, outputs: seq<GraphNodes.Column>, key: string)
    ensures key in ColumnIds(inputs + outputs) <==>
      (exists i :: 0 <= i < |inputs| && inputs[i].id == key) || exists i :: 0 <= i < |outputs| && outputs[i].id == key
  {
    var all := inputs + outputs;
    assert forall i :: 0 <= i < |inputs| ==> all[i] == inputs[i];
    assert forall i :: 0 <= i < |outputs| ==> all[|inputs| + i] == outputs[i];
  }

  lemma {:induction false} CellsNamedIff(rule: map<string, string>, inputs: seq<GraphNodes.Column>,
      outputs: seq<GraphNodes.Column>)
    ensures RuleOk(rule, ColumnIds(inputs + outputs)) <==> CellsNamed(rule, inputs, outputs)
  {
    hide ColumnIds;
    forall key | key in rule
      ensures key in ColumnIds(inputs + outputs) <==>
        (exists i :: 0 <= i < |inputs| && inputs[i].id == key) || exists i :: 0 <= i < |outputs| && outputs[i].id == key
    {
      ColumnIdsOfBoth(inputs, outputs, key);
    }
  }

  /** A rule may follow exactly up to 499 others, with cells under the table's columns only. */
  lemma {:induction false} RuleAdded(policy: string, inputs: seq<GraphNodes.Column>, outputs: seq<GraphNodes.Column>,
      rules: seq<map<string, string>>, rule: map<string, string>)
    requires rules != []
    ensures GraphNodes.TableOk(GraphNodes.Table(policy, inputs, outputs, rules + [rule])) <==>
      && GraphNodes.TableOk(GraphNodes.Table(policy, inputs, outputs, rules)) && |rules| < 500
      && CellsNamed(rule, inputs, outputs)
  {
    hide RuleOk, CellsNamed, ColumnOk, DistinctColumns, ColumnIds;
    CellsNamedIff(rule, inputs, outputs);
    var more := rules + [rule];
    assert forall i :: 0 <= i < |rules| ==> more[i] == rules[i];
    assert more[|rules|] == rule;
  }

  /** The smallest tables: one named output column, and one rule. */
  lemma {:induction false} SmallestTable(policy: string, output: GraphNodes.Column, rule: map<string, string>)
    ensures GraphNodes.TableOk(GraphNodes.Table(policy, [], [output], [rule])) <==>
      && policy in {"first", "collect"} && output.id !in {"", "_id"} && 1 <= |output.field| <= 4096
      && CellsNamed(rule, [], [output])
    ensures !GraphNodes.TableOk(GraphNodes.Table(policy, [], [], [rule]))
    ensures !GraphNodes.TableOk(GraphNodes.Table(policy, [], [output], []))
  {
    hide RuleOk, CellsNamed, ColumnIds;
    CellsNamedIff(rule, [], [output]);
    var t := GraphNodes.Table(policy, [], [output], [rule]);
    assert t.inputs + t.outputs == [output] && t.outputs[0] == output && t.rules[0] == rule;
    assert [] + [output] == [output];
  }

  /** The columns with `c` put in at `n`. */
  predicate PutIn(before: seq<GraphNodes.Column>, n: nat, c: GraphNodes.Column, after: seq<GraphNodes.Column>) {
    && n <= |before| && |after| == |before| + 1 && after[n] == c
    && (forall k :: 0 <= k < n ==> after[k] == before[k])
    && forall k :: n < k < |after| ==> after[k] == before[k - 1]
  }

  /** Where an old column stands now. */
  function Shift(i: nat, n: nat): nat {
    if i < n then i else i + 1
  }

  lemma {:induction false} Shifted(before: seq<GraphNodes.Column>, n: nat, c: GraphNodes.Column,
      after: seq<GraphNodes.Column>, i: nat)
    requires PutIn(before, n, c, after) && i < |before|
    ensures before[i] == after[Shift(i, n)] && after[n] == c
  {
  }

  lemma {:induction false} ApartAfter(before: seq<GraphNodes.Column>, n: nat, c: GraphNodes.Column,
      after: seq<GraphNodes.Column>, i: nat, j: nat)
    requires PutIn(before, n, c, after) && DistinctColumns(before) && i < j < |after|
    requires forall k :: 0 <= k < |before| ==> before[k].id != c.id
    ensures after[i].id != after[j].id
  {
    assert i != n ==> after[i] == before[if i < n then i else i - 1];
    assert j != n ==> after[j] == before[if j < n then j else j - 1];
  }

  lemma {:induction false} PutInDistinct(before: seq<GraphNodes.Column>, n: nat, c: GraphNodes.Column,
      after: seq<GraphNodes.Column>)
    requires PutIn(before, n, c, after)
    ensures DistinctColumns(after) <==>
      DistinctColumns(before) && forall i :: 0 <= i < |before| ==> before[i].id != c.id
  {
    if DistinctColumns(after) {
      hide PutIn;
      forall i | 0 <= i < |before|
        ensures before[i].id != c.id && forall j :: i < j < |before| ==> before[i].id != before[j].id
      {
        Shifted(before, n, c, after, i);
        forall j | i < j < |before|
          ensures before[i].id != before[j].id
        {
          Shifted(before, n, c, after, j);
        }
      }
    }
    if DistinctColumns(before) && forall i :: 0 <= i < |before| ==> before[i].id != c.id {
      hide PutIn;
      forall i, j | 0 <= i < j < |after|
        ensures after[i].id != after[j].id
      {
        ApartAfter(before, n, c, after, i, j);
      }
    }
  }

  lemma {:induction false} PutInNames(rule: map<string, string>, before: seq<GraphNodes.Column>, n: nat,
      c: GraphNodes.Column, after: seq<GraphNodes.Column>)
    requires PutIn(before, n, c, after) && RuleOk(rule, ColumnIds(before))
    ensures RuleOk(rule, ColumnIds(after))
  {
    forall key | key in ColumnIds(before)
      ensures key in ColumnIds(after)
    {
      var i :| 0 <= i < |before| && before[i].id == key;
      assert after[Shift(i, n)].id == key;
    }
  }

  lemma {:induction false} PutInFits(before: seq<GraphNodes.Column>, n: nat, c: GraphNodes.Column,
      after: seq<GraphNodes.Column>)
    requires PutIn(before, n, c, after) && forall i :: 0 <= i < |before| ==> ColumnOk(before[i])
    ensures (forall i :: 0 <= i < |after| ==> ColumnOk(after[i])) <==> ColumnOk(c)
  {
    hide ColumnOk;
    assert forall k :: n < k < |after| ==> ColumnOk(after[k]);
  }

  /** An input column may follow exactly up to 199 others, with an id of its own. */
  lemma {:induction false} InputAdded(policy: string, inputs: seq<GraphNodes.Column>, outputs: seq<GraphNodes.Column>,
      rules: seq<map<string, string>>, c: GraphNodes.Column)
    requires GraphNodes.TableOk(GraphNodes.Table(policy, inputs, outputs, rules))
    ensures GraphNodes.TableOk(GraphNodes.Table(policy, inputs + [c], outputs, rules)) <==>
      && |inputs| < 200 && c.id !in {"", "_id"} && |c.field| <= 4096
      && forall i :: 0 <= i < |inputs + outputs| ==> (inputs + outputs)[i].id != c.id
  {
    hide RuleOk, ColumnIds, DistinctColumns, ColumnOk;
    var before, after := inputs + outputs, inputs + [c] + outputs;
    PutInDistinct(before, |inputs|, c, after);
    PutInFits(before, |inputs|, c, after);
    FitsIff(c);
    forall i | 0 <= i < |rules|
      ensures RuleOk(rules[i], ColumnIds(after))
    {
      PutInNames(rules[i], before, |inputs|, c, after);
    }
  }

  lemma {:induction false} FitsIff(c: GraphNodes.Column)
    ensures ColumnOk(c) <==> c.id !in {"", "_id"} && |c.field| <= 4096
  {
  }

  /** A node may join exactly with an id of its own of at most 256 bytes and content that fits its kind. */
  lemma {:induction false} NodeAdded(nodes: seq<Node>, n: Node)
    ensures GraphShape.NodesOk(nodes + [n]) <==>
      GraphShape.NodesOk(nodes) && 1 <= |n.id| <= 256 && ContentOk(n)
      && forall i :: 0 <= i < |nodes| ==> nodes[i].id != n.id
  {
    hide ContentOk;
    var more := nodes + [n];
    assert forall i :: 0 <= i < |nodes| ==> more[i] == nodes[i];
    assert more[|nodes|] == n;
  }

  /**
   An edge may join exactly with an id of its own, between nodes that exist,
   not out of an output nor into an input, through a branch its source declares
   if it is a switch and through none otherwise, and if no edge joins the same
   nodes through the same branch, up to the text that names the connection.
   */
  lemma {:induction false} EdgeAdded(nodes: map<string, Node>, edges: seq<Edge>, e: Edge)
    ensures EdgesOk(nodes, edges + [e]) <==>
      && EdgesOk(nodes, edges)
      && e.id != "" && (forall i :: 0 <= i < |edges| ==> edges[i].id != e.id)
      && e.source in nodes && e.target in nodes
      && nodes[e.source].kind != "outputNode" && nodes[e.target].kind != "inputNode"
      && (nodes[e.source].kind == "switchNode" ==> e.handle in BranchesOf(nodes[e.source]))
      && (nodes[e.source].kind != "switchNode" ==> e.handle == "")
      && forall i :: 0 <= i < |edges| ==>
           edges[i].source + ['\0'] + edges[i].handle + ['\0'] + edges[i].target
           != e.source + ['\0'] + e.handle + ['\0'] + e.target
  {
    hide BranchesOf;
    var more := edges + [e];
    assert forall i :: 0 <= i < |edges| ==> more[i] == edges[i];
    assert more[|edges|] == e;
    assert forall i :: 0 <= i < |edges| ==>
      LinkText(edges[i]) == edges[i].source + ['\0'] + edges[i].handle + ['\0'] + edges[i].target;
  }

  /**
   A well-shaped graph has two to 32 nodes, one to 64 edges, one input and an
   output, and any size up to the limit.
   */
  lemma {:induction false} ShapedSizes(g: Graph, size: nat)
    requires Shaped(g)
    ensures 2 <= |g.nodes| <= 32 && 1 <= |g.edges| <= 64
    ensures |OfKind(g.nodes, "inputNode")| == 1 && OfKind(g.nodes, "outputNode") != []
    ensures Shaped(g.(size := size)) <==> size <= 262144
  {
    hide GraphShape.NodesOk, EdgesOk, BranchesUsed, OfKind;
  }
}
