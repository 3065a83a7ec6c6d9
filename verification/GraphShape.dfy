/**
 The shape of a decision graph: its sizes, its nodes, and connections that join
 existing nodes, in the right direction, through declared branches.
 */
module GraphShape {
  import opened GraphNodes

  datatype Edge = Edge(id: string, source: string, target: string, handle: string)

  /** A decoded graph; `size` is the length of its text in bytes. */
  datatype Graph = Graph(size: nat, nodes: seq<Node>, edges: seq<Edge>)

  const NUL := '\0'

  function LinkText(e: Edge): string {
    e.source + [NUL] + e.handle + [NUL] + e.target
  }

  function BranchText(node: string, handle: string): string {
    node + [NUL] + handle
  }

  // ----- nodes -----

  predicate NodeOk(n: Node) {
    1 <= |n.id| <= 256 && ContentOk(n)
  }

  predicate NodesOk(nodes: seq<Node>) {
    && (forall i :: 0 <= i < |nodes| ==> NodeOk(nodes[i]))
    && forall i, j :: 0 <= i < j < |nodes| ==> nodes[i].id != nodes[j].id
  }

  function Ids(nodes: seq<Node>): set<string> {
    set i | 0 <= i < |nodes| :: nodes[i].id
  }

  function ById(nodes: seq<Node>): map<string, Node> {
    if nodes == [] then map[] else ById(nodes[..|nodes| - 1])[nodes[|nodes| - 1].id := nodes[|nodes| - 1]]
  }

  /** The ids of the nodes of a kind, in order. */
  function OfKind(nodes: seq<Node>, kind: string): seq<string> {
    if nodes == [] then []
    else OfKind(nodes[..|nodes| - 1], kind) + (if nodes[|nodes| - 1].kind == kind then [nodes[|nodes| - 1].id] else [])
  }

  lemma {:induction false} ByIdFinds(nodes: seq<Node>)
    ensures ById(nodes).Keys == Ids(nodes)
    ensures forall id :: id in ById(nodes) ==> ById(nodes)[id] in nodes && ById(nodes)[id].id == id
  {
    if nodes != [] {
      var n := |nodes| - 1;
      ByIdFinds(nodes[..n]);
      assert nodes == nodes[..n] + [nodes[n]];
    }
  }

  lemma {:induction false} ByIdOf(nodes: seq<Node>, i: nat)
    requires i < |nodes| && NodesOk(nodes)
    ensures nodes[i].id in ById(nodes) && ById(nodes)[nodes[i].id] == nodes[i]
  {
    hide NodeOk;
    ByIdFinds(nodes);
    assert nodes[i].id in Ids(nodes);
  }

  lemma {:induction false} OfKindFinds(nodes: seq<Node>, kind: string)
    ensures forall id :: id in OfKind(nodes, kind) <==>
      exists i :: 0 <= i < |nodes| && nodes[i].id == id && nodes[i].kind == kind
  {
    if nodes != [] {
      var n := |nodes| - 1;
      OfKindFinds(nodes[..n], kind);
      forall id
        ensures id in OfKind(nodes, kind) <==>
          exists i :: 0 <= i < |nodes| && nodes[i].id == id && nodes[i].kind == kind
      {
        if j :| 0 <= j < n && nodes[j].id == id && nodes[j].kind == kind {
          assert nodes[..n][j] == nodes[j];
        }
      }
    }
  }

  /** The branches that the map holds are those of the switches among the nodes. */
  ghost predicate HoldsBranches(branches: map<string, set<string>>, nodes: seq<Node>) {
    && branches.Keys == (set i | 0 <= i < |nodes| && nodes[i].kind == SWITCH :: nodes[i].id)
    && forall i :: 0 <= i < |nodes| && nodes[i].kind == SWITCH ==> branches[nodes[i].id] == BranchesOf(nodes[i])
  }

  ghost predicate HoldsOutputs(outputs: set<string>, nodes: seq<Node>) {
    forall id :: id in outputs <==> id in OfKind(nodes, OUTPUT)
  }

  lemma {:induction false} NodesOkNext(nodes: seq<Node>, n: Node)
    requires NodesOk(nodes)
    ensures NodesOk(nodes + [n]) <==> NodeOk(n) && n.id !in Ids(nodes)
    ensures ById(nodes + [n]) == ById(nodes)[n.id := n]
  {
    hide NodeOk;
    var more := nodes + [n];
    assert more[..|nodes|] == nodes && more[|nodes|] == n;
    if NodesOk(more) {
      assert forall i :: 0 <= i < |nodes| ==> nodes[i].id == more[i].id != more[|nodes|].id;
    }
  }

  lemma {:induction false} OfKindNext(nodes: seq<Node>, n: Node, kind: string)
    ensures OfKind(nodes + [n], kind) == OfKind(nodes, kind) + (if n.kind == kind then [n.id] else [])
  {
    assert (nodes + [n])[..|nodes|] == nodes;
  }

  lemma {:induction false} OutputsNext(outputs: set<string>, nodes: seq<Node>, n: Node)
    requires HoldsOutputs(outputs, nodes)
    ensures HoldsOutputs(if n.kind == OUTPUT then outputs + {n.id} else outputs, nodes + [n])
  {
    hide OfKind;
    OfKindNext(nodes, n, OUTPUT);
  }

  lemma {:induction false} BranchesNext(branches: map<string, set<string>>, nodes: seq<Node>, n: Node)
    requires HoldsBranches(branches, nodes) && n.id !in Ids(nodes)
    ensures HoldsBranches(if n.kind == SWITCH then branches[n.id := BranchesOf(n)] else branches, nodes + [n])
  {
    hide BranchesOf;
    var more := nodes + [n];
    assert forall i :: 0 <= i < |nodes| ==> more[i] == nodes[i] && nodes[i].id in Ids(nodes);
    assert more[|nodes|] == n;
  }

  lemma {:induction false} NotOkStays(nodes: seq<Node>, i: nat)
    requires i <= |nodes| && !NodesOk(nodes[..i])
    ensures !NodesOk(nodes)
  {
    hide NodeOk;
    var front := nodes[..i];
    assert forall k :: 0 <= k < i ==> front[k] == nodes[k];
  }

  lemma {:induction false} NoNodesYet()
    ensures NodesOk([]) && ById([]) == map[] && OfKind([], INPUT) == [] && HoldsOutputs({}, [])
      && HoldsBranches(map[], [])
  {
  }

  method CheckNodes(nodes: seq<Node>)
    returns (ok: bool, byId: map<string, Node>, branches: map<string, set<string>>, inputs: seq<string>,
             outputs: set<string>)
    ensures ok <==> NodesOk(nodes)
    ensures ok ==> byId == ById(nodes) && inputs == OfKind(nodes, INPUT)
    ensures ok ==> HoldsOutputs(outputs, nodes) && HoldsBranches(branches, nodes)
  {
    hide ContentOk, BranchesOf, NodesOk, ById, OfKind, HoldsOutputs, HoldsBranches;
    ok, byId, branches, inputs, outputs := false, map[], map[], [], {};
    NoNodesYet();
    assert nodes[..0] == [];
    for i := 0 to |nodes|
      invariant NodesOk(nodes[..i])
      invariant byId == ById(nodes[..i]) && inputs == OfKind(nodes[..i], INPUT)
      invariant HoldsOutputs(outputs, nodes[..i]) && HoldsBranches(branches, nodes[..i])
    {
      var n := nodes[i];
      ghost var front := nodes[..i];
      assert nodes[..i + 1] == front + [n];
      ByIdFinds(front);
      NodesOkNext(front, n);
      OfKindNext(front, n, INPUT);
      OutputsNext(outputs, front, n);
      if |n.id| == 0 || |n.id| > 256 || n.id in byId {
        NotOkStays(nodes, i + 1);
        return;
      }
      BranchesNext(branches, front, n);
      byId := byId[n.id := n];
      var fine, declared := ValidateContent(n);
      if !fine {
        NotOkStays(nodes, i + 1);
        return;
      }
      if n.kind == INPUT {
        inputs := inputs + [n.id];
      } else if n.kind == OUTPUT {
        outputs := outputs + {n.id};
      } else if n.kind == SWITCH {
        branches := branches[n.id := declared];
      }
    }
    assert nodes[..|nodes|] == nodes;
    ok := true;
  }

  // ----- edges -----

  /** The targets of the edges that leave a node, in order. */
  function Succ(edges: seq<Edge>, id: string): seq<string> {
    if edges == [] then []
    else Succ(edges[..|edges| - 1], id) + (if edges[|edges| - 1].source == id then [edges[|edges| - 1].target] else [])
  }

  function Pred(edges: seq<Edge>, id: string): seq<string> {
    if edges == [] then []
    else Pred(edges[..|edges| - 1], id) + (if edges[|edges| - 1].target == id then [edges[|edges| - 1].source] else [])
  }

  predicate Linked(edges: seq<Edge>, a: string, b: string) {
    exists i :: 0 <= i < |edges| && edges[i].source == a && edges[i].target == b
  }

  lemma {:induction false} SuccLinked(edges: seq<Edge>, a: string, b: string)
    ensures b in Succ(edges, a) <==> Linked(edges, a, b)
    ensures a in Pred(edges, b) <==> Linked(edges, a, b)
  {
    if edges != [] {
      var n := |edges| - 1;
      SuccLinked(edges[..n], a, b);
      if i :| 0 <= i < n && edges[i].source == a && edges[i].target == b {
        assert edges[..n][i] == edges[i];
      }
    }
  }

  predicate EdgeOk(nodes: map<string, Node>, e: Edge) {
    && e.id != "" && e.source in nodes && e.target in nodes
    && nodes[e.source].kind != OUTPUT && nodes[e.target].kind != INPUT
    && (if nodes[e.source].kind == SWITCH then e.handle in BranchesOf(nodes[e.source]) else e.handle == "")
  }

  predicate EdgesOk(nodes: map<string, Node>, edges: seq<Edge>) {
    && (forall i :: 0 <= i < |edges| ==> EdgeOk(nodes, edges[i]))
    && (forall i, j :: 0 <= i < j < |edges| ==> edges[i].id != edges[j].id)
    && forall i, j :: 0 <= i < j < |edges| ==> LinkText(edges[i]) != LinkText(edges[j])
  }

  function Used(nodes: map<string, Node>, edges: seq<Edge>): set<string> {
    set i | 0 <= i < |edges| && edges[i].source in nodes && nodes[edges[i].source].kind == SWITCH ::
      BranchText(edges[i].source, edges[i].handle)
  }

  datatype Problem = Oversized | Counts | BadNode | Endpoints | BadEdge | UnusedBranch | Cycle | Unconnected

  function Adjacent(m: map<string, seq<string>>, id: string): seq<string> {
    if id in m then m[id] else []
  }

  method CheckEdge(nodes: map<string, Node>, branches: map<string, set<string>>, e: Edge) returns (ok: bool,
      branch: set<string>)
    requires branches.Keys == set id | id in nodes && nodes[id].kind == SWITCH
    requires forall id :: id in branches ==> branches[id] == BranchesOf(nodes[id])
    ensures ok <==> EdgeOk(nodes, e)
    ensures ok ==> branch == if nodes[e.source].kind == SWITCH then {BranchText(e.source, e.handle)} else {}
  {
    hide BranchesOf;
    ok, branch := false, {};
    if e.id == "" || e.source !in nodes || e.target !in nodes {
      return;
    }
    if nodes[e.source].kind == OUTPUT || nodes[e.target].kind == INPUT {
      return;
    }
    if nodes[e.source].kind == SWITCH {
      if e.handle !in branches[e.source] {
        return;
      }
      branch := {BranchText(e.source, e.handle)};
    } else if e.handle != "" {
      return;
    }
    ok := true;
  }

  /** The adjacency of the first edges, as the two maps hold it. */
  ghost predicate Adjoins(forward: map<string, seq<string>>, backward: map<string, seq<string>>, edges: seq<Edge>) {
    forall id :: Adjacent(forward, id) == Succ(edges, id) && Adjacent(backward, id) == Pred(edges, id)
  }

  lemma {:induction false} AdjoinsNext(forward: map<string, seq<string>>, backward: map<string, seq<string>>,
      edges: seq<Edge>, i: nat)
    requires i < |edges| && Adjoins(forward, backward, edges[..i])
    ensures Adjoins(forward[edges[i].source := Adjacent(forward, edges[i].source) + [edges[i].target]],
                    backward[edges[i].target := Adjacent(backward, edges[i].target) + [edges[i].source]],
                    edges[..i + 1])
  {
    var e := edges[i];
    var more := edges[..i + 1];
    assert more[..i] == edges[..i];
    assert Adjacent(forward, e.source) == Succ(edges[..i], e.source);
    assert Adjacent(backward, e.target) == Pred(edges[..i], e.target);
    forall id
      ensures Adjacent(forward[e.source := Adjacent(forward, e.source) + [e.target]], id) == Succ(more, id)
      ensures Adjacent(backward[e.target := Adjacent(backward, e.target) + [e.source]], id) == Pred(more, id)
    {
      assert Adjacent(forward, id) == Succ(edges[..i], id) && Adjacent(backward, id) == Pred(edges[..i], id);
      assert more[|more| - 1] == e && more[..|more| - 1] == edges[..i];
    }
  }

  lemma {:induction false} EdgesOkNext(nodes: map<string, Node>, edges: seq<Edge>, i: nat)
    requires i < |edges| && EdgesOk(nodes, edges[..i])
    ensures EdgesOk(nodes, edges[..i + 1]) <==>
      && EdgeOk(nodes, edges[i])
      && edges[i].id !in (set k | 0 <= k < i :: edges[k].id)
      && LinkText(edges[i]) !in (set k | 0 <= k < i :: LinkText(edges[k]))
  {
    hide EdgeOk, LinkText;
    var front, more := edges[..i], edges[..i + 1];
    assert forall k :: 0 <= k < i ==> front[k] == more[k] == edges[k];
    assert more[i] == edges[i];
    if EdgesOk(nodes, more) {
      forall k | 0 <= k < i
        ensures edges[k].id != edges[i].id && LinkText(edges[k]) != LinkText(edges[i])
      {
        assert more[k].id != more[i].id && LinkText(more[k]) != LinkText(more[i]);
      }
    }
  }

  lemma {:induction false} EdgesNotOkStays(nodes: map<string, Node>, edges: seq<Edge>, i: nat)
    requires i <= |edges| && !EdgesOk(nodes, edges[..i])
    ensures !EdgesOk(nodes, edges)
  {
    hide EdgeOk, LinkText;
    var front := edges[..i];
    assert forall k :: 0 <= k < i ==> front[k] == edges[k];
  }

  method CheckEdges(nodes: map<string, Node>, branches: map<string, set<string>>, edges: seq<Edge>)
    returns (ok: bool, forward: map<string, seq<string>>, backward: map<string, seq<string>>, used: set<string>)
    requires branches.Keys == set id | id in nodes && nodes[id].kind == SWITCH
    requires forall id :: id in branches ==> branches[id] == BranchesOf(nodes[id])
    ensures ok <==> EdgesOk(nodes, edges)
    ensures ok ==> used == Used(nodes, edges) && Adjoins(forward, backward, edges)
  {
    hide BranchesOf, LinkText, BranchText, Used, Adjoins, EdgeOk, EdgesOk;
    ok, forward, backward, used := false, map[], map[], {};
    NothingYet(nodes);
    assert edges[..0] == [];
    var ids, links := {}, {};
    for i := 0 to |edges|
      invariant ids == set k | 0 <= k < i :: edges[k].id
      invariant links == set k | 0 <= k < i :: LinkText(edges[k])
      invariant used == Used(nodes, edges[..i]) && Adjoins(forward, backward, edges[..i])
      invariant EdgesOk(nodes, edges[..i])
    {
      var e := edges[i];
      var fine, branch := CheckEdge(nodes, branches, e);
      EdgesOkNext(nodes, edges, i);
      if !fine || e.id in ids || LinkText(e) in links {
        EdgesNotOkStays(nodes, edges, i + 1);
        return;
      }
      ids := ids + {e.id};
      links := links + {LinkText(e)};
      used := used + branch;
      UsedNext(nodes, edges, i);
      AdjoinsNext(forward, backward, edges, i);
      EdgeKnown(nodes, e);
      forward := forward[e.source := Adjacent(forward, e.source) + [e.target]];
      backward := backward[e.target := Adjacent(backward, e.target) + [e.source]];
    }
    assert edges[..|edges|] == edges;
    ok := true;
  }

  lemma {:induction false} EdgeKnown(nodes: map<string, Node>, e: Edge)
    requires EdgeOk(nodes, e)
    ensures e.source in nodes && e.target in nodes
  {
  }

  lemma {:induction false} NothingYet(nodes: map<string, Node>)
    ensures Used(nodes, []) == {} && Adjoins(map[], map[], []) && EdgesOk(nodes, [])
  {
  }

  lemma {:induction false} UsedNext(nodes: map<string, Node>, edges: seq<Edge>, i: nat)
    requires i < |edges|
    ensures Used(nodes, edges[..i + 1]) == Used(nodes, edges[..i])
      + if edges[i].source in nodes && nodes[edges[i].source].kind == SWITCH
        then {BranchText(edges[i].source, edges[i].handle)} else {}
  {
    hide BranchText;
    var a, b := edges[..i], edges[..i + 1];
    assert forall k :: 0 <= k < i ==> a[k] == b[k] == edges[k];
    assert b[i] == edges[i];
  }

  /** The text of every declared branch was recorded for some edge of a switch. */
  predicate BranchesUsed(nodes: seq<Node>, edges: seq<Edge>) {
    forall i, h :: 0 <= i < |nodes| && h in BranchesOf(nodes[i]) ==>
      BranchText(nodes[i].id, h) in Used(ById(nodes), edges)
  }

  method CheckBranches(nodes: seq<Node>, edges: seq<Edge>, branches: map<string, set<string>>,
      used: set<string>) returns (ok: bool)
    requires NodesOk(nodes) && used == Used(ById(nodes), edges)
    requires branches.Keys == set i | 0 <= i < |nodes| && nodes[i].kind == SWITCH :: nodes[i].id
    requires forall i :: 0 <= i < |nodes| && nodes[i].kind == SWITCH ==> branches[nodes[i].id] == BranchesOf(nodes[i])
    ensures ok <==> BranchesUsed(nodes, edges)
  {
    hide Used, BranchText, NodeOk;
    var left := branches.Keys;
    while left != {}
      invariant left <= branches.Keys
      invariant forall id, h :: id in branches && id !in left && h in branches[id] ==> BranchText(id, h) in used
    {
      var node :| node in left;
      var handles := branches[node];
      while handles != {}
        invariant handles <= branches[node]
        invariant forall h :: h in branches[node] && h !in handles ==> BranchText(node, h) in used
      {
        var handle :| handle in handles;
        if BranchText(node, handle) !in used {
          var i :| 0 <= i < |nodes| && nodes[i].kind == SWITCH && nodes[i].id == node;
          return false;
        }
        handles := handles - {handle};
      }
      left := left - {node};
    }
    return true;
  }

  /** Everything that is checked before the paths are. */
  predicate Shaped(g: Graph) {
    && g.size <= 262144
    && 2 <= |g.nodes| <= 32 && 1 <= |g.edges| <= 64
    && NodesOk(g.nodes)
    && |OfKind(g.nodes, INPUT)| == 1 && OfKind(g.nodes, OUTPUT) != []
    && EdgesOk(ById(g.nodes), g.edges)
    && BranchesUsed(g.nodes, g.edges)
  }
}
