/** `ValidateModel`: which decision graphs are complete, executable and free of cycles. */
module DecisionGraph {
  import opened Common
  import opened GraphNodes
  import opened GraphShape
  import opened GraphSearch

  function OutputIds(nodes: seq<Node>): set<string> {
    set i | 0 <= i < |nodes| && nodes[i].kind == OUTPUT :: nodes[i].id
  }

  function InputOf(g: Graph): string
    requires Shaped(g)
  {
    OfKind(g.nodes, INPUT)[0]
  }

  /** The node lies on a path from the input to an output. */
  ghost predicate OnRoute(g: Graph, id: string)
    requires Shaped(g)
  {
    Reaches(g.edges, InputOf(g), id) && ReachesAny(g.edges, id, OutputIds(g.nodes))
  }

  ghost predicate Connected(g: Graph)
    requires Shaped(g)
  {
    forall id :: id in Ids(g.nodes) ==> OnRoute(g, id)
  }

  ghost predicate LoopReached(edges: seq<Edge>, root: string) {
    exists p :: Loop(edges, p) && Reaches(edges, root, p[0])
  }

  /** What the validator accepts: a well-shaped acyclic graph whose nodes all lie on input-to-output paths. */
  ghost predicate Accepts(g: Graph) {
    Shaped(g) && Acyclic(g.edges) && Connected(g)
  }

  method CheckShape(g: Graph)
    returns (problem: Option<Problem>, byId: map<string, Node>, inputs: seq<string>, outputs: set<string>,
             forward: map<string, seq<string>>, backward: map<string, seq<string>>)
    ensures problem == None <==> Shaped(g)
    ensures problem != Some(Cycle) && problem != Some(Unconnected)
    ensures problem == None ==>
      byId == ById(g.nodes) && inputs == OfKind(g.nodes, INPUT) && outputs == OutputIds(g.nodes)
        && Adjoins(forward, backward, g.edges)
  {
    hide EdgesOk, BranchesUsed, NodeOk, BranchesOf, Used, Adjoins;
    byId, inputs, outputs, forward, backward := map[], [], {}, map[], map[];
    if g.size > 262144 {
      return Some(Oversized), byId, inputs, outputs, forward, backward;
    }
    if |g.nodes| < 2 || |g.nodes| > 32 || |g.edges| == 0 || |g.edges| > 64 {
      return Some(Counts), byId, inputs, outputs, forward, backward;
    }
    var fine, branches;
    fine, byId, branches, inputs, outputs := CheckNodes(g.nodes);
    if !fine {
      return Some(BadNode), byId, inputs, outputs, forward, backward;
    }
    OutputsFound(g.nodes, outputs);
    if |inputs| != 1 || |outputs| == 0 {
      return Some(Endpoints), byId, inputs, outputs, forward, backward;
    }
    SwitchesFound(g.nodes, branches);
    var used;
    fine, forward, backward, used := CheckEdges(byId, branches, g.edges);
    if !fine {
      return Some(BadEdge), byId, inputs, outputs, forward, backward;
    }
    fine := CheckBranches(g.nodes, g.edges, branches, used);
    problem := if fine then None else Some(UnusedBranch);
  }

  lemma {:induction false} OutputsFound(nodes: seq<Node>, outputs: set<string>)
    requires forall id :: id in outputs <==> id in OfKind(nodes, OUTPUT)
    ensures outputs == OutputIds(nodes)
    ensures outputs == {} <==> OfKind(nodes, OUTPUT) == []
  {
    OfKindFinds(nodes, OUTPUT);
    if OfKind(nodes, OUTPUT) != [] {
      assert OfKind(nodes, OUTPUT)[0] in outputs;
    }
  }

  lemma {:induction false} SwitchesFound(nodes: seq<Node>, branches: map<string, set<string>>)
    requires NodesOk(nodes)
    requires branches.Keys == set i | 0 <= i < |nodes| && nodes[i].kind == SWITCH :: nodes[i].id
    requires forall i :: 0 <= i < |nodes| && nodes[i].kind == SWITCH ==> branches[nodes[i].id] == BranchesOf(nodes[i])
    ensures var byId := ById(nodes);
      branches.Keys == (set id | id in byId && byId[id].kind == SWITCH)
      && forall id :: id in branches ==> branches[id] == BranchesOf(byId[id])
  {
    hide NodeOk, BranchesOf;
    var byId := ById(nodes);
    ByIdFinds(nodes);
    forall i | 0 <= i < |nodes|
      ensures nodes[i].id in byId && byId[nodes[i].id] == nodes[i]
    {
      ByIdOf(nodes, i);
    }
    forall id | id in byId && byId[id].kind == SWITCH
      ensures id in branches && branches[id] == BranchesOf(byId[id])
    {
      var i :| 0 <= i < |nodes| && nodes[i] == byId[id];
      assert nodes[i].id == id;
    }
  }

  lemma {:induction false} EndsKnown(g: Graph)
    requires Shaped(g)
    ensures forall i :: 0 <= i < |g.edges| ==> g.edges[i].source in Ids(g.nodes) && g.edges[i].target in Ids(g.nodes)
    ensures OutputIds(g.nodes) <= Ids(g.nodes) && InputOf(g) in Ids(g.nodes)
  {
    hide NodesOk, BranchesUsed, BranchesOf;
    ByIdFinds(g.nodes);
    OfKindFinds(g.nodes, INPUT);
    assert InputOf(g) in OfKind(g.nodes, INPUT);
  }

  /**
   Accepts exactly the well-shaped graphs that are acyclic and whose nodes all
   lie on paths from the one input to an output; and reports a cycle exactly
   when a well-shaped graph has one that the input reaches.
   */
  method ValidateModel(g: Graph) returns (problem: Option<Problem>)
    ensures problem == None <==> Accepts(g)
    ensures problem == Some(Cycle) <==> Shaped(g) && LoopReached(g.edges, InputOf(g))
  {
    hide Shaped, Loop, Reaches, ReachesAny, Adjoins, Exploring;
    var byId, inputs, outputs, forward, backward;
    problem, byId, inputs, outputs, forward, backward := CheckShape(g);
    if problem != None {
      return;
    }
    ShapedHasInput(g);
    EndsKnown(g);
    ByIdFinds(g.nodes);
    var search := new Search(g.edges, byId.Keys, forward, backward);
    ReachesItself(g.edges, inputs[0]);
    NothingExplored(g.edges, byId.Keys, inputs[0]);
    var ok := search.Visit(inputs[0], [], inputs[0]);
    if !ok {
      return Some(Cycle);
    }
    Explored(g.edges, byId.Keys, search.colors, search.order, inputs[0]);
    search.MarkAll(outputs);
    if forall id :: id in byId ==> ColorOf(search.colors, id) == 2 && id in search.reachesOutput {
      AllExplored(g.edges, byId.Keys, search.colors, search.order, inputs[0]);
      return None;
    }
    return Some(Unconnected);
  }

  lemma {:induction false} ShapedHasInput(g: Graph)
    requires Shaped(g)
    ensures OfKind(g.nodes, INPUT) == [InputOf(g)]
  {
    hide NodesOk, EdgesOk, BranchesUsed;
  }

  lemma {:induction false} NothingExplored(edges: seq<Edge>, ids: set<string>, root: string)
    ensures Exploring(edges, ids, map[], [], root, [])
  {
  }

  /** After a successful search the black nodes are those the root reaches, and it reaches no loop. */
  lemma {:induction false} Explored(edges: seq<Edge>, ids: set<string>, colors: map<string, int>, order: seq<string>,
      root: string)
    requires Exploring(edges, ids, colors, order, root, []) && root in order
    ensures forall id :: ColorOf(colors, id) == 2 <==> Reaches(edges, root, id)
    ensures !LoopReached(edges, root)
  {
    hide Loop;
    forall id | Reaches(edges, root, id)
      ensures id in order
    {
      var p :| WalkFrom(edges, p, root, id);
      var i :| 0 <= i < |order| && order[i] == root;
      var j := WalksGoDown(edges, order, p, i, |p| - 1);
    }
    forall p | Walk(edges, p) && Reaches(edges, root, p[0])
      ensures !Loop(edges, p)
    {
      FinishedIsAcyclic(edges, order, p);
    }
    forall p | Loop(edges, p)
      ensures Walk(edges, p)
    {
      LoopIsWalk(edges, p);
    }
  }

  lemma {:induction false} LoopIsWalk(edges: seq<Edge>, p: seq<string>)
    requires Loop(edges, p)
    ensures Walk(edges, p) && Linked(edges, p[0], p[1])
  {
    assert LinkedAt(edges, p, 0);
  }

  lemma {:induction false} AllExplored(edges: seq<Edge>, ids: set<string>, colors: map<string, int>,
      order: seq<string>, root: string)
    requires Exploring(edges, ids, colors, order, root, []) && root in order
    requires forall id :: id in ids ==> ColorOf(colors, id) == 2
    requires forall i :: 0 <= i < |edges| ==> edges[i].source in ids && edges[i].target in ids
    ensures Acyclic(edges)
  {
    forall p | Loop(edges, p)
      ensures false
    {
      LoopIsWalk(edges, p);
      FinishedIsAcyclic(edges, order, p);
    }
  }

  // ----- what acceptance guarantees -----

  predicate NoNul(s: string) {
    NUL !in s
  }

  /** No identifier of a node or a branch contains a NUL byte. */
  predicate NulFree(nodes: seq<Node>) {
    forall i :: 0 <= i < |nodes| ==> NoNul(nodes[i].id) && forall h :: h in BranchesOf(nodes[i]) ==> NoNul(h)
  }

  lemma {:induction false} BranchTextInjective(a: string, h: string, b: string, k: string)
    requires NoNul(a) && NoNul(b)
    ensures BranchText(a, h) == BranchText(b, k) <==> a == b && h == k
  {
    if BranchText(a, h) == BranchText(b, k) {
      var s := BranchText(a, h);
      assert s[|a|] == NUL && s[|b|] == NUL;
      assert forall i :: 0 <= i < |a| ==> s[i] == a[i];
      assert forall i :: 0 <= i < |b| ==> s[i] == b[i];
      assert |a| == |b|;
      assert a == s[..|a|] && b == s[..|b|] && h == s[|a| + 1..] && k == s[|b| + 1..];
    }
  }

  lemma {:induction false} WalkStaysIn(g: Graph, p: seq<string>)
    requires Shaped(g) && Walk(g.edges, p) && p[0] in Ids(g.nodes)
    ensures forall i :: 0 <= i < |p| ==> p[i] in Ids(g.nodes)
  {
    hide Shaped, Linked;
    EndsKnown(g);
    forall i | 0 <= i < |p|
      ensures p[i] in Ids(g.nodes)
    {
      if i > 0 {
        assert LinkedAt(g.edges, p, i - 1);
        TargetKnown(g.edges, Ids(g.nodes), p[i - 1], p[i]);
      }
    }
  }

  lemma {:induction false} AcyclicWalksDoNotRepeat(edges: seq<Edge>, p: seq<string>, i: nat, j: nat)
    requires Acyclic(edges) && Walk(edges, p) && i < j < |p|
    ensures p[i] != p[j]
  {
    if p[i] == p[j] {
      WalkPart(edges, p, i, j + 1);
      assert Loop(edges, p[i..j + 1]);
    }
  }

  lemma {:induction false} DistinctFit(p: seq<string>, s: set<string>)
    requires forall i :: 0 <= i < |p| ==> p[i] in s
    requires forall i, j :: 0 <= i < j < |p| ==> p[i] != p[j]
    ensures |p| <= |s|
  {
    if p != [] {
      var n := |p| - 1;
      DistinctFit(p[..n], s - {p[n]});
      assert |s - {p[n]}| == |s| - 1;
    }
  }

  lemma {:induction false} IdsCount(nodes: seq<Node>)
    ensures |Ids(nodes)| <= |nodes|
  {
    if nodes != [] {
      var n := |nodes| - 1;
      IdsCount(nodes[..n]);
      assert Ids(nodes) == Ids(nodes[..n]) + {nodes[n].id};
    }
  }

  /** In an accepted graph no walk takes more than one edge less than there are nodes. */
  lemma {:induction false} WalksAreShort(g: Graph, p: seq<string>)
    requires Accepts(g) && Walk(g.edges, p) && p[0] in Ids(g.nodes)
    ensures |p| - 1 <= |g.nodes| - 1
  {
    hide Shaped, Connected, Acyclic, Walk, Ids;
    WalkStaysIn(g, p);
    forall i, j | 0 <= i < j < |p|
      ensures p[i] != p[j]
    {
      AcyclicWalksDoNotRepeat(g.edges, p, i, j);
    }
    DistinctFit(p, Ids(g.nodes));
    IdsCount(g.nodes);
  }

  predicate NoWayOn(edges: seq<Edge>, id: string) {
    forall i :: 0 <= i < |edges| ==> edges[i].source != id
  }

  /** The nodes of an accepted graph with no way on are its outputs. */
  lemma {:induction false} OnlyOutputsEnd(g: Graph, id: string)
    requires Accepts(g) && id in Ids(g.nodes)
    ensures id in OutputIds(g.nodes) <==> NoWayOn(g.edges, id)
  {
    hide Acyclic, NodesOk, BranchesUsed, Walk;
    if NoWayOn(g.edges, id) {
      assert OnRoute(g, id);
      var out :| out in OutputIds(g.nodes) && Reaches(g.edges, id, out);
      var p :| WalkFrom(g.edges, p, id, out);
      WalkNonEmpty(g.edges, p);
      if |p| > 1 {
        FirstLink(g.edges, p);
      }
    }
    if id in OutputIds(g.nodes) {
      OutputsHaveNoEdge(g, id);
    }
  }

  lemma {:induction false} FirstLink(edges: seq<Edge>, p: seq<string>)
    requires Walk(edges, p) && |p| > 1
    ensures Linked(edges, p[0], p[1])
  {
    assert LinkedAt(edges, p, 0);
  }

  lemma {:induction false} OutputsHaveNoEdge(g: Graph, id: string)
    requires Shaped(g) && id in OutputIds(g.nodes)
    ensures NoWayOn(g.edges, id)
  {
    hide NodeOk, BranchesUsed, BranchesOf;
    var i :| 0 <= i < |g.nodes| && g.nodes[i].id == id && g.nodes[i].kind == OUTPUT;
    ByIdOf(g.nodes, i);
  }

  /**
   In an accepted graph every walk that goes as far as it can ends at an
   output, after at most one edge less than there are nodes.
   */
  lemma {:induction false} MaximalWalksEndAtOutputs(g: Graph, p: seq<string>)
    requires Accepts(g) && Walk(g.edges, p) && p[0] in Ids(g.nodes)
    requires NoWayOn(g.edges, p[|p| - 1])
    ensures p[|p| - 1] in OutputIds(g.nodes) && |p| - 1 <= |g.nodes| - 1
  {
    hide Accepts, Walk, Linked, Ids;
    ShapedIfAccepted(g);
    WalksAreShort(g, p);
    WalkStaysIn(g, p);
    WalkNonEmpty(g.edges, p);
    OnlyOutputsEnd(g, p[|p| - 1]);
  }

  lemma {:induction false} WalkNonEmpty(edges: seq<Edge>, p: seq<string>)
    requires Walk(edges, p)
    ensures p != []
  {
  }

  lemma {:induction false} ShapedIfAccepted(g: Graph)
    requires Accepts(g)
    ensures Shaped(g)
  {
  }

  predicate LeavesBy(e: Edge, node: string, handle: string) {
    e.source == node && e.handle == handle
  }

  predicate HasBranchEdge(g: Graph, node: string, handle: string) {
    exists k :: 0 <= k < |g.edges| && LeavesBy(g.edges[k], node, handle)
  }

  predicate Declares(nodes: seq<Node>, id: string, handle: string) {
    exists i :: 0 <= i < |nodes| && nodes[i].id == id && handle in BranchesOf(nodes[i])
  }

  /** A declared branch has an edge, or some other declared branch of the same text has one. */
  lemma {:induction false} BranchHasEdgeOrTwin(g: Graph, node: string, handle: string) returns (k: nat)
    requires Shaped(g) && Declares(g.nodes, node, handle)
    ensures k < |g.edges| && BranchText(g.edges[k].source, g.edges[k].handle) == BranchText(node, handle)
    ensures Declares(g.nodes, g.edges[k].source, g.edges[k].handle)
  {
    hide NodeOk, BranchText, LinkText;
    var i :| 0 <= i < |g.nodes| && g.nodes[i].id == node && handle in BranchesOf(g.nodes[i]);
    assert BranchText(g.nodes[i].id, handle) in Used(ById(g.nodes), g.edges);
    k :| 0 <= k < |g.edges| && g.edges[k].source in ById(g.nodes) && ById(g.nodes)[g.edges[k].source].kind == SWITCH
         && BranchText(g.edges[k].source, g.edges[k].handle) == BranchText(node, handle);
    assert EdgeOk(ById(g.nodes), g.edges[k]);
    ByIdFinds(g.nodes);
    var n := ById(g.nodes)[g.edges[k].source];
    var j :| 0 <= j < |g.nodes| && g.nodes[j] == n;
  }

  /** Different declared branches have different texts. */
  ghost predicate TextsApart(nodes: seq<Node>) {
    forall a, h, b, k :: Declares(nodes, a, h) && Declares(nodes, b, k) && BranchText(a, h) == BranchText(b, k)
      ==> a == b && h == k
  }

  /** Identifiers without NUL bytes keep the texts apart. */
  lemma {:induction false} NulFreeTextsApart(nodes: seq<Node>)
    requires NulFree(nodes)
    ensures TextsApart(nodes)
  {
    hide BranchesOf, BranchText;
    forall a, h, b, k | Declares(nodes, a, h) && Declares(nodes, b, k)
      ensures BranchText(a, h) == BranchText(b, k) ==> a == b && h == k
    {
      BranchTextInjective(a, h, b, k);
    }
  }

  /** Which edge of a switch carries the branch, and which output it leads to. */
  lemma {:induction false} BranchesLeadOut(g: Graph, node: string, handle: string) returns (k: nat, out: string)
    requires Accepts(g) && TextsApart(g.nodes) && Declares(g.nodes, node, handle)
    ensures k < |g.edges| && LeavesBy(g.edges[k], node, handle)
    ensures out in OutputIds(g.nodes) && Reaches(g.edges, g.edges[k].target, out)
  {
    hide Shaped, Reaches, Acyclic, BranchesOf, BranchText, Declares;
    k := BranchHasEdgeOrTwin(g, node, handle);
    EndsKnown(g);
    assert OnRoute(g, g.edges[k].target);
    out :| out in OutputIds(g.nodes) && Reaches(g.edges, g.edges[k].target, out);
  }

  predicate NoWayIn(edges: seq<Edge>, id: string) {
    forall i :: 0 <= i < |edges| ==> edges[i].target != id
  }

  lemma {:induction false} LastLink(edges: seq<Edge>, p: seq<string>)
    requires Walk(edges, p) && |p| > 1
    ensures Linked(edges, p[|p| - 2], p[|p| - 1])
  {
    assert LinkedAt(edges, p, |p| - 2);
  }

  lemma {:induction false} InputHasNoWayIn(g: Graph)
    requires Shaped(g)
    ensures NoWayIn(g.edges, InputOf(g))
  {
    hide NodeOk, BranchesUsed, BranchesOf;
    OfKindFinds(g.nodes, INPUT);
    assert InputOf(g) in OfKind(g.nodes, INPUT);
    var i :| 0 <= i < |g.nodes| && g.nodes[i].id == InputOf(g) && g.nodes[i].kind == INPUT;
    ByIdOf(g.nodes, i);
  }

  /** The only node of an accepted graph without a way in is its input: nothing in it is unreachable. */
  lemma {:induction false} OnlyInputStarts(g: Graph, id: string)
    requires Accepts(g) && id in Ids(g.nodes)
    ensures id == InputOf(g) <==> NoWayIn(g.edges, id)
  {
    hide Shaped, Acyclic, Walk;
    if NoWayIn(g.edges, id) {
      assert OnRoute(g, id);
      var p :| WalkFrom(g.edges, p, InputOf(g), id);
      WalkNonEmpty(g.edges, p);
      if |p| > 1 {
        LastLink(g.edges, p);
      }
    }
    InputHasNoWayIn(g);
  }
}
