/**
 The two searches over a graph's edges: a three-colour depth-first search from
 the input, and the backward marking of every node that reaches an output.
 */
module GraphSearch {
  import opened GraphShape

  // ----- walks -----

  predicate LinkedAt(edges: seq<Edge>, p: seq<string>, i: int)
    requires 0 <= i < |p| - 1
  {
    Linked(edges, p[i], p[i + 1])
  }

  /** Consecutive nodes are linked by an edge. */
  predicate Walk(edges: seq<Edge>, p: seq<string>) {
    p != [] && forall i :: 0 <= i < |p| - 1 ==> LinkedAt(edges, p, i)
  }

  predicate WalkFrom(edges: seq<Edge>, p: seq<string>, a: string, b: string) {
    Walk(edges, p) && p[0] == a && p[|p| - 1] == b
  }

  ghost predicate Reaches(edges: seq<Edge>, a: string, b: string) {
    exists p :: WalkFrom(edges, p, a, b)
  }

  /** A walk of at least one edge back to where it started. */
  predicate Loop(edges: seq<Edge>, p: seq<string>) {
    Walk(edges, p) && |p| >= 2 && p[0] == p[|p| - 1]
  }

  ghost predicate Acyclic(edges: seq<Edge>) {
    forall p :: !Loop(edges, p)
  }

  lemma {:induction false} WalkExtend(edges: seq<Edge>, p: seq<string>, b: string)
    requires Walk(edges, p) && Linked(edges, p[|p| - 1], b)
    ensures Walk(edges, p + [b])
  {
    var q := p + [b];
    forall i | 0 <= i < |q| - 1
      ensures LinkedAt(edges, q, i)
    {
      if i < |p| - 1 { assert LinkedAt(edges, p, i); }
    }
  }

  lemma {:induction false} WalkPart(edges: seq<Edge>, p: seq<string>, i: nat, j: nat)
    requires Walk(edges, p) && i < j <= |p|
    ensures Walk(edges, p[i..j])
  {
    var q := p[i..j];
    forall k | 0 <= k < |q| - 1
      ensures LinkedAt(edges, q, k)
    {
      assert LinkedAt(edges, p, i + k);
    }
  }

  lemma {:induction false} WalkPrepend(edges: seq<Edge>, a: string, p: seq<string>)
    requires Walk(edges, p) && Linked(edges, a, p[0])
    ensures Walk(edges, [a] + p)
  {
    var q := [a] + p;
    forall i | 0 <= i < |q| - 1
      ensures LinkedAt(edges, q, i)
    {
      if i > 0 { assert LinkedAt(edges, p, i - 1); }
    }
  }

  lemma {:induction false} ReachesNext(edges: seq<Edge>, a: string, b: string, c: string)
    requires Reaches(edges, a, b) && Linked(edges, b, c)
    ensures Reaches(edges, a, c)
  {
    var p :| WalkFrom(edges, p, a, b);
    WalkExtend(edges, p, c);
    assert WalkFrom(edges, p + [c], a, c);
  }

  lemma {:induction false} ReachesBefore(edges: seq<Edge>, a: string, b: string, c: string)
    requires Linked(edges, a, b) && Reaches(edges, b, c)
    ensures Reaches(edges, a, c)
  {
    var p :| WalkFrom(edges, p, b, c);
    WalkPrepend(edges, a, p);
    assert WalkFrom(edges, [a] + p, a, c);
  }

  lemma {:induction false} ReachesItself(edges: seq<Edge>, a: string)
    ensures Reaches(edges, a, a)
  {
    assert WalkFrom(edges, [a], a, a);
  }

  lemma {:induction false} ClosedBackward(edges: seq<Edge>, s: set<string>, p: seq<string>, i: nat)
    requires Walk(edges, p) && i < |p| && p[|p| - 1] in s
    requires forall a, b :: b in s && Linked(edges, a, b) ==> a in s
    ensures p[i] in s
    decreases |p| - i
  {
    if i < |p| - 1 {
      ClosedBackward(edges, s, p, i + 1);
      assert LinkedAt(edges, p, i);
    }
  }

  // ----- depth first -----

  predicate After(edges: seq<Edge>, order: seq<string>, i: int)
    requires 0 <= i < |order|
  {
    forall b :: b in Succ(edges, order[i]) ==> b in order[..i]
  }

  /** Each node comes after all of its successors. */
  predicate Finished(edges: seq<Edge>, order: seq<string>) {
    && (forall i :: 0 <= i < |order| ==> After(edges, order, i))
    && forall i, j :: 0 <= i < j < |order| ==> order[i] != order[j]
  }

  lemma {:induction false} FinishedNext(edges: seq<Edge>, order: seq<string>, id: string)
    requires Finished(edges, order) && id !in order
    requires forall b :: b in Succ(edges, id) ==> b in order
    ensures Finished(edges, order + [id])
  {
    var more := order + [id];
    forall i | 0 <= i < |more|
      ensures After(edges, more, i)
    {
      if i < |order| {
        assert After(edges, order, i);
        assert more[..i] == order[..i];
      } else {
        assert more[..i] == order;
      }
    }
  }

  /** In finishing order every walk goes down. */
  lemma {:induction false} WalksGoDown(edges: seq<Edge>, order: seq<string>, p: seq<string>, i: nat,
      k: nat) returns (j: nat)
    requires Finished(edges, order) && Walk(edges, p) && k < |p| && i < |order| && order[i] == p[0]
    ensures j < |order| && order[j] == p[k] && (k > 0 ==> j < i) && j + k <= i
  {
    if k == 0 {
      j := i;
    } else {
      var m := WalksGoDown(edges, order, p, i, k - 1);
      assert LinkedAt(edges, p, k - 1);
      SuccLinked(edges, p[k - 1], p[k]);
      assert After(edges, order, m);
      j :| 0 <= j < m && order[..m][j] == p[k];
    }
  }

  lemma {:induction false} FinishedIsAcyclic(edges: seq<Edge>, order: seq<string>, p: seq<string>)
    requires Finished(edges, order) && Walk(edges, p) && p[0] in order
    ensures !Loop(edges, p)
  {
    if Loop(edges, p) {
      var i :| 0 <= i < |order| && order[i] == p[0];
      var j := WalksGoDown(edges, order, p, i, |p| - 1);
      assert false;
    }
  }

  function ColorOf(colors: map<string, int>, id: string): int {
    if id in colors then colors[id] else 0
  }

  /** The path under exploration is grey, the finished nodes are black, and all were reached from `root`. */
  ghost predicate Exploring(edges: seq<Edge>, ids: set<string>, colors: map<string, int>, order: seq<string>,
      root: string, path: seq<string>)
  {
    && colors.Keys <= ids
    && (forall id :: id in colors ==> colors[id] == 1 || colors[id] == 2)
    && (forall id :: ColorOf(colors, id) == 1 <==> id in path)
    && (forall id :: ColorOf(colors, id) == 2 <==> id in order)
    && Finished(edges, order)
    && (path != [] ==> Walk(edges, path))
    && (forall id :: id in colors ==> Reaches(edges, root, id))
  }

  lemma {:induction false} Entered(edges: seq<Edge>, ids: set<string>, colors: map<string, int>, order: seq<string>,
      root: string, path: seq<string>, id: string)
    requires Exploring(edges, ids, colors, order, root, path) && ColorOf(colors, id) !in {1, 2}
    requires id in ids && Reaches(edges, root, id)
    requires path != [] ==> Linked(edges, path[|path| - 1], id)
    ensures Exploring(edges, ids, colors[id := 1], order, root, path + [id])
    ensures id !in colors
  {
    hide Finished, Reaches, Walk, Linked;
    PathGrows(edges, path, id);
  }

  lemma {:induction false} Left(edges: seq<Edge>, ids: set<string>, colors: map<string, int>, order: seq<string>,
      root: string, path: seq<string>, id: string)
    requires Exploring(edges, ids, colors, order, root, path + [id]) && id !in path
    requires forall b :: b in Succ(edges, id) ==> b in order
    ensures Exploring(edges, ids, colors[id := 2], order + [id], root, path)
  {
    hide Finished, Reaches, Walk, Succ;
    var more := path + [id];
    assert id in more && ColorOf(colors, id) == 1;
    FinishedNext(edges, order, id);
    forall x
      ensures ColorOf(colors[id := 2], x) == 1 <==> x in path
      ensures ColorOf(colors[id := 2], x) == 2 <==> x in order + [id]
    {
      assert x in more <==> x in path || x == id;
    }
    if path != [] {
      WalkPart(edges, more, 0, |path|);
      assert more[0..|path|] == path;
    }
  }

  lemma {:induction false} OnPath(edges: seq<Edge>, ids: set<string>, colors: map<string, int>, order: seq<string>,
      root: string, path: seq<string>, id: string)
    requires Exploring(edges, ids, colors, order, root, path)
    ensures ColorOf(colors, id) == 1 ==> id in path && Walk(edges, path)
    ensures ColorOf(colors, id) == 2 <==> id in order
    ensures id in path ==> id in colors
    ensures colors.Keys <= ids
  {
  }

  /** The maps of the two closures. */
  class Search {
    const edges: seq<Edge>
    const ids: set<string>
    const forward: map<string, seq<string>>
    const backward: map<string, seq<string>>
    var colors: map<string, int>
    var reachesOutput: set<string>
    /** The nodes that are finished, in the order in which they were. */
    ghost var order: seq<string>

    constructor (edges: seq<Edge>, ids: set<string>, forward: map<string, seq<string>>,
        backward: map<string, seq<string>>)
      ensures this.edges == edges && this.ids == ids && this.forward == forward && this.backward == backward
      ensures colors == map[] && reachesOutput == {} && order == []
    {
      this.edges, this.ids, this.forward, this.backward := edges, ids, forward, backward;
      colors, reachesOutput, order := map[], {}, [];
    }

    /** The adjacency maps are those of the edges, and the edges join known nodes. */
    ghost predicate Sound() {
      && Adjoins(forward, backward, edges)
      && forall i :: 0 <= i < |edges| ==> edges[i].source in ids && edges[i].target in ids
    }

    /** Explores a node; fails exactly when it meets the path it came along. */
    method Visit(root: string, ghost path: seq<string>, id: string) returns (ok: bool)
      requires Sound() && id in ids && Reaches(edges, root, id)
      requires Exploring(edges, ids, colors, order, root, path)
      requires path != [] ==> Linked(edges, path[|path| - 1], id)
      modifies `colors, `order
      ensures ok ==> Exploring(edges, ids, colors, order, root, path) && id in order
      ensures ok ==> old(order) <= order && old(colors).Keys <= colors.Keys
      ensures !ok ==> exists p :: Loop(edges, p) && Reaches(edges, root, p[0])
      decreases ids - colors.Keys
    {
      hide Exploring, Finished, Reaches, Walk, Loop, Linked, Succ, Pred;
      OnPath(edges, ids, colors, order, root, path, id);
      if ColorOf(colors, id) == 1 {
        LoopFound(edges, path, id);
        return false;
      }
      if ColorOf(colors, id) == 2 {
        return true;
      }
      Entered(edges, ids, colors, order, root, path, id);
      colors := colors[id := 1];
      var next := Adjacent(forward, id);
      assert next == Succ(edges, id);
      for i := 0 to |next|
        invariant Exploring(edges, ids, colors, order, root, path + [id])
        invariant old(order) <= order && old(colors).Keys < colors.Keys
        invariant forall k :: 0 <= k < i ==> next[k] in order
      {
        SuccLinked(edges, id, next[i]);
        TargetKnown(edges, ids, id, next[i]);
        ReachesNext(edges, root, id, next[i]);
        OnPath(edges, ids, colors, order, root, path + [id], id);
        ok := Visit(root, path + [id], next[i]);
        if !ok { return; }
      }
      Left(edges, ids, colors, order, root, path, id);
      colors := colors[id := 2];
      order := order + [id];
      ok := true;
    }

    /** Marks a node and everything that leads to it. */
    method Mark(ghost outputs: set<string>, id: string)
      requires Sound() && id in ids && reachesOutput <= ids && ReachesAny(edges, id, outputs)
      requires forall a :: a in reachesOutput ==> ReachesAny(edges, a, outputs)
      modifies `reachesOutput
      ensures old(reachesOutput) + {id} <= reachesOutput <= ids
      ensures forall a :: a in reachesOutput ==> ReachesAny(edges, a, outputs)
      ensures forall a, b :: b in reachesOutput && b !in old(reachesOutput) && Linked(edges, a, b) ==>
        a in reachesOutput
      decreases ids - reachesOutput
    {
      hide Linked, Succ, Pred, ReachesAny;
      if id in reachesOutput {
        return;
      }
      ghost var before := reachesOutput;
      reachesOutput := reachesOutput + {id};
      var previous := Adjacent(backward, id);
      assert previous == Pred(edges, id);
      for i := 0 to |previous|
        invariant before + {id} <= reachesOutput <= ids
        invariant forall a :: a in reachesOutput ==> ReachesAny(edges, a, outputs)
        invariant forall k :: 0 <= k < i ==> previous[k] in reachesOutput
        invariant forall a, b :: b in reachesOutput && b !in before && b != id && Linked(edges, a, b) ==>
          a in reachesOutput
      {
        SuccLinked(edges, previous[i], id);
        TargetKnown(edges, ids, previous[i], id);
        ReachesAnyBefore(edges, previous[i], id, outputs);
        Mark(outputs, previous[i]);
      }
      forall a | Linked(edges, a, id)
        ensures a in reachesOutput
      {
        SuccLinked(edges, a, id);
      }
    }

    /** Marks everything that leads to one of the outputs. */
    method MarkAll(outputs: set<string>)
      requires Sound() && outputs <= ids && reachesOutput == {}
      modifies `reachesOutput
      ensures forall id :: id in ids ==> (id in reachesOutput <==> ReachesAny(edges, id, outputs))
    {
      hide Linked, ReachesAny;
      var left := outputs;
      while left != {}
        invariant left <= outputs && outputs - left <= reachesOutput <= ids
        invariant forall a :: a in reachesOutput ==> ReachesAny(edges, a, outputs)
        invariant forall a, b :: b in reachesOutput && Linked(edges, a, b) ==> a in reachesOutput
      {
        var out :| out in left;
        ReachesAnyItself(edges, out, outputs);
        Mark(outputs, out);
        left := left - {out};
      }
      forall id | ReachesAny(edges, id, outputs)
        ensures id in reachesOutput
      {
        MarkedIfReaches(edges, reachesOutput, id, outputs);
      }
    }
  }

  ghost predicate ReachesAny(edges: seq<Edge>, a: string, outputs: set<string>) {
    exists b :: b in outputs && Reaches(edges, a, b)
  }

  lemma {:induction false} ReachesAnyItself(edges: seq<Edge>, a: string, outputs: set<string>)
    requires a in outputs
    ensures ReachesAny(edges, a, outputs)
  {
    ReachesItself(edges, a);
  }

  lemma {:induction false} ReachesAnyBefore(edges: seq<Edge>, a: string, b: string, outputs: set<string>)
    requires Linked(edges, a, b) && ReachesAny(edges, b, outputs)
    ensures ReachesAny(edges, a, outputs)
  {
    hide Reaches;
    var c :| c in outputs && Reaches(edges, b, c);
    ReachesBefore(edges, a, b, c);
  }

  lemma {:induction false} MarkedIfReaches(edges: seq<Edge>, s: set<string>, a: string, outputs: set<string>)
    requires outputs <= s && ReachesAny(edges, a, outputs)
    requires forall a, b :: b in s && Linked(edges, a, b) ==> a in s
    ensures a in s
  {
    hide Linked;
    var b :| b in outputs && Reaches(edges, a, b);
    var p :| WalkFrom(edges, p, a, b);
    ClosedBackward(edges, s, p, 0);
  }

  lemma {:induction false} TargetKnown(edges: seq<Edge>, ids: set<string>, a: string, b: string)
    requires Linked(edges, a, b) && forall i :: 0 <= i < |edges| ==> edges[i].source in ids && edges[i].target in ids
    ensures a in ids && b in ids
  {
  }

  lemma {:induction false} PathGrows(edges: seq<Edge>, path: seq<string>, id: string)
    requires path != [] ==> Walk(edges, path) && Linked(edges, path[|path| - 1], id)
    ensures Walk(edges, path + [id])
  {
    if path != [] {
      WalkExtend(edges, path, id);
    } else {
      assert path + [id] == [id];
    }
  }

  lemma {:induction false} LoopFound(edges: seq<Edge>, path: seq<string>, id: string)
    requires id in path && Walk(edges, path) && Linked(edges, path[|path| - 1], id)
    ensures exists p :: Loop(edges, p) && p[0] == id
  {
    var k :| 0 <= k < |path| && path[k] == id;
    WalkPart(edges, path, k, |path|);
    assert path[k..|path|] == path[k..];
    WalkExtend(edges, path[k..], id);
    assert Loop(edges, path[k..] + [id]);
  }
}
