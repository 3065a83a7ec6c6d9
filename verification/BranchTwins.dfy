/**
 When one branch of a switch can hide that another has no edge: the validator
 tells branches apart by texts joined with a NUL byte.
 */
module BranchTwins {
  import opened GraphNodes
  import opened GraphShape
  import opened GraphSearch
  import opened DecisionGraph

  /** What the validator demands of the identifiers of a switch and of a branch. */
  predicate Named(node: string, handle: string) {
    1 <= |node| <= 256 && handle != ""
  }

  /** Branch `k` of `b` has no edge, and among the other declared branches only `h` of `a` could answer for it. */
  ghost predicate Hides(g: Graph, a: string, h: string, b: string, k: string) {
    && Accepts(g) && Declares(g.nodes, a, h) && Declares(g.nodes, b, k)
    && HasBranchEdge(g, a, h) && !HasBranchEdge(g, b, k)
    && forall c, l :: Declares(g.nodes, c, l) && (c, l) != (a, h) && (c, l) != (b, k) ==>
       BranchText(c, l) != BranchText(b, k)
  }

  lemma {:induction false} HiddenBySameText(g: Graph, a: string, h: string, b: string, k: string)
    requires Hides(g, a, h, b, k)
    ensures BranchText(a, h) == BranchText(b, k)
  {
    hide Shaped, BranchText, Declares;
    ShapedIfAccepted(g);
    var n := BranchHasEdgeOrTwin(g, b, k);
    var e := g.edges[n];
    assert LeavesBy(e, e.source, e.handle);
  }

  // ----- a graph for any two branches of the same text -----

  predicate Clash(a: string, h: string, b: string, k: string) {
    Named(a, h) && Named(b, k) && a != b && BranchText(a, h) == BranchText(b, k)
  }

  lemma {:induction false} SameNodeNoClash(a: string, h: string, k: string)
    requires BranchText(a, h) == BranchText(a, k)
    ensures h == k
  {
    var s := BranchText(a, h);
    assert h == s[|a| + 1..] && k == BranchText(a, k)[|a| + 1..];
  }

  /** A name for the input, and one for the output, that neither begin like the switches nor end like the second. */
  function First(a: string): string
    requires a != ""
  {
    if a[0] == '0' then "1" else "0"
  }

  function Last(a: string, b: string): string
    requires a != "" && b != ""
  {
    if a[0] != '2' && b[|b| - 1] != '2' then "2" else if a[0] != '3' && b[|b| - 1] != '3' then "3" else "4"
  }

  /** The branch of the second switch that has an edge. */
  function Other(k: string): string {
    if k == "d" then "e" else "d"
  }

  /** The only edge of the first switch bears the text of branch `k` of the second. */
  function Twins(a: string, h: string, b: string, k: string): Graph
    requires a != "" && b != ""
  {
    Graph(0, [Node(First(a), INPUT, Undecodable),
              Node(a, SWITCH, Switch("first", [Statement(h, "", true)])),
              Node(b, SWITCH, Switch("first", [Statement(k, "x", false), Statement(Other(k), "", true)])),
              Node(Last(a, b), OUTPUT, Undecodable)],
             [Edge("1", First(a), a, ""), Edge("2", a, b, h), Edge("3", b, Last(a, b), Other(k))])
  }

  lemma {:induction false} Ends(a: string, h: string, b: string, k: string)
    requires Clash(a, h, b, k)
    ensures a[0] == b[0]
    ensures |First(a)| == 1 && First(a)[0] != a[0] && |Last(a, b)| == 1
    ensures Last(a, b)[0] != a[0] && Last(a, b)[0] != b[|b| - 1] && Last(a, b)[0] != First(a)[0]
    ensures First(a) != a && First(a) != b && Last(a, b) != a && Last(a, b) != b && First(a) != Last(a, b)
    ensures Other(k) != k && Other(k) != ""
  {
    assert BranchText(a, h)[0] == a[0] && BranchText(b, k)[0] == b[0];
    assert |"d"| == 1 && |"e"| == 1 && "d"[0] != "e"[0];
  }

  lemma {:induction false} TwinsNodes(a: string, h: string, b: string, k: string)
    requires Clash(a, h, b, k)
    ensures NodesOk(Twins(a, h, b, k).nodes)
    ensures BranchesOf(Twins(a, h, b, k).nodes[1]) == {h} && BranchesOf(Twins(a, h, b, k).nodes[2]) == {k, Other(k)}
  {
    hide BranchText, First, Last, Other;
    Ends(a, h, b, k);
    var n := Twins(a, h, b, k).nodes;
    assert n[1].content.statements[0].id == h;
    assert n[2].content.statements[0].id == k && n[2].content.statements[1].id == Other(k);
    assert |"x"| == 1;
  }

  lemma {:induction false} TwinsById(a: string, h: string, b: string, k: string)
    requires Clash(a, h, b, k)
    ensures var m := ById(Twins(a, h, b, k).nodes); var n := Twins(a, h, b, k).nodes;
      && First(a) in m && m[First(a)] == n[0] && a in m && m[a] == n[1]
      && b in m && m[b] == n[2] && Last(a, b) in m && m[Last(a, b)] == n[3]
  {
    hide NodesOk, ById, Clash;
    NonEmpty(a, h, b, k);
    TwinsNodes(a, h, b, k);
    var n := Twins(a, h, b, k).nodes;
    assert n[0].id == First(a) && n[1].id == a && n[2].id == b && n[3].id == Last(a, b);
    ByIdOf(n, 0);
    ByIdOf(n, 1);
    ByIdOf(n, 2);
    ByIdOf(n, 3);
  }

  lemma {:induction false} NonEmpty(a: string, h: string, b: string, k: string)
    requires Clash(a, h, b, k)
    ensures a != "" && b != "" && a != b
  {
  }

  lemma {:induction false} TwinsLinks(a: string, h: string, b: string, k: string)
    requires Clash(a, h, b, k)
    ensures var e := Twins(a, h, b, k).edges;
      LinkText(e[0]) != LinkText(e[1]) && LinkText(e[0]) != LinkText(e[2]) && LinkText(e[1]) != LinkText(e[2])
  {
    hide First, Last, Other;
    Ends(a, h, b, k);
    var e := Twins(a, h, b, k).edges;
    var s, t, u := LinkText(e[0]), LinkText(e[1]), LinkText(e[2]);
    assert s[0] == First(a)[0] && t[0] == a[0] && u[0] == b[0];
    assert t[|t| - 1] == b[|b| - 1] && u[|u| - 1] == Last(a, b)[0];
  }

  lemma {:induction false} TwinsEdges(a: string, h: string, b: string, k: string)
    requires Clash(a, h, b, k)
    ensures EdgesOk(ById(Twins(a, h, b, k).nodes), Twins(a, h, b, k).edges)
  {
    hide ById, BranchesOf, NodesOk, Clash, LinkText, First, Last, Other;
    NonEmpty(a, h, b, k);
    TwinsNodes(a, h, b, k);
    TwinsById(a, h, b, k);
    TwinsLinks(a, h, b, k);
    assert "1"[0] != "2"[0] && "1"[0] != "3"[0] && "2"[0] != "3"[0];
  }

  lemma {:induction false} NoBranches(n: Node)
    requires n.kind != SWITCH
    ensures BranchesOf(n) == {}
  {
  }

  lemma {:induction false} TwinsBranches(a: string, h: string, b: string, k: string)
    requires Clash(a, h, b, k)
    ensures BranchesUsed(Twins(a, h, b, k).nodes, Twins(a, h, b, k).edges)
  {
    hide ById, BranchesOf, NodesOk, First, Last, Other, BranchText;
    TwinsNodes(a, h, b, k);
    TwinsById(a, h, b, k);
    var n, e := Twins(a, h, b, k).nodes, Twins(a, h, b, k).edges;
    assert e[1].source == a && e[2].source == b;
    assert BranchText(e[1].source, e[1].handle) in Used(ById(n), e);
    assert BranchText(e[2].source, e[2].handle) in Used(ById(n), e);
    NoBranches(n[0]);
    NoBranches(n[3]);
  }

  lemma {:induction false} KindsOfTwins(a: string, h: string, b: string, k: string)
    requires a != "" && b != ""
    ensures OfKind(Twins(a, h, b, k).nodes, INPUT) == [First(a)]
      && OfKind(Twins(a, h, b, k).nodes, OUTPUT) == [Last(a, b)]
  {
    hide First, Last, Other;
    var n := Twins(a, h, b, k).nodes;
    assert n[..3][..2] == n[..2] && n[..2][..1] == n[..1] && n[..1][..0] == [];
    assert INPUT != SWITCH && OUTPUT != SWITCH && INPUT != OUTPUT;
    assert OfKind(n[..1], INPUT) == [First(a)] && OfKind(n[..1], OUTPUT) == [];
    assert OfKind(n[..2], INPUT) == [First(a)] && OfKind(n[..2], OUTPUT) == [];
    assert OfKind(n[..3], INPUT) == [First(a)] && OfKind(n[..3], OUTPUT) == [];
  }

  lemma {:induction false} TwinsShaped(a: string, h: string, b: string, k: string)
    requires Clash(a, h, b, k)
    ensures Shaped(Twins(a, h, b, k)) && InputOf(Twins(a, h, b, k)) == First(a)
    ensures OutputIds(Twins(a, h, b, k).nodes) == {Last(a, b)}
  {
    hide NodesOk, EdgesOk, BranchesUsed, OfKind, Clash, First, Last;
    NonEmpty(a, h, b, k);
    TwinsNodes(a, h, b, k);
    TwinsEdges(a, h, b, k);
    TwinsBranches(a, h, b, k);
    KindsOfTwins(a, h, b, k);
    OutputsFound(Twins(a, h, b, k).nodes, {Last(a, b)});
  }

  lemma {:induction false} TwinsOrdered(a: string, h: string, b: string, k: string)
    requires Clash(a, h, b, k)
    ensures Finished(Twins(a, h, b, k).edges, [Last(a, b), b, a, First(a)])
  {
    hide BranchText, First, Last, Other;
    Ends(a, h, b, k);
    var e, order := Twins(a, h, b, k).edges, [Last(a, b), b, a, First(a)];
    forall i, c | 0 <= i < 4 && c in Succ(e, order[i])
      ensures c in order[..i]
    {
      SuccLinked(e, order[i], c);
      assert order[..i] ==
        if i == 0 then [] else if i == 1 then [order[0]] else if i == 2 then [order[0], b] else [order[0], b, a];
    }
    assert forall i :: 0 <= i < 4 ==> After(e, order, i);
  }

  lemma {:induction false} TwinsRoutes(a: string, h: string, b: string, k: string)
    requires a != "" && b != ""
    ensures var e := Twins(a, h, b, k).edges; var i, o := First(a), Last(a, b);
      forall n :: n in {i, a, b, o} ==> Reaches(e, i, n) && Reaches(e, n, o)
  {
    hide Reaches, First, Last, Other;
    var e := Twins(a, h, b, k).edges;
    var i, o := First(a), Last(a, b);
    assert Linked(e, i, a) by { assert e[0].source == i; }
    assert Linked(e, a, b) by { assert e[1].source == a; }
    assert Linked(e, b, o) by { assert e[2].source == b; }
    ReachesItself(e, i);
    ReachesNext(e, i, i, a);
    ReachesNext(e, i, a, b);
    ReachesNext(e, i, b, o);
    ReachesItself(e, o);
    ReachesBefore(e, b, o, o);
    ReachesBefore(e, a, b, o);
    ReachesBefore(e, i, a, o);
  }

  lemma {:induction false} TwinsAccepted(a: string, h: string, b: string, k: string)
    requires Clash(a, h, b, k)
    ensures Accepts(Twins(a, h, b, k))
  {
    hide Shaped, Reaches, Clash, First, Last, Other, Finished, Loop;
    NonEmpty(a, h, b, k);
    var g := Twins(a, h, b, k);
    TwinsShaped(a, h, b, k);
    TwinsRoutes(a, h, b, k);
    TwinsOrdered(a, h, b, k);
    assert Ids(g.nodes) == {First(a), a, b, Last(a, b)} by {
      assert g.nodes[0].id == First(a) && g.nodes[1].id == a && g.nodes[2].id == b && g.nodes[3].id == Last(a, b);
    }
    forall p | Loop(g.edges, p)
      ensures false
    {
      LoopIsWalk(g.edges, p);
      FinishedIsAcyclic(g.edges, [Last(a, b), b, a, First(a)], p);
    }
  }

  lemma {:induction false} TwinsHide(a: string, h: string, b: string, k: string)
    requires Clash(a, h, b, k)
    ensures Hides(Twins(a, h, b, k), a, h, b, k)
  {
    hide Accepts, BranchText, BranchesOf, First, Last, Other;
    Ends(a, h, b, k);
    TwinsAccepted(a, h, b, k);
    TwinsNodes(a, h, b, k);
    var g := Twins(a, h, b, k);
    var n, e := g.nodes, g.edges;
    NoBranches(n[0]);
    NoBranches(n[3]);
    assert n[1].id == a && n[2].id == b && h in BranchesOf(n[1]) && k in BranchesOf(n[2]);
    assert LeavesBy(e[1], a, h);
    forall c, l | Declares(n, c, l) && (c, l) != (a, h) && (c, l) != (b, k)
      ensures BranchText(c, l) != BranchText(b, k)
    {
      assert c == b && l == Other(k);
      if BranchText(c, l) == BranchText(b, k) {
        SameNodeNoClash(b, l, k);
      }
    }
  }

  /**
   A declared branch can hide, in some accepted graph, that another one has no
   edge, if and only if their texts coincide.
   */
  lemma {:induction false} HidesIffSameText(a: string, h: string, b: string, k: string)
    requires Named(a, h) && Named(b, k) && (a, h) != (b, k)
    ensures (exists g :: Hides(g, a, h, b, k)) <==> BranchText(a, h) == BranchText(b, k)
  {
    hide Hides, BranchText;
    if g :| Hides(g, a, h, b, k) {
      HiddenBySameText(g, a, h, b, k);
    }
    if BranchText(a, h) == BranchText(b, k) {
      if a == b {
        SameNodeNoClash(a, h, k);
      }
      TwinsHide(a, h, b, k);
    }
  }

  const TWIN := "a" + [NUL] + "b"
  const LONG := "b" + [NUL] + "c"

  /** A concrete accepted graph whose declared branch `c` has no edge. */
  lemma {:induction false} NulHidesAnUnusedBranch()
    ensures var g := Twins("a", LONG, TWIN, "c");
      Accepts(g) && Declares(g.nodes, TWIN, "c") && !HasBranchEdge(g, TWIN, "c")
  {
    hide Accepts, HasBranchEdge, Declares;
    assert |TWIN| == 3 && |"a"| == 1 && |LONG| == 3 && |"c"| == 1;
    assert BranchText("a", LONG) == BranchText(TWIN, "c");
    TwinsHide("a", LONG, TWIN, "c");
  }
}
