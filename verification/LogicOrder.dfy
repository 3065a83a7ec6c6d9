/** Exactly which graphs keep their logic whatever their order: when a collation tells apart what has to be told. */
module LogicOrder {
  import opened Common
  import opened Strings
  import opened Collation
  import opened GraphLogic
  import opened KeyOrder
  import opened SameLogic

  /** `h` means the same as `g` and is not equated with it. */
  ghost predicate Escapes(le: Order, g: Graph, h: Graph) {
    SoundGraph(h) && SameMeaning(g, h) && !SameGraphLogic(le, g, h)
  }

  // ----- the keys of a node's content -----

  lemma {:induction false} AssignSame(fs: seq<Field>, key: string, value: Raw)
    requires Unrepeated(fs) && Find(fs, key) == Some(value)
    ensures Assign(fs, key, value) == fs
  {
    hide Find;
    FindWhere(fs, key);
    forall i | 0 <= i < |fs| && fs[i].key == key
      ensures fs[i] == Field(key, Some(value))
    {
      FindIs(fs, i);
    }
    assert Replaced(fs, key, value) == fs;
  }

  /** The key is filled in: it has a value, and none that a default would replace. */
  predicate FilledIn(fs: seq<Field>, key: string) {
    Find(fs, key) == Some(OrElse(fs, key, Default(key)))
  }

  lemma {:induction false} FilledAgain(fs: seq<Field>)
    requires Unrepeated(fs) && forall key :: key in KEYS ==> FilledIn(fs, key)
    ensures Filled(fs) == fs
  {
    hide Find, OrElse, Assign;
    forall key | key in KEYS
      ensures Assign(fs, key, OrElse(fs, key, Default(key))) == fs
    {
      assert FilledIn(fs, key);
      AssignSame(fs, key, OrElse(fs, key, Default(key)));
    }
    DistinctKeys();
    assert "passThrough" in KEYS && "executionMode" in KEYS && "inputField" in KEYS && "outputPath" in KEYS;
  }

  lemma {:induction false} NullMeansNull(r: Raw)
    ensures Mean(r) == MNull <==> r == RNull
  {
  }

  /** Whatever means the same as a filled table is a filled table. */
  lemma {:induction false} MeansFilled(fs: seq<Field>, b: Raw)
    requires SoundFields(fs) && Sound(b) && Mean(b) == Mean(RObj(Filled(fs)))
    ensures b.RObj? && Filled(b.fields) == b.fields
  {
    hide Filled, Find, Mean, Assign;
    FilledIs(fs);
    MeansObject(Filled(fs), b);
    MeanObjects(b, RObj(Filled(fs)));
    forall key | key in KEYS
      ensures FilledIn(b.fields, key)
    {
      DiffIsNoKey();
      assert MeanAlike(Held(b, key), Held(RObj(Filled(fs)), key));
      NullMeansNull(Find(b.fields, key).value);
      NullMeansNull(OrElse(fs, key, Default(key)));
    }
    FilledAgain(b.fields);
  }

  lemma {:induction false} MeansObject(fs: seq<Field>, b: Raw)
    requires SoundFields(fs) && Sound(b) && Mean(b) == Mean(RObj(fs))
    ensures b.RObj? && Unrepeated(b.fields) && Unrepeated(fs)
  {
  }

  lemma {:induction false} DiffIsNoKey()
    ensures "_diff" !in KEYS
  {
    assert |"_diff"| == 5 && |"passThrough"| == 11 && |"executionMode"| == 13 && |"inputField"| == 10
      && |"outputPath"| == 10;
  }

  lemma {:induction false} ScalarApart(le: Order, r: Raw)
    requires !r.RObj? && !r.RArr?
    ensures Apart(le, Mean(r))
  {
  }

  /** A node with another content of the same meaning. */
  lemma {:induction false} Recontent(le: Order, n: Node) returns (m: Node)
    requires Collates(le) && SoundNode(n) && !ContentApart(le, n)
    ensures SoundNode(m) && NodeMeans(m) == NodeMeans(n) && NodeMember(le, m) != NodeMember(le, n)
  {
    hide Collates, Mean, Apart, Canon, Filled, OrderShows;
    ContentSound(n);
    var c := ContentOf(n).value;
    TiedShows(le, c);
    var b := ShownBy(le, c);
    m := n.(content := Some(b));
    if n.kind == TABLE {
      if !c.RObj? && !c.RArr? { ScalarApart(le, c); }
      assert n.content.value.RObj? || n.content.value.RArr?;
      SpreadSound(n.content.value);
      MeansFilled(Spread(n.content.value), b);
    }
    assert ContentOf(m) == Some(b);
    ViewParts(le, n);
    ViewParts(le, m);
  }

  lemma {:induction false} OtherElement<B>(s: seq<B>, i: nat, x: B)
    requires i < |s| && s[i] != x
    ensures multiset(s[i := x]) != multiset(s)
  {
    assert multiset(s[i := x]) == multiset(s) - multiset{s[i]} + multiset{x};
    assert multiset(s[i := x])[x] == multiset(s)[x] + 1;
  }

  lemma {:induction false} ListsKeepMembers(le: Order, g: Graph, h: Graph)
    requires Collates(le) && NodeList(le, g) == NodeList(le, h)
    ensures multiset(NodeMembers(le, g.nodes)) == multiset(NodeMembers(le, h.nodes))
  {
    hide Collates, SortMembers, NodeMember;
    SortForgetsOrder(le, NodeMembers(le, g.nodes), NodeMembers(le, h.nodes));
  }

  lemma {:induction false} ContentEscapes(le: Order, g: Graph, i: nat) returns (h: Graph)
    requires Collates(le) && SoundGraph(g) && i < |g.nodes| && !ContentApart(le, g.nodes[i])
    ensures Escapes(le, g, h)
  {
    hide Collates, NodeMember, NodeMeans, NodeList, EdgeList, SameGraphLogic, ContentApart, SoundNode;
    var m := Recontent(le, g.nodes[i]);
    h := Graph(g.nodes[i := m], g.edges);
    assert NodesMean(h.nodes) == NodesMean(g.nodes);
    assert NodeMembers(le, h.nodes) == NodeMembers(le, g.nodes)[i := NodeMember(le, m)];
    OtherElement(NodeMembers(le, g.nodes), i, NodeMember(le, m));
    SameMemberLists(le, g, h);
    if NodeList(le, g) == NodeList(le, h) {
      ListsKeepMembers(le, g, h);
    }
  }

  // ----- nodes and edges that are sorted by tied texts -----

  lemma {:induction false} SwapMultiset<B>(s: seq<B>, i: nat, j: nat)
    requires i < |s| && j < |s|
    ensures multiset(s[i := s[j]][j := s[i]]) == multiset(s)
  {
  }

  lemma {:induction false} NodesEscape(le: Order, g: Graph, i: nat, j: nat) returns (h: Graph)
    requires Collates(le) && SoundGraph(g) && i < j < |g.nodes|
    requires Ties(le, g.nodes[i].id, g.nodes[j].id) && NodeMeans(g.nodes[i]) != NodeMeans(g.nodes[j])
    ensures Escapes(le, g, h)
  {
    hide Collates, NodeView, NodeMeans, EdgeList, SameGraphLogic, SoundNode, Ties, SortMembers;
    h := Graph(g.nodes[i := g.nodes[j]][j := g.nodes[i]], g.edges);
    var s, t := NodeMembers(le, g.nodes), NodesMean(g.nodes);
    assert NodeMembers(le, h.nodes) == s[i := s[j]][j := s[i]];
    assert NodesMean(h.nodes) == t[i := t[j]][j := t[i]];
    SwapMultiset(t, i, j);
    NodeMemberMeans(le, g.nodes[i], g.nodes[j]);
    SwapShows(le, s, i, j);
    SameMemberLists(le, g, h);
  }

  lemma {:induction false} EdgesEscape(le: Order, g: Graph, i: nat, j: nat) returns (h: Graph)
    requires Collates(le) && SoundGraph(g) && i < j < |g.edges|
    requires Ties(le, EdgeMember(g.edges[i]).key, EdgeMember(g.edges[j]).key)
      && EdgeMeans(g.edges[i]) != EdgeMeans(g.edges[j])
    ensures Escapes(le, g, h)
  {
    hide Collates, EdgeMember, EdgeMeans, NodeList, SameGraphLogic, Ties, SortMembers;
    h := Graph(g.nodes, g.edges[i := g.edges[j]][j := g.edges[i]]);
    var s, t := EdgeMembers(g.edges), EdgesMean(g.edges);
    assert EdgeMembers(h.edges) == s[i := s[j]][j := s[i]];
    assert EdgesMean(h.edges) == t[i := t[j]][j := t[i]];
    SwapMultiset(t, i, j);
    EdgeViewIffMeans(g.edges[i], g.edges[j]);
    SwapShows(le, s, i, j);
    SameMemberLists(le, g, h);
  }

  lemma {:induction false} UntoldEscapes(le: Order, g: Graph) returns (h: Graph)
    requires Collates(le) && SoundGraph(g) && !Told(le, g)
    ensures Escapes(le, g, h)
  {
    hide Collates, EdgeMember, EdgeMeans, NodeMeans, Ties, ContentApart, SoundGraph, Escapes;
    if !AllApart(le, g.nodes) {
      var i :| 0 <= i < |g.nodes| && !ContentApart(le, g.nodes[i]);
      h := ContentEscapes(le, g, i);
    } else if !NodesTold(le, g.nodes) {
      var i, j :| 0 <= i < |g.nodes| && 0 <= j < |g.nodes| && Ties(le, g.nodes[i].id, g.nodes[j].id)
                  && NodeMeans(g.nodes[i]) != NodeMeans(g.nodes[j]);
      TiesSwap(le, g.nodes[i].id, g.nodes[j].id);
      if i < j { h := NodesEscape(le, g, i, j); } else { h := NodesEscape(le, g, j, i); }
    } else {
      var i, j :| 0 <= i < |g.edges| && 0 <= j < |g.edges|
        && Ties(le, EdgeMember(g.edges[i]).key, EdgeMember(g.edges[j]).key)
                  && EdgeMeans(g.edges[i]) != EdgeMeans(g.edges[j]);
      TiesSwap(le, EdgeMember(g.edges[i]).key, EdgeMember(g.edges[j]).key);
      if i < j { h := EdgesEscape(le, g, i, j); } else { h := EdgesEscape(le, g, j, i); }
    }
  }

  /**
   All graphs that mean the same are equated with a graph if and only if the
   collation tells apart the keys of every object in its contents, and its
   different nodes and edges by their ids and texts.
   */
  lemma {:induction false} OrderIsNothingIff(le: Order, g: Graph)
    requires Collates(le) && SoundGraph(g)
    ensures (forall h :: SoundGraph(h) && SameMeaning(g, h) ==> SameGraphLogic(le, g, h)) <==> Told(le, g)
  {
    hide Collates, SoundGraph, SameMeaning, SameGraphLogic, Told;
    if Told(le, g) {
      forall h | SoundGraph(h) && SameMeaning(g, h)
        ensures SameGraphLogic(le, g, h)
      {
        SameLogicIff(le, g, h);
      }
    } else {
      var h := UntoldEscapes(le, g);
    }
  }

  // ----- a collation that equates only equal strings -----

  ghost predicate TellsAll(le: Order) {
    forall a, b :: Ties(le, a, b) ==> a == b
  }

  lemma {:induction false} AllApartThen(le: Order, m: Meaning)
    requires TellsAll(le)
    ensures Apart(le, m)
  {
    hide Ties;
    match m {
      case MList(items) =>
        forall i | 0 <= i < |items|
          ensures Apart(le, items[i])
        {
          AllApartThen(le, items[i]);
        }
      case MRecord(fs) =>
        forall k | k in fs
          ensures Apart(le, fs[k])
        {
          AllApartThen(le, fs[k]);
        }
      case _ =>
    }
  }

  /** Then unique node ids are all it takes. */
  lemma {:induction false} UniqueIdsTold(le: Order, g: Graph)
    requires TellsAll(le) && UniqueIds(g)
    ensures Told(le, g)
  {
    hide Ties, Apart, ContentOf, Mean, EdgeMember, EdgeMeans, NodeMeans;
    forall i | 0 <= i < |g.nodes|
      ensures ContentApart(le, g.nodes[i])
    {
      if ContentOf(g.nodes[i]).Some? { AllApartThen(le, Mean(ContentOf(g.nodes[i]).value)); }
    }
    forall i, j | 0 <= i < |g.edges| && 0 <= j < |g.edges|
      ensures EdgeMember(g.edges[i]).key == EdgeMember(g.edges[j]).key ==>
        EdgeMeans(g.edges[i]) == EdgeMeans(g.edges[j])
    {
      EdgeViewIffMeans(g.edges[i], g.edges[j]);
    }
  }

  /**
   Byte order is such a collation: under it, graphs with unique node ids are
   equated exactly when they mean the same.
   */
  lemma {:induction false} ByteOrderSameLogicIff(g: Graph, h: Graph)
    requires SoundGraph(g) && SoundGraph(h) && UniqueIds(g)
    ensures Collates(Leq) && (SameGraphLogic(Leq, g, h) <==> SameMeaning(g, h))
  {
    hide SameGraphLogic, SameMeaning, Told, UniqueIds, SoundGraph, Leq, Ties, Collates;
    ByteOrderCollates();
    UniqueIdsTold(Leq, g);
    SameLogicIff(Leq, g, h);
  }
}
