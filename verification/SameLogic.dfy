/** `sameGraphLogic`: its text comparison, and which graphs it equates under a collation. */
module SameLogic {
  import opened Common
  import opened Decimals
  import opened Json
  import opened Collation
  import opened GraphLogic
  import opened KeyOrder

  datatype Node = Node(id: string, name: string, kind: string, position: Raw, content: Option<Raw>)

  /** A handle that is missing, undefined or null is `None`. */
  datatype Edge = Edge(id: string, source: string, target: string, sourceHandle: Option<string>,
      targetHandle: Option<string>)

  datatype Graph = Graph(nodes: seq<Node>, edges: seq<Edge>)

  const TABLE := "decisionTableNode"

  // ----- the defaults of a decision table -----

  /** `{ ...value }`: an array spreads into fields named by its indices. */
  function Spread(r: Raw): seq<Field>
    requires r.RObj? || r.RArr?
  {
    if r.RObj? then r.fields
    else seq(|r.items|, i requires 0 <= i < |r.items| => Field(NatDigits(i), Some(r.items[i])))
  }

  predicate HasKey(fs: seq<Field>, key: string) {
    exists i :: 0 <= i < |fs| && fs[i].key == key
  }

  function Replaced(fs: seq<Field>, key: string, value: Raw): (r: seq<Field>)
    ensures |r| == |fs|
    ensures forall i :: 0 <= i < |fs| ==> r[i] == if fs[i].key == key then Field(key, Some(value)) else fs[i]
  {
    seq(|fs|, i requires 0 <= i < |fs| => if fs[i].key == key then Field(key, Some(value)) else fs[i])
  }

  /** Sets a key of an object: in its place if it is there, else behind the others. */
  function Assign(fs: seq<Field>, key: string, value: Raw): seq<Field> {
    if HasKey(fs, key) then Replaced(fs, key, value) else fs + [Field(key, Some(value))]
  }

  /** `table[key] ?? fallback`. */
  function OrElse(fs: seq<Field>, key: string, fallback: Raw): Raw {
    match Find(fs, key)
    case None => fallback
    case Some(v) => if v.RNull? then fallback else v
  }

  function Filled(fs: seq<Field>): seq<Field> {
    var a := Assign(fs, "passThrough", OrElse(fs, "passThrough", RBool(false)));
    var b := Assign(a, "executionMode", OrElse(fs, "executionMode", RStr("single")));
    var c := Assign(b, "inputField", OrElse(fs, "inputField", RNull));
    Assign(c, "outputPath", OrElse(fs, "outputPath", RNull))
  }

  function ContentOf(n: Node): Option<Raw> {
    if n.kind == TABLE && n.content.Some? && (n.content.value.RObj? || n.content.value.RArr?)
    then Some(RObj(Filled(Spread(n.content.value)))) else n.content
  }

  // ----- the text -----

  function HandleView(h: Option<string>): Json {
    if h == None || h == Some("") then Null else Str(h.value)
  }

  function NodeView(le: Order, n: Node): Json {
    Obj([Member("id", Str(n.id)), Member("type", Str(n.kind))]
        + (match ContentOf(n) case None => [] case Some(c) => [Member("content", Canon(le, c))]))
  }

  function EdgeView(e: Edge): Json {
    Obj([Member("sourceId", Str(e.source)), Member("targetId", Str(e.target)),
         Member("sourceHandle", HandleView(e.sourceHandle)), Member("targetHandle", HandleView(e.targetHandle))])
  }

  function NodeMember(le: Order, n: Node): Member {
    Member(n.id, NodeView(le, n))
  }

  function EdgeMember(e: Edge): Member {
    Member(Print(EdgeView(e)), EdgeView(e))
  }

  function NodeMembers(le: Order, nodes: seq<Node>): (r: seq<Member>)
    ensures |r| == |nodes| && forall i :: 0 <= i < |nodes| ==> r[i] == NodeMember(le, nodes[i])
  {
    seq(|nodes|, i requires 0 <= i < |nodes| => NodeMember(le, nodes[i]))
  }

  function EdgeMembers(edges: seq<Edge>): (r: seq<Member>)
    ensures |r| == |edges| && forall i :: 0 <= i < |edges| ==> r[i] == EdgeMember(edges[i])
  {
    seq(|edges|, i requires 0 <= i < |edges| => EdgeMember(edges[i]))
  }

  function Values(s: seq<Member>): (r: seq<Json>)
    ensures |r| == |s| && forall i :: 0 <= i < |s| ==> r[i] == s[i].value
  {
    seq(|s|, i requires 0 <= i < |s| => s[i].value)
  }

  function NodeList(le: Order, g: Graph): seq<Member> {
    SortMembers(le, NodeMembers(le, g.nodes))
  }

  function EdgeList(le: Order, g: Graph): seq<Member> {
    SortMembers(le, EdgeMembers(g.edges))
  }

  function Normal(le: Order, g: Graph): Json {
    Obj([Member("nodes", Arr(Values(NodeList(le, g)))), Member("edges", Arr(Values(EdgeList(le, g))))])
  }

  predicate SameGraphLogic(le: Order, g: Graph, h: Graph) {
    Print(Normal(le, g)) == Print(Normal(le, h))
  }

  // ----- what a graph means -----

  datatype NodeMeaning = NodeMeaning(id: string, kind: string, content: Option<Meaning>)

  datatype EdgeMeaning = EdgeMeaning(source: string, target: string, sourceHandle: string, targetHandle: string)

  function MeanOption(r: Option<Raw>): Option<Meaning> {
    match r case None => None case Some(c) => Some(Mean(c))
  }

  function NodeMeans(n: Node): NodeMeaning {
    NodeMeaning(n.id, n.kind, MeanOption(ContentOf(n)))
  }

  function HandleMeans(h: Option<string>): string {
    if h.None? then "" else h.value
  }

  function EdgeMeans(e: Edge): EdgeMeaning {
    EdgeMeaning(e.source, e.target, HandleMeans(e.sourceHandle), HandleMeans(e.targetHandle))
  }

  predicate SoundNode(n: Node) {
    n.content.Some? ==> Sound(n.content.value)
  }

  predicate SoundGraph(g: Graph) {
    forall i :: 0 <= i < |g.nodes| ==> SoundNode(g.nodes[i])
  }

  predicate UniqueIds(g: Graph) {
    forall i, j :: 0 <= i < j < |g.nodes| ==> g.nodes[i].id != g.nodes[j].id
  }

  function NodesMean(nodes: seq<Node>): (r: seq<NodeMeaning>)
    ensures |r| == |nodes| && forall i :: 0 <= i < |nodes| ==> r[i] == NodeMeans(nodes[i])
  {
    seq(|nodes|, i requires 0 <= i < |nodes| => NodeMeans(nodes[i]))
  }

  function EdgesMean(edges: seq<Edge>): (r: seq<EdgeMeaning>)
    ensures |r| == |edges| && forall i :: 0 <= i < |edges| ==> r[i] == EdgeMeans(edges[i])
  {
    seq(|edges|, i requires 0 <= i < |edges| => EdgeMeans(edges[i]))
  }

  function NodeMeanings(g: Graph): multiset<NodeMeaning> {
    multiset(NodesMean(g.nodes))
  }

  function EdgeMeanings(g: Graph): multiset<EdgeMeaning> {
    multiset(EdgesMean(g.edges))
  }

  /** The graphs have the same nodes and the same edges, in what a node or an edge means. */
  predicate SameMeaning(g: Graph, h: Graph) {
    NodeMeanings(g) == NodeMeanings(h) && EdgeMeanings(g) == EdgeMeanings(h)
  }

  // ----- what the collation has to tell apart -----

  predicate ContentApart(le: Order, n: Node) {
    ContentOf(n).Some? ==> Apart(le, Mean(ContentOf(n).value))
  }

  predicate AllApart(le: Order, nodes: seq<Node>) {
    forall i :: 0 <= i < |nodes| ==> ContentApart(le, nodes[i])
  }

  /** Nodes whose ids the collation equates mean the same. */
  predicate NodesTold(le: Order, nodes: seq<Node>) {
    forall i, j :: 0 <= i < |nodes| && 0 <= j < |nodes| && Ties(le, nodes[i].id, nodes[j].id)
      ==> NodeMeans(nodes[i]) == NodeMeans(nodes[j])
  }

  predicate EdgesTold(le: Order, edges: seq<Edge>) {
    forall i, j :: 0 <= i < |edges| && 0 <= j < |edges| && Ties(le, EdgeMember(edges[i]).key, EdgeMember(edges[j]).key)
      ==> EdgeMeans(edges[i]) == EdgeMeans(edges[j])
  }

  /**
   The collation tells apart the keys in the nodes' contents, and different
   nodes and edges by what they are sorted by.
   */
  predicate Told(le: Order, g: Graph) {
    AllApart(le, g.nodes) && NodesTold(le, g.nodes) && EdgesTold(le, g.edges)
  }

  // ----- filling in defaults -----

  lemma {:induction false} FoundHasKey(fs: seq<Field>, key: string)
    ensures Find(fs, key).Some? ==> HasKey(fs, key)
  {
    FindWhere(fs, key);
  }

  lemma {:induction false} ReplacedFind(fs: seq<Field>, key: string, value: Raw, k: string)
    ensures Find(Replaced(fs, key, value), k) == if k == key && HasKey(fs, key) then Some(value) else Find(fs, k)
  {
    if fs != [] {
      var n := |fs| - 1;
      assert Replaced(fs, key, value)[..n] == Replaced(fs[..n], key, value);
      ReplacedFind(fs[..n], key, value, k);
      if k == key && fs[n].key != key {
        assert HasKey(fs, key) <==> HasKey(fs[..n], key) by {
          assert forall i :: 0 <= i < n ==> fs[..n][i] == fs[i];
        }
      }
    }
  }

  lemma {:induction false} AppendedFind(fs: seq<Field>, key: string, value: Raw, k: string)
    ensures Find(fs + [Field(key, Some(value))], k) == if k == key then Some(value) else Find(fs, k)
  {
    assert (fs + [Field(key, Some(value))])[..|fs|] == fs;
  }

  lemma {:induction false} AssignIs(fs: seq<Field>, key: string, value: Raw)
    requires Unrepeated(fs)
    ensures Unrepeated(Assign(fs, key, value))
    ensures forall k :: Find(Assign(fs, key, value), k) == if k == key then Some(value) else Find(fs, k)
    ensures forall f :: f in Assign(fs, key, value) ==> f == Field(key, Some(value)) || f in fs
    ensures forall f :: f in Assign(fs, key, value) && f.key == key ==> f.value == Some(value)
  {
    hide Find;
    forall k
      ensures Find(Assign(fs, key, value), k) == if k == key then Some(value) else Find(fs, k)
    {
      ReplacedFind(fs, key, value, k);
      AppendedFind(fs, key, value, k);
    }
  }

  predicate SoundFields(fs: seq<Field>) {
    Unrepeated(fs) && forall f :: f in fs && f.value.Some? ==> Sound(f.value.value)
  }

  lemma {:induction false} AssignSound(fs: seq<Field>, key: string, value: Raw)
    requires SoundFields(fs) && Sound(value)
    ensures SoundFields(Assign(fs, key, value))
  {
    hide Sound;
    AssignIs(fs, key, value);
  }

  lemma {:induction false} SpreadSound(r: Raw)
    requires (r.RObj? || r.RArr?) && Sound(r)
    ensures SoundFields(Spread(r))
  {
    if r.RArr? {
      forall i, j | 0 <= i < j < |r.items|
        ensures NatDigits(i) != NatDigits(j)
      {
        NatDigitsValue(i);
        NatDigitsValue(j);
      }
    }
  }

  lemma {:induction false} OrElseSound(fs: seq<Field>, key: string, fallback: Raw)
    requires SoundFields(fs) && Sound(fallback)
    ensures Sound(OrElse(fs, key, fallback))
  {
    FindWhere(fs, key);
  }

  const KEYS := {"passThrough", "executionMode", "inputField", "outputPath"}

  function Default(key: string): Raw {
    if key == "passThrough" then RBool(false) else if key == "executionMode" then RStr("single") else RNull
  }

  /** The filled fields: each of the four keys has its own value or its default, the others are as they were. */
  lemma {:induction false} FilledIs(fs: seq<Field>)
    requires SoundFields(fs)
    ensures SoundFields(Filled(fs))
    ensures forall k :: Find(Filled(fs), k) == if k in KEYS then Some(OrElse(fs, k, Default(k))) else Find(fs, k)
  {
    hide Assign, OrElse, Find, SoundFields;
    DistinctKeys();
    FilledOnce(fs, fs, "passThrough");
    var a := Assign(fs, "passThrough", OrElse(fs, "passThrough", RBool(false)));
    FilledOnce(fs, a, "executionMode");
    var b := Assign(a, "executionMode", OrElse(fs, "executionMode", RStr("single")));
    FilledOnce(fs, b, "inputField");
    var c := Assign(b, "inputField", OrElse(fs, "inputField", RNull));
    FilledOnce(fs, c, "outputPath");
  }

  lemma {:induction false} DistinctKeys()
    ensures "passThrough" != "executionMode" && "passThrough" != "inputField" && "passThrough" != "outputPath"
    ensures "executionMode" != "inputField" && "executionMode" != "outputPath" && "inputField" != "outputPath"
  {
    assert |"passThrough"| == 11 && |"executionMode"| == 13 && "inputField"[0] != "outputPath"[0];
  }

  lemma {:induction false} FilledOnce(fs: seq<Field>, gs: seq<Field>, key: string)
    requires SoundFields(fs) && SoundFields(gs)
    ensures var value := OrElse(fs, key, Default(key)); var r := Assign(gs, key, value);
      SoundFields(r) && forall k :: Find(r, k) == if k == key then Some(value) else Find(gs, k)
  {
    hide Assign, OrElse, Find, Sound;
    DefaultSound(key);
    OrElseSound(fs, key, Default(key));
    AssignSound(gs, key, OrElse(fs, key, Default(key)));
    AssignIs(gs, key, OrElse(fs, key, Default(key)));
  }

  lemma {:induction false} DefaultSound(key: string)
    ensures Sound(Default(key))
  {
  }

  lemma {:induction false} ContentSound(n: Node)
    requires SoundNode(n)
    ensures ContentOf(n).Some? ==> Sound(ContentOf(n).value)
  {
    hide Filled;
    if n.kind == TABLE && n.content.Some? && (n.content.value.RObj? || n.content.value.RArr?) {
      SpreadSound(n.content.value);
      FilledIs(Spread(n.content.value));
      var fs := Filled(Spread(n.content.value));
      assert forall i :: 0 <= i < |fs| ==> fs[i] in fs;
    }
  }

  // ----- canonical values print as JSON -----

  lemma {:induction false} CanonWf(le: Order, r: Raw)
    requires Sound(r)
    ensures Wf(Canon(le, r))
    decreases r, 1
  {
    match r {
      case RArr(items) =>
        forall i | 0 <= i < |items|
          ensures Wf(Canon(le, items[i]))
        {
          CanonWf(le, items[i]);
        }
        assert forall i :: 0 <= i < |items| ==> Canon(le, r).items[i] == Canon(le, items[i]);
      case RObj(fs) =>
        KeptWf(le, r, |fs|);
        var p, q := KeptMembers(le, r, |fs|), SortMembers(le, KeptMembers(le, r, |fs|));
        forall i | 0 <= i < |q|
          ensures Wf(q[i].value)
        {
          assert q[i] in multiset(q);
          assert q[i] in multiset(p);
          assert q[i] in p;
        }
      case _ =>
    }
  }

  lemma {:induction false} KeptWf(le: Order, r: Raw, n: nat)
    requires r.RObj? && Sound(r) && n <= |r.fields|
    ensures forall m :: m in KeptMembers(le, r, n) ==> Wf(m.value)
    decreases r, 0, n
  {
    if n > 0 {
      KeptWf(le, r, n - 1);
      if Kept(r.fields[n - 1]) {
        CanonWf(le, r.fields[n - 1].value.value);
      }
    }
  }

  lemma {:induction false} NodeViewWf(le: Order, n: Node)
    requires SoundNode(n)
    ensures Wf(NodeView(le, n))
  {
    hide Canon;
    ContentSound(n);
    if ContentOf(n).Some? {
      CanonWf(le, ContentOf(n).value);
    }
  }

  lemma {:induction false} SortedWf(le: Order, s: seq<Member>)
    requires forall i :: 0 <= i < |s| ==> Wf(s[i].value)
    ensures Wf(Arr(Values(SortMembers(le, s))))
  {
    hide SortMembers;
    var q := SortMembers(le, s);
    forall i | 0 <= i < |q|
      ensures Wf(q[i].value)
    {
      assert q[i] in multiset(q);
      assert q[i] in multiset(s);
      assert q[i] in s;
    }
  }

  lemma {:induction false} EdgeViewWf(e: Edge)
    ensures Wf(EdgeView(e))
  {
  }

  /** The text comparison is a comparison of the sorted lists of views. */
  lemma {:induction false} SameLists(le: Order, g: Graph, h: Graph)
    requires SoundGraph(g) && SoundGraph(h)
    ensures SameGraphLogic(le, g, h) <==>
      Values(NodeList(le, g)) == Values(NodeList(le, h)) && Values(EdgeList(le, g)) == Values(EdgeList(le, h))
  {
    hide NodeView, EdgeView, Print;
    NormalWf(le, g);
    NormalWf(le, h);
    PrintInjective(Normal(le, g), Normal(le, h));
    var a, b := Normal(le, g), Normal(le, h);
    assert a == b <==> a.members[0] == b.members[0] && a.members[1] == b.members[1];
  }

  lemma {:induction false} NormalWf(le: Order, g: Graph)
    requires SoundGraph(g)
    ensures Wf(Normal(le, g))
  {
    hide NodeView, EdgeView, Print, SortMembers;
    forall i | 0 <= i < |g.nodes|
      ensures Wf(NodeView(le, g.nodes[i]))
    {
      NodeViewWf(le, g.nodes[i]);
    }
    forall i | 0 <= i < |g.edges|
      ensures Wf(EdgeView(g.edges[i]))
    {
      EdgeViewWf(g.edges[i]);
    }
    SortedWf(le, NodeMembers(le, g.nodes));
    SortedWf(le, EdgeMembers(g.edges));
  }

  // ----- from views to meanings -----

  lemma {:induction false} ViewParts(le: Order, n: Node)
    ensures var a := NodeView(le, n).members;
      && |a| == (if ContentOf(n).Some? then 3 else 2) && a[0].value == Str(n.id) && a[1].value == Str(n.kind)
      && (ContentOf(n).Some? ==> a[2] == Member("content", Canon(le, ContentOf(n).value)))
  {
    hide Canon, ContentOf;
  }

  lemma {:induction false} NodeViewMeans(le: Order, n: Node, o: Node)
    requires Collates(le) && SoundNode(n) && SoundNode(o)
    ensures NodeView(le, n) == NodeView(le, o) ==> NodeMeans(n) == NodeMeans(o)
    ensures ContentApart(le, n) && NodeMeans(n) == NodeMeans(o) ==> NodeView(le, n) == NodeView(le, o)
  {
    hide Canon, Mean, ContentOf, Collates, Apart;
    ContentSound(n);
    ContentSound(o);
    ViewParts(le, n);
    ViewParts(le, o);
    if ContentOf(n).Some? && ContentOf(o).Some? {
      CanonIffMean(le, ContentOf(n).value, ContentOf(o).value);
    }
  }

  lemma {:induction false} EdgeViewIffMeans(e: Edge, f: Edge)
    ensures EdgeMember(e) == EdgeMember(f) <==> EdgeMeans(e) == EdgeMeans(f)
    ensures EdgeMember(e).key == EdgeMember(f).key <==> EdgeMeans(e) == EdgeMeans(f)
  {
    hide Print;
    EdgeViewWf(e);
    EdgeViewWf(f);
    PrintInjective(EdgeView(e), EdgeView(f));
    var a, b := EdgeView(e).members, EdgeView(f).members;
    assert a == b <==> a[0] == b[0] && a[1] == b[1] && a[2] == b[2] && a[3] == b[3];
  }

  /** Equal elements have equal images. */
  predicate Images<B(==), C(==)>(u: seq<B>, v: seq<B>, s: seq<C>, t: seq<C>) {
    && |u| == |s| && |v| == |t|
    && forall i, j :: 0 <= i < |u| && 0 <= j < |v| && u[i] == v[j] ==> s[i] == t[j]
  }

  function Without<B>(v: seq<B>, j: nat): (r: seq<B>)
    requires j < |v|
    ensures multiset(v) == multiset(r) + multiset{v[j]} && |r| == |v| - 1
    ensures forall l :: 0 <= l < |r| ==> r[l] == v[if l < j then l else l + 1]
  {
    assert v == v[..j] + [v[j]] + v[j + 1..];
    v[..j] + v[j + 1..]
  }

  lemma {:induction false} ImagesWithout<B, C>(u: seq<B>, v: seq<B>, s: seq<C>, t: seq<C>, j: nat)
    requires Images(u, v, s, t) && u != [] && j < |v|
    ensures Images(Without(u, 0), Without(v, j), Without(s, 0), Without(t, j))
    ensures u[0] == v[j] ==> s[0] == t[j]
  {
  }

  lemma {:induction false} WithoutSame<B>(u: seq<B>, v: seq<B>, i: nat, j: nat)
    requires i < |u| && j < |v| && u[i] == v[j]
    ensures multiset(u) == multiset(v) <==> multiset(Without(u, i)) == multiset(Without(v, j))
  {
    assert multiset(Without(u, i)) == multiset(u) - multiset{u[i]};
    assert multiset(Without(v, j)) == multiset(v) - multiset{v[j]};
  }

  /** Lists with the same elements have the same images, where equal elements have equal images. */
  lemma {:induction false} SameImages<B, C>(u: seq<B>, v: seq<B>, s: seq<C>, t: seq<C>)
    requires Images(u, v, s, t) && multiset(u) == multiset(v)
    ensures multiset(s) == multiset(t)
    decreases |u|
  {
    hide Images;
    assert |u| == |multiset(u)| == |multiset(v)| == |v|;
    ImagesLength(u, v, s, t);
    if u != [] {
      assert u[0] in multiset(v);
      var j :| 0 <= j < |v| && v[j] == u[0];
      ImagesWithout(u, v, s, t, j);
      WithoutSame(u, v, 0, j);
      SameImages(Without(u, 0), Without(v, j), Without(s, 0), Without(t, j));
      WithoutSame(s, t, 0, j);
    }
  }

  lemma {:induction false} ImagesLength<B, C>(u: seq<B>, v: seq<B>, s: seq<C>, t: seq<C>)
    requires Images(u, v, s, t)
    ensures |u| == |s| && |v| == |t|
  {
  }

  // ----- which graphs are equated -----

  lemma {:induction false} MeansSameId(n: Node, o: Node)
    requires NodeMeans(n) == NodeMeans(o)
    ensures n.id == o.id
  {
  }

  lemma {:induction false} NodeMemberMeans(le: Order, n: Node, o: Node)
    requires Collates(le) && SoundNode(n) && SoundNode(o)
    ensures NodeMember(le, n) == NodeMember(le, o) ==> NodeMeans(n) == NodeMeans(o)
    ensures ContentApart(le, n) && NodeMeans(n) == NodeMeans(o) ==> NodeMember(le, n) == NodeMember(le, o)
  {
    hide NodeView, NodeMeans, Collates, ContentApart, SoundNode;
    NodeViewMeans(le, n, o);
    if NodeMeans(n) == NodeMeans(o) { MeansSameId(n, o); }
  }

  lemma {:induction false} NodeKeysTell(le: Order, nodes: seq<Node>)
    requires Collates(le) && NodesTold(le, nodes) && AllApart(le, nodes)
    requires forall i :: 0 <= i < |nodes| ==> SoundNode(nodes[i])
    ensures KeysTell(le, NodeMembers(le, nodes))
  {
    hide NodeView, NodeMeans, Collates, ContentApart, SoundNode, Ties;
    var s := NodeMembers(le, nodes);
    forall a, b | a in s && b in s && Ties(le, a.key, b.key)
      ensures a == b
    {
      var i :| 0 <= i < |s| && s[i] == a;
      var j :| 0 <= j < |s| && s[j] == b;
      NodeMemberMeans(le, nodes[i], nodes[j]);
    }
  }

  lemma {:induction false} NodeListsMean(le: Order, g: Graph, h: Graph)
    requires Collates(le) && SoundGraph(g) && SoundGraph(h)
    ensures NodeList(le, g) == NodeList(le, h) ==> NodeMeanings(g) == NodeMeanings(h)
    ensures NodesTold(le, g.nodes) && AllApart(le, g.nodes) && NodeMeanings(g) == NodeMeanings(h)
      ==> NodeList(le, g) == NodeList(le, h)
  {
    hide NodeMember, NodeMeans, SortMembers, Collates, ContentApart, SoundNode, KeysTell, NodesTold;
    var p, q := g.nodes, h.nodes;
    var u, v, s, t := NodeMembers(le, p), NodeMembers(le, q), NodesMean(p), NodesMean(q);
    SortForgetsOrder(le, u, v);
    forall i, j | 0 <= i < |p| && 0 <= j < |q|
      ensures u[i] == v[j] ==> s[i] == t[j]
      ensures AllApart(le, p) && s[i] == t[j] ==> u[i] == v[j]
    {
      NodeMemberMeans(le, p[i], q[j]);
    }
    if NodeList(le, g) == NodeList(le, h) {
      SameImages(u, v, s, t);
    }
    if NodesTold(le, p) && AllApart(le, p) && NodeMeanings(g) == NodeMeanings(h) {
      SameImages(s, t, u, v);
      NodeKeysTell(le, p);
    }
  }

  lemma {:induction false} EdgeKeysTell(le: Order, edges: seq<Edge>)
    requires EdgesTold(le, edges)
    ensures KeysTell(le, EdgeMembers(edges))
  {
    hide EdgeMember, EdgeMeans, Ties;
    var s := EdgeMembers(edges);
    forall a, b | a in s && b in s && Ties(le, a.key, b.key)
      ensures a == b
    {
      var i :| 0 <= i < |s| && s[i] == a;
      var j :| 0 <= j < |s| && s[j] == b;
      EdgeViewIffMeans(edges[i], edges[j]);
    }
  }

  lemma {:induction false} EdgeListsMean(le: Order, g: Graph, h: Graph)
    requires Collates(le)
    ensures EdgeList(le, g) == EdgeList(le, h) ==> EdgeMeanings(g) == EdgeMeanings(h)
    ensures EdgesTold(le, g.edges) && EdgeMeanings(g) == EdgeMeanings(h) ==> EdgeList(le, g) == EdgeList(le, h)
  {
    hide EdgeMember, EdgeMeans, SortMembers, Collates, KeysTell, EdgesTold;
    var p, q := g.edges, h.edges;
    var u, v, s, t := EdgeMembers(p), EdgeMembers(q), EdgesMean(p), EdgesMean(q);
    SortForgetsOrder(le, u, v);
    forall i, j | 0 <= i < |p| && 0 <= j < |q|
      ensures u[i] == v[j] <==> s[i] == t[j]
    {
      EdgeViewIffMeans(p[i], q[j]);
    }
    if EdgeList(le, g) == EdgeList(le, h) {
      SameImages(u, v, s, t);
    }
    if EdgesTold(le, p) && EdgeMeanings(g) == EdgeMeanings(h) {
      SameImages(s, t, u, v);
      EdgeKeysTell(le, p);
    }
  }

  /** The views in a sorted list determine the list. */
  lemma {:induction false} NodeValues(le: Order, g: Graph, h: Graph)
    ensures Values(NodeList(le, g)) == Values(NodeList(le, h)) <==> NodeList(le, g) == NodeList(le, h)
  {
    hide SortMembers, NodeView;
    var s, t := NodeList(le, g), NodeList(le, h);
    if Values(s) == Values(t) {
      forall i | 0 <= i < |s|
        ensures s[i] == t[i]
      {
        assert s[i].value == Values(s)[i] == Values(t)[i] == t[i].value;
        var n := MemberOfNode(le, g, s[i]);
        var o := MemberOfNode(le, h, t[i]);
        ViewParts(le, n);
        ViewParts(le, o);
      }
    }
  }

  lemma {:induction false} MemberOfNode(le: Order, g: Graph, m: Member) returns (n: Node)
    requires m in NodeList(le, g)
    ensures m == NodeMember(le, n)
  {
    hide SortMembers, NodeView;
    var s := NodeMembers(le, g.nodes);
    assert m in multiset(SortMembers(le, s));
    assert m in multiset(s);
    var i :| 0 <= i < |s| && s[i] == m;
    n := g.nodes[i];
  }

  lemma {:induction false} EdgeValues(le: Order, g: Graph, h: Graph)
    ensures Values(EdgeList(le, g)) == Values(EdgeList(le, h)) <==> EdgeList(le, g) == EdgeList(le, h)
  {
    hide SortMembers, EdgeView, Print;
    var s, t := EdgeList(le, g), EdgeList(le, h);
    if Values(s) == Values(t) {
      forall i | 0 <= i < |s|
        ensures s[i] == t[i]
      {
        assert s[i].value == Values(s)[i] == Values(t)[i] == t[i].value;
        MemberOfEdge(le, g, s[i]);
        MemberOfEdge(le, h, t[i]);
      }
    }
  }

  lemma {:induction false} MemberOfEdge(le: Order, g: Graph, m: Member)
    requires m in EdgeList(le, g)
    ensures m.key == Print(m.value)
  {
    hide SortMembers, EdgeView, Print;
    var s := EdgeMembers(g.edges);
    assert m in multiset(SortMembers(le, s));
    assert m in multiset(s);
    var i :| 0 <= i < |s| && s[i] == m;
  }

  /** The text comparison is a comparison of the sorted lists. */
  lemma {:induction false} SameMemberLists(le: Order, g: Graph, h: Graph)
    requires SoundGraph(g) && SoundGraph(h)
    ensures SameGraphLogic(le, g, h) <==> NodeList(le, g) == NodeList(le, h) && EdgeList(le, g) == EdgeList(le, h)
  {
    hide NodeList, EdgeList, SameGraphLogic, Values;
    SameLists(le, g, h);
    NodeValues(le, g, h);
    EdgeValues(le, g, h);
  }

  /**
   Under every collation only graphs with the same nodes and the same edges are
   equated, in what a node or an edge means: names, positions, edge ids and the
   order of anything but array items play no part.  All such graphs are
   equated where the collation tells apart what has to be told.
   */
  lemma {:induction false} SameLogicIff(le: Order, g: Graph, h: Graph)
    requires Collates(le) && SoundGraph(g) && SoundGraph(h)
    ensures SameGraphLogic(le, g, h) ==> SameMeaning(g, h)
    ensures Told(le, g) && SameMeaning(g, h) ==> SameGraphLogic(le, g, h)
  {
    hide NodeList, EdgeList, SameGraphLogic, NodeMeanings, EdgeMeanings, NodesTold, EdgesTold, Collates, ContentApart;
    SameMemberLists(le, g, h);
    NodeListsMean(le, g, h);
    EdgeListsMean(le, g, h);
  }

  lemma {:induction false} TwoNodes(le: Order, a: Node, b: Node, edges: seq<Edge>)
    ensures NodeMeanings(Graph([a, b], edges)) == multiset{NodeMeans(a), NodeMeans(b)}
    ensures Ties(le, a.id, b.id) ==> NodeList(le, Graph([a, b], edges)) == [NodeMember(le, a), NodeMember(le, b)]
  {
    hide NodeView, NodeMeans, SortMembers;
    var nodes := [a, b];
    assert NodesMean(nodes) == [NodeMeans(a), NodeMeans(b)];
    assert NodeMembers(le, nodes) == [NodeMember(le, a), NodeMember(le, b)];
    if Ties(le, a.id, b.id) {
      SortPair(le, NodeMember(le, a), NodeMember(le, b));
    }
  }

  /** Two nodes whose ids are the same, or equated, may not be exchanged, unless they mean the same. */
  lemma {:induction false} RepeatedIdsKeepTheirOrder(le: Order, a: Node, b: Node, edges: seq<Edge>)
    requires Collates(le) && Ties(le, a.id, b.id) && SoundNode(a) && SoundNode(b)
    ensures NodeMeanings(Graph([a, b], edges)) == NodeMeanings(Graph([b, a], edges))
    ensures SameGraphLogic(le, Graph([a, b], edges), Graph([b, a], edges)) ==> NodeMeans(a) == NodeMeans(b)
    ensures ContentApart(le, a) && NodeMeans(a) == NodeMeans(b)
      ==> SameGraphLogic(le, Graph([a, b], edges), Graph([b, a], edges))
  {
    hide NodeView, NodeMeans, SameGraphLogic, NodeList, EdgeList, NodeMeanings, SoundNode, Collates, ContentApart;
    var g, h := Graph([a, b], edges), Graph([b, a], edges);
    assert EdgeList(le, g) == EdgeList(le, h) by { SameEdges(le, g, h); }
    TiesSwap(le, a.id, b.id);
    TwoNodes(le, a, b, edges);
    TwoNodes(le, b, a, edges);
    SameMemberLists(le, g, h);
    NodeMemberMeans(le, a, b);
    assert [NodeMember(le, a), NodeMember(le, b)] == [NodeMember(le, b), NodeMember(le, a)]
           <==> NodeMember(le, a) == NodeMember(le, b) by {
      assert [NodeMember(le, a), NodeMember(le, b)][0] == NodeMember(le, a);
      assert [NodeMember(le, b), NodeMember(le, a)][0] == NodeMember(le, b);
    }
  }

  lemma {:induction false} SameEdges(le: Order, g: Graph, h: Graph)
    requires g.edges == h.edges
    ensures EdgeList(le, g) == EdgeList(le, h)
  {
  }

  lemma {:induction false} SortPair(le: Order, a: Member, b: Member)
    requires Ties(le, a.key, b.key)
    ensures SortMembers(le, [a, b]) == [a, b]
  {
    assert [a, b][..1] == [a] && [a][..0] == [];
    assert SortMembers(le, [a]) == [a];
    assert [a][1..] == [];
  }
  // ----- edits that do not count -----

  lemma {:induction false} NotKeptNext(le: Order, r: Raw, n: nat)
    requires r.RObj? && n < |r.fields| && !Kept(r.fields[n])
    ensures KeptMembers(le, r, n + 1) == KeptMembers(le, r, n)
  {
    hide Canon;
  }

  lemma {:induction false} LastNotKept(le: Order, fs: seq<Field>, f: Field)
    requires !Kept(f)
    ensures Canon(le, RObj(fs + [f])) == Canon(le, RObj(fs))
  {
    hide Canon, SortMembers, Kept;
    var gs := fs + [f];
    assert gs[..|fs|] == fs && fs[..|fs|] == fs;
    NotKeptNext(le, RObj(gs), |fs|);
    KeptPrefix(le, RObj(gs), RObj(fs), |fs|);
    CanonIs(le, RObj(gs));
    CanonIs(le, RObj(fs));
  }

  /** A `_diff` field, or an undefined one, counts for nothing. */
  lemma {:induction false} DiffIsNothing(le: Order, fs: seq<Field>, f: Field)
    requires Unrepeated(fs + [f]) && (f.key == "_diff" || f.value == None)
    ensures Mean(RObj(fs + [f])) == Mean(RObj(fs))
    ensures Canon(le, RObj(fs + [f])) == Canon(le, RObj(fs))
  {
    hide Mean, Canon, KeptMembers;
    LastNotKept(le, fs, f);
    var gs := fs + [f];
    assert gs[..|fs|] == fs;
    assert forall i, j :: 0 <= i < j < |fs| ==> gs[i].key != gs[j].key;
    forall k | k != "_diff"
      ensures Find(gs, k) == Find(fs, k)
    {
      if f.key == k {
        FindNext(RObj(gs), |gs|, k);
        assert gs[..|gs|] == gs;
      }
    }
    MeanObjects(RObj(gs), RObj(fs));
  }

  /** A default written out in a decision table counts for nothing. */
  lemma {:induction false} DefaultIsNothing(n: Node, fs: seq<Field>, key: string)
    requires n.kind == TABLE && n.content == Some(RObj(fs)) && SoundNode(n) && key in KEYS
    requires Find(fs, key) == None || Find(fs, key) == Some(RNull)
    ensures NodeMeans(n.(content := Some(RObj(Assign(fs, key, Default(key)))))) == NodeMeans(n)
  {
    hide Mean, Filled, Find, Assign, KEYS;
    assert SoundFields(fs) by { SpreadSound(RObj(fs)); }
    DefaultSound(key);
    AssignSound(fs, key, Default(key));
    AssignIs(fs, key, Default(key));
    var gs := Assign(fs, key, Default(key));
    FilledIs(fs);
    FilledIs(gs);
    forall k
      ensures Find(Filled(gs), k) == Find(Filled(fs), k)
    {
    }
    MeanObjects(RObj(Filled(gs)), RObj(Filled(fs)));
  }
}
