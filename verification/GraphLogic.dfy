/**
 Canonical forms of values (web/src/features/analysis/model.ts), for whatever
 collation the keys are sorted by, and the values they tell apart.
 */
module GraphLogic {
  import opened Common
  import opened Json
  import opened Collation

  /** A value in memory.  A field without a value is `undefined`. */
  datatype Raw =
    | RNull
    | RBool(b: bool)
    | RNum(digits: string)
    | RStr(s: string)
    | RArr(items: seq<Raw>)
    | RObj(fields: seq<Field>)

  datatype Field = Field(key: string, value: Option<Raw>)

  predicate Unrepeated(fs: seq<Field>) {
    forall i, j :: 0 <= i < j < |fs| ==> fs[i].key != fs[j].key
  }

  /** Numbers have a number's text, and no object repeats a key. */
  predicate Sound(r: Raw) {
    match r
    case RNum(t) => NumText(t)
    case RArr(items) => forall i :: 0 <= i < |items| ==> Sound(items[i])
    case RObj(fs) => Unrepeated(fs) && forall i :: 0 <= i < |fs| && fs[i].value.Some? ==> Sound(fs[i].value.value)
    case _ => true
  }

  predicate Kept(f: Field) {
    f.value.Some? && f.key != "_diff"
  }

  /** The value of a key; `None` when it is missing or undefined. */
  function Find(fs: seq<Field>, key: string): Option<Raw> {
    if fs == [] then None
    else if fs[|fs| - 1].key == key then fs[|fs| - 1].value
    else Find(fs[..|fs| - 1], key)
  }

  lemma {:induction false} SameMembers(p: seq<Member>, q: seq<Member>)
    requires forall i, j :: 0 <= i < j < |p| ==> p[i].key != p[j].key
    requires forall i, j :: 0 <= i < j < |q| ==> q[i].key != q[j].key
    requires forall m :: m in p <==> m in q
    ensures multiset(p) == multiset(q)
  {
    forall m
      ensures multiset(p)[m] == multiset(q)[m]
    {
      CountOnce(p, m);
      CountOnce(q, m);
    }
  }

  lemma {:induction false} CountOnce(p: seq<Member>, m: Member)
    requires forall i, j :: 0 <= i < j < |p| ==> p[i].key != p[j].key
    ensures multiset(p)[m] == if m in p then 1 else 0
  {
    if p != [] {
      var n := |p| - 1;
      CountOnce(p[..n], m);
      assert p == p[..n] + [p[n]];
    }
  }

  // ----- the canonical form -----

  function Canon(le: Order, r: Raw): Json
    decreases r, 1
  {
    match r
    case RNull => Null
    case RBool(b) => Bool(b)
    case RNum(t) => Num(t)
    case RStr(s) => Str(s)
    case RArr(items) => Arr(seq(|items|, i requires 0 <= i < |items| => Canon(le, items[i])))
    case RObj(fs) => Obj(SortMembers(le, KeptMembers(le, r, |fs|)))
  }

  /** The first `n` fields that are kept, canonical. */
  function KeptMembers(le: Order, r: Raw, n: nat): seq<Member>
    requires r.RObj? && n <= |r.fields|
    decreases r, 0, n
  {
    if n == 0 then []
    else
      var f := r.fields[n - 1];
      KeptMembers(le, r, n - 1) + (if Kept(f) then [Member(f.key, Canon(le, f.value.value))] else [])
  }

  // ----- what a value means: an object is a map from its keys -----

  datatype Meaning =
    | MNull
    | MBool(b: bool)
    | MNum(digits: string)
    | MStr(s: string)
    | MList(items: seq<Meaning>)
    | MRecord(fields: map<string, Meaning>)

  function Mean(r: Raw): Meaning
    decreases r, 1
  {
    match r
    case RNull => MNull
    case RBool(b) => MBool(b)
    case RNum(t) => MNum(t)
    case RStr(s) => MStr(s)
    case RArr(items) => MList(seq(|items|, i requires 0 <= i < |items| => Mean(items[i])))
    case RObj(fs) => MRecord(KeptMeanings(r, |fs|))
  }

  function KeptMeanings(r: Raw, n: nat): map<string, Meaning>
    requires r.RObj? && n <= |r.fields|
    decreases r, 0, n
  {
    if n == 0 then map[]
    else
      var f := r.fields[n - 1];
      if Kept(f) then KeptMeanings(r, n - 1)[f.key := Mean(f.value.value)] else KeptMeanings(r, n - 1)
  }

  lemma {:induction false} FindIs(fs: seq<Field>, i: nat)
    requires Unrepeated(fs) && i < |fs|
    ensures Find(fs, fs[i].key) == fs[i].value
  {
    if i < |fs| - 1 {
      assert fs[..|fs| - 1][i] == fs[i];
      FindIs(fs[..|fs| - 1], i);
    }
  }

  lemma {:induction false} FindWhere(fs: seq<Field>, key: string)
    ensures Find(fs, key).Some? ==> exists i :: 0 <= i < |fs| && fs[i].key == key && fs[i].value == Find(fs, key)
  {
    if fs != [] && fs[|fs| - 1].key != key {
      var front := fs[..|fs| - 1];
      FindWhere(front, key);
      assert forall i :: 0 <= i < |front| ==> front[i] == fs[i];
    }
  }

  /** What an object holds under a key that is kept. */
  function Held(r: Raw, key: string): Option<Raw>
    requires r.RObj?
  {
    if key == "_diff" then None else Find(r.fields, key)
  }

  predicate HeldIn(r: Raw, n: nat, key: string)
    requires r.RObj? && n <= |r.fields|
  {
    key != "_diff" && Find(r.fields[..n], key).Some?
  }

  lemma {:induction false} FindNext(r: Raw, n: nat, key: string)
    requires r.RObj? && 0 < n <= |r.fields| && Unrepeated(r.fields)
    ensures Find(r.fields[..n], key) ==
      if r.fields[n - 1].key == key then r.fields[n - 1].value else Find(r.fields[..n - 1], key)
    ensures r.fields[n - 1].key == key ==> Find(r.fields[..n - 1], key) == None
  {
    var fs := r.fields[..n];
    assert fs[..n - 1] == r.fields[..n - 1];
    if r.fields[n - 1].key == key {
      FindWhere(r.fields[..n - 1], key);
    }
  }

  lemma {:induction false} KeptMembersAre(le: Order, r: Raw, n: nat)
    requires r.RObj? && n <= |r.fields| && Unrepeated(r.fields)
    ensures forall m :: m in KeptMembers(le, r, n) <==>
      HeldIn(r, n, m.key) && m.value == Canon(le, Find(r.fields[..n], m.key).value)
    ensures forall i, j :: 0 <= i < j < |KeptMembers(le, r, n)| ==>
      KeptMembers(le, r, n)[i].key != KeptMembers(le, r, n)[j].key
  {
    hide Canon, Find;
    if n > 0 {
      KeptMembersAre(le, r, n - 1);
      var f, before := r.fields[n - 1], KeptMembers(le, r, n - 1);
      forall m
        ensures m in KeptMembers(le, r, n) <==>
          HeldIn(r, n, m.key) && m.value == Canon(le, Find(r.fields[..n], m.key).value)
      {
        FindNext(r, n, m.key);
      }
      forall i | 0 <= i < |before|
        ensures before[i].key != f.key
      {
        assert before[i] in before;
        FindNext(r, n, f.key);
      }
    } else {
      NothingFound(r);
    }
  }

  lemma {:induction false} NothingFound(r: Raw)
    requires r.RObj?
    ensures forall key :: Find(r.fields[..0], key) == None
  {
  }

  lemma {:induction false} KeptMeaningsAre(r: Raw, n: nat)
    requires r.RObj? && n <= |r.fields| && Unrepeated(r.fields)
    ensures forall k :: k in KeptMeanings(r, n) <==> HeldIn(r, n, k)
    ensures forall k :: k in KeptMeanings(r, n) && HeldIn(r, n, k) ==>
      KeptMeanings(r, n)[k] == Mean(Find(r.fields[..n], k).value)
  {
    hide Mean, Find;
    if n > 0 {
      KeptMeaningsAre(r, n - 1);
      forall k
        ensures k in KeptMeanings(r, n) <==> HeldIn(r, n, k)
        ensures k in KeptMeanings(r, n) && HeldIn(r, n, k) ==>
          KeptMeanings(r, n)[k] == Mean(Find(r.fields[..n], k).value)
      {
        FindNext(r, n, k);
      }
    } else {
      NothingFound(r);
    }
  }

  predicate CanonAlike(le: Order, x: Option<Raw>, y: Option<Raw>) {
    if x.Some? && y.Some? then Canon(le, x.value) == Canon(le, y.value) else x == y
  }

  predicate MeanAlike(x: Option<Raw>, y: Option<Raw>) {
    if x.Some? && y.Some? then Mean(x.value) == Mean(y.value) else x == y
  }

  /** No two keys that are kept are equated by the collation. */
  predicate FieldsApart(le: Order, fs: seq<Field>) {
    forall i, j :: 0 <= i < |fs| && 0 <= j < |fs| && i != j && Kept(fs[i]) && Kept(fs[j]) ==>
      !Ties(le, fs[i].key, fs[j].key)
  }

  lemma {:induction false} ApartKeysTell(le: Order, r: Raw)
    requires r.RObj? && Unrepeated(r.fields) && FieldsApart(le, r.fields)
    ensures KeysTell(le, KeptMembers(le, r, |r.fields|))
  {
    hide Canon, Find, Ties, KeptMembers;
    var p := KeptMembers(le, r, |r.fields|);
    assert r.fields[..|r.fields|] == r.fields;
    KeptMembersAre(le, r, |r.fields|);
    forall a, b | a in p && b in p && Ties(le, a.key, b.key)
      ensures a == b
    {
      FindWhere(r.fields, a.key);
      FindWhere(r.fields, b.key);
      var i :| 0 <= i < |r.fields| && r.fields[i].key == a.key && r.fields[i].value == Find(r.fields, a.key);
      var j :| 0 <= j < |r.fields| && r.fields[j].key == b.key && r.fields[j].value == Find(r.fields, b.key);
      assert i == j;
    }
  }

  /** Objects with the same canonical form hold the same under every key. */
  lemma {:induction false} CanonTells(le: Order, a: Raw, b: Raw, k: string)
    requires Collates(le) && a.RObj? && b.RObj? && Unrepeated(a.fields) && Unrepeated(b.fields)
    requires Canon(le, a) == Canon(le, b)
    ensures CanonAlike(le, Held(a, k), Held(b, k))
  {
    hide KeptMembers, Find, SortMembers, Collates;
    var p, q := KeptMembers(le, a, |a.fields|), KeptMembers(le, b, |b.fields|);
    assert a.fields[..|a.fields|] == a.fields && b.fields[..|b.fields|] == b.fields;
    KeptMembersAre(le, a, |a.fields|);
    KeptMembersAre(le, b, |b.fields|);
    SortForgetsOrder(le, p, q);
    if Held(a, k).Some? {
      assert Member(k, Canon(le, Held(a, k).value)) in multiset(p);
      assert Member(k, Canon(le, Held(a, k).value)) in multiset(q);
      assert Member(k, Canon(le, Held(a, k).value)) in q;
    }
    if Held(b, k).Some? {
      assert Member(k, Canon(le, Held(b, k).value)) in multiset(q);
      assert Member(k, Canon(le, Held(b, k).value)) in multiset(p);
      assert Member(k, Canon(le, Held(b, k).value)) in p;
    }
  }

  /**
   Objects whose keys are told apart have one canonical form if they hold the
   same under every key, in whatever order.
   */
  lemma {:induction false} CanonObjects(le: Order, a: Raw, b: Raw)
    requires Collates(le) && a.RObj? && b.RObj? && Unrepeated(a.fields) && Unrepeated(b.fields)
    requires FieldsApart(le, a.fields) && forall k :: CanonAlike(le, Held(a, k), Held(b, k))
    ensures Canon(le, a) == Canon(le, b)
  {
    hide KeptMembers, Find, SortMembers, Collates, FieldsApart, KeysTell;
    var p, q := KeptMembers(le, a, |a.fields|), KeptMembers(le, b, |b.fields|);
    assert a.fields[..|a.fields|] == a.fields && b.fields[..|b.fields|] == b.fields;
    KeptMembersAre(le, a, |a.fields|);
    KeptMembersAre(le, b, |b.fields|);
    forall m
      ensures m in p <==> m in q
    {
      assert CanonAlike(le, Held(a, m.key), Held(b, m.key));
    }
    SameMembers(p, q);
    ApartKeysTell(le, a);
    SortForgetsOrder(le, p, q);
  }

  lemma {:induction false} MeanObjects(a: Raw, b: Raw)
    requires a.RObj? && b.RObj? && Unrepeated(a.fields) && Unrepeated(b.fields)
    ensures Mean(a) == Mean(b) <==> forall k :: MeanAlike(Held(a, k), Held(b, k))
  {
    hide KeptMeanings, Find;
    var p, q := KeptMeanings(a, |a.fields|), KeptMeanings(b, |b.fields|);
    assert a.fields[..|a.fields|] == a.fields && b.fields[..|b.fields|] == b.fields;
    KeptMeaningsAre(a, |a.fields|);
    KeptMeaningsAre(b, |b.fields|);
    assert forall k :: k in p <==> Held(a, k).Some?;
    assert forall k :: k in q <==> Held(b, k).Some?;
    if forall k :: MeanAlike(Held(a, k), Held(b, k)) {
      forall k
        ensures k in p <==> k in q
        ensures k in p && k in q ==> p[k] == q[k]
      {
        assert MeanAlike(Held(a, k), Held(b, k));
      }
      assert p == q;
    }
    if p == q {
      forall k
        ensures MeanAlike(Held(a, k), Held(b, k))
      {
        assert k in p <==> k in q;
      }
    }
  }

  lemma {:induction false} HeldIsSmaller(r: Raw, k: string) returns (i: nat)
    requires r.RObj? && Held(r, k).Some?
    ensures i < |r.fields| && r.fields[i].value == Held(r, k) && r.fields[i].key == k && Kept(r.fields[i])
  {
    FindWhere(r.fields, k);
    i :| 0 <= i < |r.fields| && r.fields[i].key == k && r.fields[i].value == Find(r.fields, k);
  }

  /** The collation tells apart the keys of every object in the value. */
  predicate Apart(le: Order, m: Meaning) {
    match m
    case MList(items) => forall i :: 0 <= i < |items| ==> Apart(le, items[i])
    case MRecord(fs) => (forall a, b :: a in fs && b in fs && a != b ==> !Ties(le, a, b))
      && forall k :: k in fs ==> Apart(le, fs[k])
    case _ => true
  }

  lemma {:induction false} KeptHas(r: Raw, i: nat)
    requires r.RObj? && Unrepeated(r.fields) && i < |r.fields|
    ensures var m := KeptMeanings(r, |r.fields|); var f := r.fields[i];
      if Kept(f) then f.key in m && m[f.key] == Mean(f.value.value) else f.key !in m
  {
    hide Mean, Find, KeptMeanings;
    assert r.fields[..|r.fields|] == r.fields;
    KeptMeaningsAre(r, |r.fields|);
    FindIs(r.fields, i);
  }

  lemma {:induction false} KeptComes(r: Raw, k: string) returns (i: nat)
    requires r.RObj? && Unrepeated(r.fields) && k in KeptMeanings(r, |r.fields|)
    ensures i < |r.fields| && r.fields[i].key == k && Kept(r.fields[i])
  {
    hide Mean, Find, KeptMeanings;
    assert r.fields[..|r.fields|] == r.fields;
    KeptMeaningsAre(r, |r.fields|);
    FindWhere(r.fields, k);
    i :| 0 <= i < |r.fields| && r.fields[i].key == k && r.fields[i].value == Find(r.fields, k);
  }

  lemma {:induction false} ApartFields(le: Order, r: Raw)
    requires r.RObj? && Unrepeated(r.fields) && Apart(le, Mean(r))
    ensures FieldsApart(le, r.fields)
    ensures forall i :: 0 <= i < |r.fields| && Kept(r.fields[i]) ==> Apart(le, Mean(r.fields[i].value.value))
  {
    hide KeptMeanings, Ties, Unrepeated;
    assert Unrepeated(r.fields);
    forall i | 0 <= i < |r.fields| && Kept(r.fields[i])
      ensures r.fields[i].key in KeptMeanings(r, |r.fields|)
      ensures KeptMeanings(r, |r.fields|)[r.fields[i].key] == Mean(r.fields[i].value.value)
    {
      KeptHas(r, i);
    }
    forall i, j | 0 <= i < |r.fields| && 0 <= j < |r.fields| && i != j
      ensures r.fields[i].key != r.fields[j].key
    {
      NotRepeated(r.fields, i, j);
    }
  }

  lemma {:induction false} NotRepeated(fs: seq<Field>, i: nat, j: nat)
    requires Unrepeated(fs) && i < |fs| && j < |fs| && i != j
    ensures fs[i].key != fs[j].key
  {
  }

  /**
   Values with the same canonical form mean the same.  Values that mean the
   same, and whose keys the collation tells apart, have the same canonical form.
   */
  lemma {:induction false} CanonIffMean(le: Order, a: Raw, b: Raw)
    requires Collates(le) && Sound(a) && Sound(b)
    ensures Canon(le, a) == Canon(le, b) ==> Mean(a) == Mean(b)
    ensures Apart(le, Mean(a)) && Mean(a) == Mean(b) ==> Canon(le, a) == Canon(le, b)
    decreases a
  {
    hide Collates;
    if a.RArr? && b.RArr? {
      forall i | 0 <= i < |a.items| && i < |b.items|
        ensures Canon(le, a.items[i]) == Canon(le, b.items[i]) ==> Mean(a.items[i]) == Mean(b.items[i])
        ensures Apart(le, Mean(a.items[i])) && Mean(a.items[i]) == Mean(b.items[i]) ==>
          Canon(le, a.items[i]) == Canon(le, b.items[i])
      {
        CanonIffMean(le, a.items[i], b.items[i]);
      }
      ArraysAgree(le, a, b);
    } else if a.RObj? && b.RObj? {
      hide Canon, Mean, Held, Apart;
      forall k
        ensures CanonAlike(le, Held(a, k), Held(b, k)) ==> MeanAlike(Held(a, k), Held(b, k))
        ensures Apart(le, Mean(a)) && MeanAlike(Held(a, k), Held(b, k)) ==> CanonAlike(le, Held(a, k), Held(b, k))
      {
        if Held(a, k).Some? && Held(b, k).Some? {
          var i := HeldIsSmaller(a, k);
          var j := HeldIsSmaller(b, k);
          CanonIffMean(le, a.fields[i].value.value, b.fields[j].value.value);
          if Apart(le, Mean(a)) { ApartFields(le, a); }
        }
      }
      ObjectsAgree(le, a, b);
    }
  }

  lemma {:induction false} ObjectsAgree(le: Order, a: Raw, b: Raw)
    requires Collates(le) && a.RObj? && b.RObj? && Unrepeated(a.fields) && Unrepeated(b.fields)
    requires forall k :: CanonAlike(le, Held(a, k), Held(b, k)) ==> MeanAlike(Held(a, k), Held(b, k))
    requires forall k :: Apart(le, Mean(a)) && MeanAlike(Held(a, k), Held(b, k)) ==>
      CanonAlike(le, Held(a, k), Held(b, k))
    ensures Canon(le, a) == Canon(le, b) ==> Mean(a) == Mean(b)
    ensures Apart(le, Mean(a)) && Mean(a) == Mean(b) ==> Canon(le, a) == Canon(le, b)
  {
    hide Canon, Mean, Held, Apart, Collates, CanonAlike, MeanAlike;
    MeanObjects(a, b);
    if Canon(le, a) == Canon(le, b) {
      forall k
        ensures CanonAlike(le, Held(a, k), Held(b, k))
      {
        CanonTells(le, a, b, k);
      }
    }
    if Apart(le, Mean(a)) && Mean(a) == Mean(b) {
      ApartFields(le, a);
      CanonObjects(le, a, b);
    }
  }

  lemma {:induction false} ArraysAgree(le: Order, a: Raw, b: Raw)
    requires a.RArr? && b.RArr?
    requires forall i :: 0 <= i < |a.items| && i < |b.items| ==>
      (Canon(le, a.items[i]) == Canon(le, b.items[i]) ==> Mean(a.items[i]) == Mean(b.items[i]))
    requires forall i :: 0 <= i < |a.items| && i < |b.items| ==>
      (Apart(le, Mean(a.items[i])) && Mean(a.items[i]) == Mean(b.items[i]) ==>
        Canon(le, a.items[i]) == Canon(le, b.items[i]))
    ensures Canon(le, a) == Canon(le, b) ==> Mean(a) == Mean(b)
    ensures Apart(le, Mean(a)) && Mean(a) == Mean(b) ==> Canon(le, a) == Canon(le, b)
  {
    ItemsAre(le, a);
    ItemsAre(le, b);
    var n := |a.items|;
    if Canon(le, a) == Canon(le, b) {
      assert n == |b.items|;
      assert forall i :: 0 <= i < n ==> Canon(le, a).items[i] == Canon(le, b).items[i];
      assert Mean(a).items == Mean(b).items;
    }
    if Apart(le, Mean(a)) && Mean(a) == Mean(b) {
      assert n == |b.items|;
      assert forall i :: 0 <= i < n ==> Mean(a).items[i] == Mean(b).items[i];
      assert Canon(le, a).items == Canon(le, b).items;
    }
  }

  lemma {:induction false} ItemsAre(le: Order, r: Raw)
    requires r.RArr?
    ensures Canon(le, r).Arr? && |Canon(le, r).items| == |r.items| && Mean(r).MList? && |Mean(r).items| == |r.items|
    ensures forall i :: 0 <= i < |r.items| ==> Canon(le, r).items[i] == Canon(le, r.items[i])
    ensures forall i :: 0 <= i < |r.items| ==> Mean(r).items[i] == Mean(r.items[i])
  {
  }
}
