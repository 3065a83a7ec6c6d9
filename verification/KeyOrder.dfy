/** When the order of an object's keys is forgotten, exactly. */
module KeyOrder {
  import opened Common
  import opened Json
  import opened Collation
  import opened GraphLogic

  // ----- reordering one object -----

  lemma {:induction false} SameFind(fs: seq<Field>, gs: seq<Field>, k: string)
    requires Unrepeated(gs) && forall f :: f in fs ==> f in gs
    ensures Find(fs, k).Some? ==> Find(gs, k) == Find(fs, k)
  {
    if Find(fs, k).Some? {
      FindWhere(fs, k);
      var i :| 0 <= i < |fs| && fs[i].key == k && fs[i].value == Find(fs, k);
      assert fs[i] in gs;
      var j :| 0 <= j < |gs| && gs[j] == fs[i];
      FindIs(gs, j);
    }
  }

  /** `gs` has the fields of `fs`, in some order. */
  ghost predicate Reordered(fs: seq<Field>, gs: seq<Field>) {
    Unrepeated(gs) && forall f :: f in fs <==> f in gs
  }

  lemma {:induction false} ReorderedFind(fs: seq<Field>, gs: seq<Field>, k: string)
    requires Unrepeated(fs) && Reordered(fs, gs)
    ensures Find(fs, k) == Find(gs, k)
  {
    SameFind(fs, gs, k);
    SameFind(gs, fs, k);
  }

  /** Reordering an object's keys leaves its meaning alone. */
  lemma {:induction false} ReorderedMeans(fs: seq<Field>, gs: seq<Field>)
    requires Unrepeated(fs) && Reordered(fs, gs)
    ensures Mean(RObj(fs)) == Mean(RObj(gs))
  {
    hide Mean, Find;
    forall k
      ensures Find(fs, k) == Find(gs, k)
    {
      ReorderedFind(fs, gs, k);
    }
    MeanObjects(RObj(fs), RObj(gs));
  }

  lemma {:induction false} KeptPrefix(le: Order, r: Raw, s: Raw, n: nat)
    requires r.RObj? && s.RObj? && n <= |r.fields| && n <= |s.fields| && r.fields[..n] == s.fields[..n]
    ensures KeptMembers(le, r, n) == KeptMembers(le, s, n)
  {
    hide Canon;
    if n > 0 {
      assert r.fields[..n][..n - 1] == s.fields[..n][..n - 1];
      assert r.fields[..n][n - 1] == s.fields[..n][n - 1];
      KeptPrefix(le, r, s, n - 1);
    }
  }

  lemma {:induction false} KeptGrows(le: Order, r: Raw, i: nat, n: nat)
    requires r.RObj? && i <= n <= |r.fields|
    ensures KeptMembers(le, r, i) <= KeptMembers(le, r, n)
  {
    hide Canon;
    if i < n {
      KeptGrows(le, r, i, n - 1);
    }
  }

  /** The members of an object, at one of its kept fields. */
  lemma {:induction false} KeptSplit(le: Order, r: Raw, i: nat) returns (rest: seq<Member>)
    requires r.RObj? && i < |r.fields| && Kept(r.fields[i])
    ensures KeptMembers(le, r, |r.fields|) ==
      KeptMembers(le, r, i) + [Member(r.fields[i].key, Canon(le, r.fields[i].value.value))] + rest
  {
    hide Canon;
    KeptGrows(le, r, i + 1, |r.fields|);
    rest := KeptMembers(le, r, |r.fields|)[|KeptMembers(le, r, i + 1)|..];
  }

  lemma {:induction false} SwapFields(fs: seq<Field>, i: nat, j: nat)
    requires Unrepeated(fs) && i < j < |fs|
    ensures Reordered(fs, fs[i := fs[j]][j := fs[i]])
  {
    hide Unrepeated;
    var gs := fs[i := fs[j]][j := fs[i]];
    assert Unrepeated(gs) by {
      forall k, l | 0 <= k < l < |gs|
        ensures gs[k].key != gs[l].key
      {
        NotRepeated(fs, if k == i then j else if k == j then i else k, if l == i then j else if l == j then i else l);
      }
      IsUnrepeated(gs);
    }
    forall f
      ensures f in fs <==> f in gs
    {
      assert multiset(gs) == multiset(fs);
      assert f in multiset(fs) <==> f in multiset(gs);
    }
  }

  lemma {:induction false} IsUnrepeated(fs: seq<Field>)
    requires forall i, j :: 0 <= i < j < |fs| ==> fs[i].key != fs[j].key
    ensures Unrepeated(fs)
  {
  }

  /** Two kept fields whose keys are tied cannot be exchanged unnoticed. */
  lemma {:induction false} SwapChangesCanon(le: Order, fs: seq<Field>, i: nat, j: nat)
    requires Collates(le) && Unrepeated(fs) && i < j < |fs| && Kept(fs[i]) && Kept(fs[j])
      && Ties(le, fs[i].key, fs[j].key)
    ensures Canon(le, RObj(fs[i := fs[j]][j := fs[i]])) != Canon(le, RObj(fs))
  {
    hide Collates, Ties, Canon, SortMembers, KeptMembers;
    var gs := fs[i := fs[j]][j := fs[i]];
    var r, s := RObj(fs), RObj(gs);
    var p := KeptSplit(le, r, i);
    var q := KeptSplit(le, s, i);
    assert gs[..i] == fs[..i];
    KeptPrefix(le, r, s, i);
    TiesShow(le, KeptMembers(le, r, i), Member(fs[i].key, Canon(le, fs[i].value.value)), p,
             Member(fs[j].key, Canon(le, fs[j].value.value)), q);
    CanonIs(le, r);
    CanonIs(le, s);
  }

  lemma {:induction false} CanonIs(le: Order, r: Raw)
    requires r.RObj?
    ensures Canon(le, r) == Obj(SortMembers(le, KeptMembers(le, r, |r.fields|)))
  {
  }

  /**
   Reordering an object's keys changes nothing, whatever the reordering, if
   and only if no two kept keys are equated.
   */
  lemma {:induction false} KeyOrderIsNothing(le: Order, fs: seq<Field>)
    requires Collates(le) && Unrepeated(fs)
    ensures (forall gs :: Reordered(fs, gs) ==> Canon(le, RObj(gs)) == Canon(le, RObj(fs))) <==> FieldsApart(le, fs)
  {
    hide Collates, Ties, Canon, Find, Reordered, Unrepeated, Kept;
    if FieldsApart(le, fs) {
      forall gs | Reordered(fs, gs)
        ensures Canon(le, RObj(gs)) == Canon(le, RObj(fs))
      {
        ReorderedUnrepeated(fs, gs);
        forall k
          ensures CanonAlike(le, Held(RObj(fs), k), Held(RObj(gs), k))
        {
          ReorderedFind(fs, gs, k);
        }
        CanonObjects(le, RObj(fs), RObj(gs));
      }
    } else {
      var i, j :| 0 <= i < |fs| && 0 <= j < |fs| && i != j && Kept(fs[i]) && Kept(fs[j])
        && Ties(le, fs[i].key, fs[j].key);
      TiesSwap(le, fs[i].key, fs[j].key);
      if i < j {
        SwapFields(fs, i, j);
        SwapChangesCanon(le, fs, i, j);
      } else {
        SwapFields(fs, j, i);
        SwapChangesCanon(le, fs, j, i);
      }
    }
  }

  lemma {:induction false} ReorderedUnrepeated(fs: seq<Field>, gs: seq<Field>)
    requires Reordered(fs, gs)
    ensures Unrepeated(gs)
  {
  }

  // ----- anywhere in a value -----

  /** Some value means the same and has another canonical form. */
  ghost predicate OrderShows(le: Order, a: Raw) {
    exists b :: Shows(le, a, b)
  }

  predicate Shows(le: Order, a: Raw, b: Raw) {
    Sound(b) && Mean(b) == Mean(a) && Canon(le, b) != Canon(le, a)
  }

  lemma {:induction false} FieldShows(le: Order, fs: seq<Field>, i: nat, v: Raw)
    requires Collates(le) && Sound(RObj(fs)) && i < |fs| && Kept(fs[i]) && Shows(le, fs[i].value.value, v)
    ensures Shows(le, RObj(fs), RObj(fs[i := Field(fs[i].key, Some(v))]))
  {
    hide Collates, Mean, Canon, Find, Sound;
    var gs := fs[i := Field(fs[i].key, Some(v))];
    UpdatedSound(fs, i, v);
    forall k
      ensures MeanAlike(Held(RObj(gs), k), Held(RObj(fs), k))
    {
      UpdatedFind(fs, i, v, k);
      FindIs(fs, i);
    }
    MeanObjects(RObj(gs), RObj(fs));
    if Canon(le, RObj(gs)) == Canon(le, RObj(fs)) {
      CanonTells(le, RObj(gs), RObj(fs), fs[i].key);
      FindIs(gs, i);
      FindIs(fs, i);
    }
  }

  lemma {:induction false} UpdatedSound(fs: seq<Field>, i: nat, v: Raw)
    requires Sound(RObj(fs)) && i < |fs| && Sound(v)
    ensures Unrepeated(fs) && Unrepeated(fs[i := Field(fs[i].key, Some(v))])
    ensures Sound(RObj(fs[i := Field(fs[i].key, Some(v))]))
  {
  }

  lemma {:induction false} UpdatedFind(fs: seq<Field>, i: nat, v: Raw, k: string)
    requires i < |fs| && Unrepeated(fs) && Unrepeated(fs[i := Field(fs[i].key, Some(v))])
    ensures Find(fs[i := Field(fs[i].key, Some(v))], k) == if k == fs[i].key then Some(v) else Find(fs, k)
  {
    var gs := fs[i := Field(fs[i].key, Some(v))];
    if k == fs[i].key {
      FindIs(gs, i);
    } else {
      var n := |fs| - 1;
      if i == n {
        assert gs[..n] == fs[..n];
      } else {
        assert gs[..n] == fs[..n][i := Field(fs[i].key, Some(v))];
        UpdatedFind(fs[..n], i, v, k);
      }
    }
  }

  lemma {:induction false} ItemShows(le: Order, items: seq<Raw>, i: nat, v: Raw)
    requires Sound(RArr(items)) && i < |items| && Shows(le, items[i], v)
    ensures Shows(le, RArr(items), RArr(items[i := v]))
  {
    var other := items[i := v];
    ItemsAre(le, RArr(items));
    ItemsAre(le, RArr(other));
    assert Mean(RArr(items)).items == Mean(RArr(other)).items;
    assert Canon(le, RArr(items)).items[i] != Canon(le, RArr(other)).items[i];
  }

  lemma {:induction false} TiedFieldsShow(le: Order, fs: seq<Field>)
    requires Collates(le) && Sound(RObj(fs)) && !FieldsApart(le, fs)
    ensures OrderShows(le, RObj(fs))
  {
    hide Collates, Canon, FieldsApart, Mean;
    KeyOrderIsNothing(le, fs);
    var gs: seq<Field> :| Reordered(fs, gs) && Canon(le, RObj(gs)) != Canon(le, RObj(fs));
    ReorderedMeans(fs, gs);
    assert Sound(RObj(gs)) by {
      forall i | 0 <= i < |gs| && gs[i].value.Some?
        ensures Sound(gs[i].value.value)
      {
        assert gs[i] in gs;
        assert gs[i] in fs;
      }
    }
    assert Shows(le, RObj(fs), RObj(gs));
  }

  lemma {:induction false} TiedShows(le: Order, a: Raw)
    requires Collates(le) && Sound(a) && !Apart(le, Mean(a))
    ensures OrderShows(le, a)
    decreases a
  {
    hide Collates, Canon, OrderShows;
    if a.RArr? {
      ItemsAre(le, a);
      var i :| 0 <= i < |a.items| && !Apart(le, Mean(a).items[i]);
      TiedShows(le, a.items[i]);
      var v := ShownBy(le, a.items[i]);
      ItemShows(le, a.items, i, v);
      ShowsOrder(le, a, RArr(a.items[i := v]));
    } else {
      assert a.RObj?;
      if !FieldsApart(le, a.fields) {
        TiedFieldsShow(le, a.fields);
      } else {
        var i := TiedWithin(le, a);
        TiedShows(le, a.fields[i].value.value);
        var v := ShownBy(le, a.fields[i].value.value);
        FieldShows(le, a.fields, i, v);
        ShowsOrder(le, a, RObj(a.fields[i := Field(a.fields[i].key, Some(v))]));
      }
    }
  }

  lemma {:induction false} ShowsOrder(le: Order, a: Raw, b: Raw)
    requires Shows(le, a, b)
    ensures OrderShows(le, a)
  {
  }

  lemma {:induction false} ShownBy(le: Order, a: Raw) returns (b: Raw)
    requires OrderShows(le, a)
    ensures Shows(le, a, b)
  {
    b :| Shows(le, a, b);
  }

  lemma {:induction false} TiedWithin(le: Order, a: Raw) returns (i: nat)
    requires a.RObj? && Unrepeated(a.fields) && FieldsApart(le, a.fields) && !Apart(le, Mean(a))
    ensures i < |a.fields| && Kept(a.fields[i]) && !Apart(le, Mean(a.fields[i].value.value))
  {
    hide KeptMeanings, Ties, Unrepeated;
    assert Unrepeated(a.fields);
    var m := KeptMeanings(a, |a.fields|);
    if x, y :| x in m && y in m && x != y && Ties(le, x, y) {
      var p := KeptComes(a, x);
      var q := KeptComes(a, y);
      assert false;
    }
    var k :| k in m && !Apart(le, m[k]);
    i := KeptComes(a, k);
    KeptHas(a, i);
  }

  /**
   All values that mean the same have the same canonical form if and only if
   the collation tells apart the keys of every object in them.
   */
  lemma {:induction false} OrderForgottenIff(le: Order, a: Raw)
    requires Collates(le) && Sound(a)
    ensures (forall b :: Sound(b) && Mean(b) == Mean(a) ==> Canon(le, b) == Canon(le, a)) <==> Apart(le, Mean(a))
  {
    hide Collates, Canon, Mean, Apart, Sound;
    if Apart(le, Mean(a)) {
      forall b | Sound(b) && Mean(b) == Mean(a)
        ensures Canon(le, b) == Canon(le, a)
      {
        CanonIffMean(le, a, b);
      }
    } else {
      TiedShows(le, a);
      var b := ShownBy(le, a);
      assert Sound(b) && Mean(b) == Mean(a) && Canon(le, b) != Canon(le, a);
    }
  }
}
