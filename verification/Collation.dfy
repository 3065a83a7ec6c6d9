/**
 Sorting members by their keys (web/src/features/analysis/model.ts).
 `localeCompare` is any total preorder on strings: it may equate strings that
 differ, such as two ways of writing one accented letter, and a stable sort
 keeps the order of members whose keys it equates.
 */
module Collation {
  import opened Strings
  import opened Json

  type Order = (string, string) -> bool

  ghost predicate Total(le: Order) {
    forall a, b :: le(a, b) || le(b, a)
  }

  ghost predicate Transitive(le: Order) {
    forall a, b, c :: le(a, b) && le(b, c) ==> le(a, c)
  }

  /** What `localeCompare` promises: `le(a, b)` says that `a` does not come after `b`. */
  ghost predicate Collates(le: Order) {
    Total(le) && Transitive(le)
  }

  /** The collation does not tell the strings apart. */
  predicate Ties(le: Order, a: string, b: string) {
    le(a, b) && le(b, a)
  }

  lemma {:induction false} TiesSelf(le: Order, a: string)
    requires Collates(le)
    ensures Ties(le, a, a)
  {
    assert le(a, a) || le(a, a);
  }

  lemma {:induction false} OrderTotal(le: Order, a: string, b: string)
    requires Collates(le) && !le(a, b)
    ensures le(b, a)
  {
    assert le(a, b) || le(b, a);
  }

  lemma {:induction false} OrderTransitive(le: Order, a: string, b: string, c: string)
    requires Collates(le) && le(a, b) && le(b, c)
    ensures le(a, c)
  {
  }

  /** Byte order is such a collation, and tells every two strings apart. */
  lemma {:induction false} ByteOrderCollates()
    ensures Collates(Leq) && forall a, b :: Ties(Leq, a, b) ==> a == b
  {
    forall a, b
      ensures Leq(a, b) || Leq(b, a)
    {
      LeqTotal(a, b);
    }
    forall a, b, c | Leq(a, b) && Leq(b, c)
      ensures Leq(a, c)
    {
      LeqTransitive(a, b, c);
    }
    forall a, b | Ties(Leq, a, b)
      ensures a == b
    {
      LeqAntisymmetric(a, b);
    }
  }

  // ----- sorting -----

  /** Stable insertion: behind every member whose key is not greater. */
  function InsertMember(le: Order, m: Member, s: seq<Member>): (r: seq<Member>)
    ensures multiset(r) == multiset(s) + multiset{m}
  {
    if s == [] || !le(s[0].key, m.key) then [m] + s
    else
      var t := InsertMember(le, m, s[1..]);
      assert s == [s[0]] + s[1..];
      [s[0]] + t
  }

  function SortMembers(le: Order, s: seq<Member>): (r: seq<Member>)
    ensures multiset(r) == multiset(s)
  {
    if s == [] then []
    else
      var n := |s| - 1;
      assert s == s[..n] + [s[n]];
      InsertMember(le, s[n], SortMembers(le, s[..n]))
  }

  predicate KeysSorted(le: Order, s: seq<Member>) {
    forall i, j :: 0 <= i < j < |s| ==> le(s[i].key, s[j].key)
  }

  lemma {:induction false} InsertKeepsSorted(le: Order, m: Member, s: seq<Member>)
    requires Collates(le) && KeysSorted(le, s)
    ensures KeysSorted(le, InsertMember(le, m, s))
  {
    hide Collates;
    if s == [] {
    } else if !le(s[0].key, m.key) {
      OrderTotal(le, s[0].key, m.key);
      forall j | 0 <= j < |s|
        ensures le(m.key, s[j].key)
      {
        if j > 0 { OrderTransitive(le, m.key, s[0].key, s[j].key); }
      }
    } else {
      InsertKeepsSorted(le, m, s[1..]);
      var t := InsertMember(le, m, s[1..]);
      forall j | 0 <= j < |t|
        ensures le(s[0].key, t[j].key)
      {
        assert t[j] in multiset(t);
        assert t[j] in multiset(s[1..]) + multiset{m};
        if t[j] != m {
          assert t[j] in s[1..];
          var k :| 0 <= k < |s[1..]| && s[1..][k] == t[j];
          assert s[1..][k] == s[k + 1];
        }
      }
    }
  }

  lemma {:induction false} SortIsSorted(le: Order, s: seq<Member>)
    requires Collates(le)
    ensures KeysSorted(le, SortMembers(le, s))
  {
    hide Collates;
    if s != [] {
      SortIsSorted(le, s[..|s| - 1]);
      InsertKeepsSorted(le, s[|s| - 1], SortMembers(le, s[..|s| - 1]));
    }
  }

  /** Members whose keys the collation equates are equal. */
  predicate KeysTell(le: Order, s: seq<Member>) {
    forall a, b :: a in s && b in s && Ties(le, a.key, b.key) ==> a == b
  }

  lemma {:induction false} SortedHeads(le: Order, p: seq<Member>, q: seq<Member>)
    requires p != [] && q != [] && KeysSorted(le, p) && KeysSorted(le, q)
    requires multiset(p) == multiset(q) && KeysTell(le, p)
    ensures p[0] == q[0]
  {
    assert p[0] in multiset(q) && q[0] in multiset(p);
    var i :| 0 <= i < |q| && q[i] == p[0];
    var j :| 0 <= j < |p| && p[j] == q[0];
    if i > 0 && j > 0 {
      assert Ties(le, p[0].key, q[0].key);
    }
  }

  lemma {:induction false} SortedMembersUnique(le: Order, p: seq<Member>, q: seq<Member>)
    requires KeysSorted(le, p) && KeysSorted(le, q) && multiset(p) == multiset(q) && KeysTell(le, p)
    ensures p == q
  {
    hide Ties, KeysSorted, KeysTell;
    assert |p| == |multiset(p)| == |multiset(q)| == |q|;
    if p != [] {
      SortedHeads(le, p, q);
      SortedTail(le, p);
      SortedTail(le, q);
      TellsTail(le, p);
      SameTails(p, q);
      SortedMembersUnique(le, p[1..], q[1..]);
      assert p == [p[0]] + p[1..] && q == [q[0]] + q[1..];
    }
  }

  lemma {:induction false} SortedTail(le: Order, p: seq<Member>)
    requires p != [] && KeysSorted(le, p)
    ensures KeysSorted(le, p[1..])
  {
  }

  lemma {:induction false} TellsTail(le: Order, p: seq<Member>)
    requires p != [] && KeysTell(le, p)
    ensures KeysTell(le, p[1..])
  {
    hide Ties;
    assert forall a :: a in p[1..] ==> a in p;
  }

  lemma {:induction false} SameTails(p: seq<Member>, q: seq<Member>)
    requires p != [] && q != [] && p[0] == q[0] && multiset(p) == multiset(q)
    ensures multiset(p[1..]) == multiset(q[1..])
  {
    assert p == [p[0]] + p[1..] && q == [q[0]] + q[1..];
    assert multiset(p[1..]) == multiset(p) - multiset{p[0]};
    assert multiset(q[1..]) == multiset(q) - multiset{q[0]};
  }

  /** Sorting forgets the order of members whose keys tell them apart, and nothing else. */
  lemma {:induction false} SortForgetsOrder(le: Order, p: seq<Member>, q: seq<Member>)
    requires Collates(le)
    ensures SortMembers(le, p) == SortMembers(le, q) ==> multiset(p) == multiset(q)
    ensures multiset(p) == multiset(q) && KeysTell(le, p) ==> SortMembers(le, p) == SortMembers(le, q)
  {
    hide Collates, Ties;
    if multiset(p) == multiset(q) && KeysTell(le, p) {
      SortIsSorted(le, p);
      SortIsSorted(le, q);
      forall a | a in SortMembers(le, p)
        ensures a in p
      {
        assert a in multiset(p);
      }
      SortedMembersUnique(le, SortMembers(le, p), SortMembers(le, q));
    }
  }

  // ----- what a stable sort does not forget -----

  /** The members that the collation does not tell from `k`, in their order. */
  function Class(le: Order, s: seq<Member>, k: string): seq<Member> {
    if s == [] then []
    else Class(le, s[..|s| - 1], k) + (if Ties(le, s[|s| - 1].key, k) then [s[|s| - 1]] else [])
  }

  lemma {:induction false} ClassNext(le: Order, s: seq<Member>, m: Member, k: string)
    ensures Class(le, s + [m], k) == Class(le, s, k) + (if Ties(le, m.key, k) then [m] else [])
  {
    assert (s + [m])[..|s|] == s;
  }

  lemma {:induction false} ClassAppend(le: Order, s: seq<Member>, t: seq<Member>, k: string)
    ensures Class(le, s + t, k) == Class(le, s, k) + Class(le, t, k)
  {
    hide Class;
    if t == [] {
      assert s + t == s;
      ClassOfNone(le, k);
    } else {
      var front, m := t[..|t| - 1], t[|t| - 1];
      ClassAppend(le, s, front, k);
      assert t == front + [m] && s + t == (s + front) + [m];
      ClassNext(le, s + front, m, k);
      ClassNext(le, front, m, k);
    }
  }

  lemma {:induction false} ClassOfNone(le: Order, k: string)
    ensures Class(le, [], k) == []
  {
  }

  lemma {:induction false} ClassOfOne(le: Order, m: Member, k: string)
    ensures Class(le, [m], k) == if Ties(le, m.key, k) then [m] else []
  {
    ClassNext(le, [], m, k);
    assert [] + [m] == [m];
  }

  lemma {:induction false} NoneTied(le: Order, s: seq<Member>, k: string)
    requires forall i :: 0 <= i < |s| ==> !Ties(le, s[i].key, k)
    ensures Class(le, s, k) == []
  {
    if s != [] {
      NoneTied(le, s[..|s| - 1], k);
    }
  }

  lemma {:induction false} InsertCases(le: Order, m: Member, s: seq<Member>)
    ensures InsertMember(le, m, s) ==
      if s == [] || !le(s[0].key, m.key) then [m] + s else [s[0]] + InsertMember(le, m, s[1..])
  {
  }

  lemma {:induction false} FrontKeepsClass(le: Order, m: Member, s: seq<Member>, k: string)
    requires Collates(le) && KeysSorted(le, s) && (s == [] || !le(s[0].key, m.key))
    ensures Class(le, [m] + s, k) == Class(le, s, k) + (if Ties(le, m.key, k) then [m] else [])
  {
    hide Collates, Class, Ties, KeysSorted;
    ClassOfOne(le, m, k);
    ClassAppend(le, [m], s, k);
    if s == [] {
      ClassOfNone(le, k);
    } else if Ties(le, m.key, k) {
      LaterNotTied(le, m, s, k);
      NoneTied(le, s, k);
    }
  }

  lemma {:induction false} InsertKeepsClass(le: Order, m: Member, s: seq<Member>, k: string)
    requires Collates(le) && KeysSorted(le, s)
    ensures Class(le, InsertMember(le, m, s), k) == Class(le, s, k) + (if Ties(le, m.key, k) then [m] else [])
  {
    hide Collates, Class, InsertMember, Ties, KeysSorted;
    InsertCases(le, m, s);
    if s == [] || !le(s[0].key, m.key) {
      FrontKeepsClass(le, m, s, k);
    } else {
      SortedTail(le, s);
      InsertKeepsClass(le, m, s[1..], k);
      assert s == [s[0]] + s[1..];
      ClassAppend(le, [s[0]], s[1..], k);
      ClassAppend(le, [s[0]], InsertMember(le, m, s[1..]), k);
    }
  }

  lemma {:induction false} LaterNotTied(le: Order, m: Member, s: seq<Member>, k: string)
    requires Collates(le) && KeysSorted(le, s) && s != [] && !le(s[0].key, m.key) && Ties(le, m.key, k)
    ensures forall i :: 0 <= i < |s| ==> !Ties(le, s[i].key, k)
  {
    hide Collates;
    forall i | 0 <= i < |s|
      ensures !Ties(le, s[i].key, k)
    {
      if Ties(le, s[i].key, k) {
        OrderTransitive(le, s[i].key, k, m.key);
        if i > 0 { OrderTransitive(le, s[0].key, s[i].key, m.key); }
      }
    }
  }

  /** Sorting keeps the order of members whose keys are equated. */
  lemma {:induction false} SortKeepsClass(le: Order, s: seq<Member>, k: string)
    requires Collates(le)
    ensures Class(le, SortMembers(le, s), k) == Class(le, s, k)
  {
    hide Collates, Ties, KeysSorted;
    if s != [] {
      var n := |s| - 1;
      SortKeepsClass(le, s[..n], k);
      SortIsSorted(le, s[..n]);
      InsertKeepsClass(le, s[n], SortMembers(le, s[..n]), k);
    }
  }

  /** Where two lists first differ they have tied keys: sorting does not forget it. */
  lemma {:induction false} TiesShow(le: Order, before: seq<Member>, x: Member, p: seq<Member>, y: Member,
      q: seq<Member>)
    requires Collates(le) && Ties(le, x.key, y.key) && x != y
    ensures SortMembers(le, before + [x] + p) != SortMembers(le, before + [y] + q)
  {
    hide Collates, Ties, SortMembers, Class;
    var a, b, k := before + [x] + p, before + [y] + q, y.key;
    SortKeepsClass(le, a, k);
    SortKeepsClass(le, b, k);
    ClassAppend(le, before + [x], p, k);
    ClassAppend(le, before + [y], q, k);
    ClassNext(le, before, x, k);
    ClassNext(le, before, y, k);
    TiesSelf(le, k);
    var n := |Class(le, before, k)|;
    assert Class(le, a, k)[n] == x && Class(le, b, k)[n] == y;
  }

  /** Two different members with tied keys cannot be exchanged unnoticed. */
  lemma {:induction false} SwapShows(le: Order, s: seq<Member>, i: nat, j: nat)
    requires Collates(le) && i < j < |s| && Ties(le, s[i].key, s[j].key) && s[i] != s[j]
    ensures SortMembers(le, s[i := s[j]][j := s[i]]) != SortMembers(le, s)
    ensures multiset(s[i := s[j]][j := s[i]]) == multiset(s)
  {
    hide Collates, Ties, SortMembers;
    var t := s[i := s[j]][j := s[i]];
    assert s == s[..i] + [s[i]] + s[i + 1..];
    assert t == s[..i] + [s[j]] + t[i + 1..];
    TiesShow(le, s[..i], s[i], s[i + 1..], s[j], t[i + 1..]);
  }

  lemma {:induction false} TiedMembers(le: Order, s: seq<Member>) returns (t: seq<Member>)
    requires Collates(le) && !KeysTell(le, s)
    ensures multiset(t) == multiset(s) && SortMembers(le, t) != SortMembers(le, s)
  {
    hide Collates, Ties, SortMembers;
    var a, b :| a in s && b in s && Ties(le, a.key, b.key) && a != b;
    var i :| 0 <= i < |s| && s[i] == a;
    var j :| 0 <= j < |s| && s[j] == b;
    TiesSwap(le, a.key, b.key);
    if i < j {
      SwapShows(le, s, i, j);
      t := s[i := s[j]][j := s[i]];
    } else {
      SwapShows(le, s, j, i);
      t := s[j := s[i]][i := s[j]];
    }
  }

  /** If `t` has the members of `s`, it is sorted alike. */
  predicate SortsAlike(le: Order, s: seq<Member>, t: seq<Member>) {
    multiset(t) == multiset(s) ==> SortMembers(le, t) == SortMembers(le, s)
  }

  /** Sorting forgets the order of a list's members if and only if their keys tell them apart. */
  lemma {:induction false} SortForgetsOrderIff(le: Order, s: seq<Member>)
    requires Collates(le)
    ensures (forall t :: SortsAlike(le, s, t)) <==> KeysTell(le, s)
  {
    hide Collates, KeysTell, SortMembers;
    if KeysTell(le, s) {
      forall t
        ensures SortsAlike(le, s, t)
      {
        SortForgetsOrder(le, s, t);
      }
    } else {
      var t := TiedMembers(le, s);
      assert !SortsAlike(le, s, t);
    }
  }

  lemma {:induction false} TiesSwap(le: Order, a: string, b: string)
    ensures Ties(le, a, b) <==> Ties(le, b, a)
  {
  }
}
