/**
 Byte strings, written as `string`: joining, byte order, sorting and trimming,
 as Go's `strings` and `sort` packages do them.
 */
module Strings {
  /** `strings.Join` with a one-byte separator. */
  function Join(parts: seq<string>, sep: char): string {
    if |parts| == 0 then ""
    else if |parts| == 1 then parts[0]
    else parts[0] + [sep] + Join(parts[1..], sep)
  }

  predicate Free(s: string, c: char) {
    forall i :: 0 <= i < |s| ==> s[i] != c
  }

  predicate AllFree(parts: seq<string>, c: char) {
    forall i :: 0 <= i < |parts| ==> Free(parts[i], c)
  }

  /** The text before the first separator is determined by the whole text. */
  lemma SplitAtFirst(a: string, x: string, b: string, y: string, sep: char)
    requires Free(a, sep) && Free(b, sep)
    requires a + [sep] + x == b + [sep] + y
    ensures a == b && x == y
  {
    var s := a + [sep] + x;
    assert s[|a|] == sep && s[|b|] == sep;
    assert forall i :: 0 <= i < |a| ==> s[i] == a[i];
    assert forall i :: 0 <= i < |b| ==> s[i] == b[i];
    assert |a| == |b|;
    assert a == s[..|a|] && b == s[..|b|];
    assert x == s[|a| + 1..] && y == s[|b| + 1..];
  }

  lemma JoinHasSeparator(p: seq<string>, sep: char)
    requires p != [] && AllFree(p, sep)
    ensures Free(Join(p, sep), sep) <==> |p| == 1
  {
    if |p| > 1 {
      assert Join(p, sep)[|p[0]|] == sep;
    }
  }

  /** A joined text determines its non-empty list of separator-free parts. */
  lemma {:induction false} JoinInjective(p: seq<string>, q: seq<string>, sep: char)
    requires p != [] && q != []
    requires AllFree(p, sep) && AllFree(q, sep)
    requires Join(p, sep) == Join(q, sep)
    ensures p == q
    decreases |p|
  {
    JoinHasSeparator(p, sep);
    JoinHasSeparator(q, sep);
    assert p == [p[0]] + p[1..] && q == [q[0]] + q[1..];
    if |p| > 1 {
      SplitAtFirst(p[0], Join(p[1..], sep), q[0], Join(q[1..], sep), sep);
      JoinInjective(p[1..], q[1..], sep);
    }
  }

  lemma {:induction false} JoinFree(p: seq<string>, sep: char, c: char)
    requires AllFree(p, c) && sep != c
    ensures Free(Join(p, sep), c)
  {
    if |p| > 1 {
      JoinFree(p[1..], sep, c);
    }
  }

  /** Byte-wise lexicographic order, the order of `sort.Strings`. */
  predicate Leq(a: string, b: string) {
    |a| == 0 || (|b| > 0 && (a[0] < b[0] || (a[0] == b[0] && Leq(a[1..], b[1..]))))
  }

  lemma LeqTotal(a: string, b: string)
    ensures Leq(a, b) || Leq(b, a)
  {
    if a != [] && b != [] && a[0] == b[0] {
      LeqTotal(a[1..], b[1..]);
    }
  }

  lemma LeqAntisymmetric(a: string, b: string)
    requires Leq(a, b) && Leq(b, a)
    ensures a == b
  {
    if a != [] && b != [] {
      LeqAntisymmetric(a[1..], b[1..]);
      assert a == [a[0]] + a[1..] && b == [b[0]] + b[1..];
    }
  }

  lemma LeqTransitive(a: string, b: string, c: string)
    requires Leq(a, b) && Leq(b, c)
    ensures Leq(a, c)
  {
    if a != [] && a[0] == b[0] && b[0] == c[0] {
      LeqTransitive(a[1..], b[1..], c[1..]);
    }
  }

  predicate Sorted(s: seq<string>) {
    forall i, j :: 0 <= i < j < |s| ==> Leq(s[i], s[j])
  }

  function Insert(x: string, s: seq<string>): (r: seq<string>)
    ensures multiset(r) == multiset(s) + multiset{x}
  {
    if s == [] || Leq(x, s[0]) then [x] + s
    else
      var t := Insert(x, s[1..]);
      assert s == [s[0]] + s[1..];
      [s[0]] + t
  }

  /** `sort.Strings` on a private copy. */
  function Sort(s: seq<string>): (r: seq<string>)
    ensures multiset(r) == multiset(s)
  {
    if s == [] then []
    else
      assert s == [s[0]] + s[1..];
      Insert(s[0], Sort(s[1..]))
  }

  lemma {:induction false} InsertSorted(x: string, s: seq<string>)
    requires Sorted(s)
    ensures Sorted(Insert(x, s))
  {
    if s == [] {
    } else if Leq(x, s[0]) {
      forall j | 0 <= j < |s|
        ensures Leq(x, s[j])
      {
        if j > 0 { LeqTransitive(x, s[0], s[j]); }
      }
    } else {
      InsertSorted(x, s[1..]);
      LeqTotal(x, s[0]);
      var t := Insert(x, s[1..]);
      forall j | 0 <= j < |t|
        ensures Leq(s[0], t[j])
      {
        assert t[j] in multiset(t);
        assert t[j] in multiset(s[1..]) + multiset{x};
        if t[j] != x {
          assert t[j] in s[1..];
          var k :| 0 <= k < |s[1..]| && s[1..][k] == t[j];
          assert s[1..][k] == s[k + 1];
        }
      }
    }
  }

  lemma {:induction false} SortSorted(s: seq<string>)
    ensures Sorted(Sort(s))
  {
    if s != [] {
      SortSorted(s[1..]);
      InsertSorted(s[0], Sort(s[1..]));
    }
  }

  /** A sorted list is determined by its elements. */
  lemma {:induction false} SortedUnique(p: seq<string>, q: seq<string>)
    requires Sorted(p) && Sorted(q) && multiset(p) == multiset(q)
    ensures p == q
  {
    assert |p| == |multiset(p)| == |multiset(q)| == |q|;
    if p != [] {
      HeadsAgree(p, q);
      assert p == [p[0]] + p[1..] && q == [q[0]] + q[1..];
      assert multiset(p[1..]) == multiset(p) - multiset{p[0]};
      assert multiset(q[1..]) == multiset(q) - multiset{q[0]};
      SortedUnique(p[1..], q[1..]);
    }
  }

  lemma HeadsAgree(p: seq<string>, q: seq<string>)
    requires p != [] && q != []
    requires Sorted(p) && Sorted(q) && multiset(p) == multiset(q)
    ensures p[0] == q[0]
  {
    assert p[0] in multiset(q) && q[0] in multiset(p);
    var i :| 0 <= i < |q| && q[i] == p[0];
    var j :| 0 <= j < |p| && p[j] == q[0];
    if i > 0 && j > 0 { LeqAntisymmetric(p[0], q[0]); }
  }

  /** Sorting forgets the order of its input, and nothing else. */
  lemma SortIgnoresOrder(p: seq<string>, q: seq<string>)
    ensures Sort(p) == Sort(q) <==> multiset(p) == multiset(q)
  {
    if multiset(p) == multiset(q) {
      SortSorted(p);
      SortSorted(q);
      SortedUnique(Sort(p), Sort(q));
    }
  }

  predicate Space(c: char) {
    c in {' ', '\t', '\n', '\r', '\U{0B}', '\U{0C}'}
  }

  /** `strings.TrimSpace`, for the white space below 0x80. */
  function TrimSpace(s: string): string
    decreases |s|
  {
    if s == "" then ""
    else if Space(s[0]) then TrimSpace(s[1..])
    else if Space(s[|s| - 1]) then TrimSpace(s[..|s| - 1])
    else s
  }

  predicate AllSpace(s: string) {
    forall i :: 0 <= i < |s| ==> Space(s[i])
  }

  lemma {:induction false} TrimSpaceStep(s: string)
    ensures s == "" ==> TrimSpace(s) == ""
    ensures s != "" && Space(s[0]) ==> TrimSpace(s) == TrimSpace(s[1..])
    ensures s != "" && !Space(s[0]) && Space(s[|s| - 1]) ==> TrimSpace(s) == TrimSpace(s[..|s| - 1])
    ensures s != "" && !Space(s[0]) && !Space(s[|s| - 1]) ==> TrimSpace(s) == s
  {
  }

  /** Trimming takes white space off both ends, all of it and nothing else. */
  lemma {:induction false} TrimSpaceTrims(s: string) returns (before: string, after: string)
    ensures s == before + TrimSpace(s) + after && AllSpace(before) && AllSpace(after)
    ensures TrimSpace(s) != "" ==> !Space(TrimSpace(s)[0]) && !Space(TrimSpace(s)[|TrimSpace(s)| - 1])
    decreases |s|
  {
    hide TrimSpace, Space;
    before, after := "", "";
    TrimSpaceStep(s);
    if s == "" {
    } else if Space(s[0]) {
      before, after := TrimSpaceTrims(s[1..]);
      before := [s[0]] + before;
      assert s == [s[0]] + s[1..];
    } else if Space(s[|s| - 1]) {
      before, after := TrimSpaceTrims(s[..|s| - 1]);
      after := after + [s[|s| - 1]];
      assert s == s[..|s| - 1] + [s[|s| - 1]];
    }
  }
}
