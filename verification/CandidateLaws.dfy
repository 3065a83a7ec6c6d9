/** Which pairs of payments the self-join returns. */
module CandidateLaws {
  import opened Strings
  import opened Populations
  import opened Candidates

  // ----- pairs -----

  predicate UniquePayments(records: seq<Record>) {
    forall i, j :: 0 <= i < j < |records| && Eligible(records[i]) && Eligible(records[j]) ==>
      records[i].id != records[j].id
  }

  lemma {:induction false} SamePaymentSymmetric(a: Record, b: Record)
    ensures SamePayment(a, b) <==> SamePayment(b, a)
  {
  }

  predicate IsPairOf(q: Pair, x: Record, y: Record) {
    (q == Pair(x, y) || q == Pair(y, x)) && SamePayment(q.a, q.b) && Leq(q.a.id, q.b.id)
  }

  lemma {:induction false} OrderedIsPair(x: Record, y: Record)
    requires SamePayment(x, y)
    ensures IsPairOf(Ordered(x, y), x, y)
  {
    LeqTotal(x.id, y.id);
    SamePaymentSymmetric(x, y);
  }

  lemma {:induction false} PairsWithSound(records: seq<Record>, x: Record, n: nat) returns (i: nat)
    requires n < |PairsWith(records, x)|
    ensures i < |records| && IsPairOf(PairsWith(records, x)[n], records[i], x)
  {
    hide SamePayment, Ordered, IsPairOf;
    var front, y := records[..|records| - 1], records[|records| - 1];
    if n < |PairsWith(front, x)| {
      i := PairsWithSound(front, x, n);
      assert front[i] == records[i];
    } else {
      i := |records| - 1;
      OrderedIsPair(y, x);
    }
  }

  lemma {:induction false} PairsWithComplete(records: seq<Record>, x: Record, i: nat)
    requires i < |records| && SamePayment(records[i], x)
    ensures Ordered(records[i], x) in PairsWith(records, x)
  {
    hide SamePayment, Ordered;
    if i < |records| - 1 {
      assert records[..|records| - 1][i] == records[i];
      PairsWithComplete(records[..|records| - 1], x, i);
    }
  }

  /** Every row of the self-join is a qualifying pair of two records of the population. */
  lemma {:induction false} AllPairsSound(records: seq<Record>, n: nat) returns (i: nat, j: nat)
    requires n < |AllPairs(records)|
    ensures i < j < |records| && IsPairOf(AllPairs(records)[n], records[i], records[j])
  {
    hide IsPairOf;
    var front, x := records[..|records| - 1], records[|records| - 1];
    if n < |AllPairs(front)| {
      i, j := AllPairsSound(front, n);
      assert front[i] == records[i] && front[j] == records[j];
    } else {
      i := PairsWithSound(front, x, n - |AllPairs(front)|);
      j := |records| - 1;
      assert front[i] == records[i];
    }
  }

  lemma {:induction false} AllPairsComplete(records: seq<Record>, i: nat, j: nat)
    requires i < j < |records| && SamePayment(records[i], records[j])
    ensures Ordered(records[i], records[j]) in AllPairs(records)
  {
    hide SamePayment, Ordered;
    var front := records[..|records| - 1];
    assert front[i] == records[i];
    if j < |records| - 1 {
      assert front[j] == records[j];
      AllPairsComplete(front, i, j);
    } else {
      PairsWithComplete(front, records[j], i);
    }
  }

  /** The two ids of a row, without their order. */
  function Ids(q: Pair): multiset<string> {
    multiset{q.a.id, q.b.id}
  }

  lemma {:induction false} PairIds(q: Pair, x: Record, y: Record)
    requires IsPairOf(q, x, y)
    ensures Ids(q) == multiset{x.id, y.id} && Eligible(x) && Eligible(y) && x.id != y.id
  {
  }

  lemma {:induction false} OtherIds(p: Pair, q: Pair, a: Record, b: Record, c: Record, d: Record)
    requires IsPairOf(p, a, b) && IsPairOf(q, c, d)
    requires Eligible(c) && Eligible(a) && Eligible(b) ==> c.id != a.id && c.id != b.id
    ensures Ids(p) != Ids(q)
  {
    hide IsPairOf;
    PairIds(p, a, b);
    PairIds(q, c, d);
    assert multiset{a.id, b.id}[c.id] == 0 && multiset{c.id, d.id}[c.id] > 0;
  }

  lemma {:induction false} PairsWithOnce(records: seq<Record>, x: Record, m: nat, n: nat)
    requires UniquePayments(records) && m < n < |PairsWith(records, x)|
    ensures Ids(PairsWith(records, x)[m]) != Ids(PairsWith(records, x)[n])
  {
    hide Ordered, SamePayment, IsPairOf, Ids;
    var k := |records| - 1;
    var front := records[..k];
    assert UniquePayments(front);
    if n < |PairsWith(front, x)| {
      PairsWithOnce(front, x, m, n);
    } else {
      var i := PairsWithSound(front, x, m);
      assert front[i] == records[i];
      OrderedIsPair(records[k], x);
      var p, q := PairsWith(records, x)[m], PairsWith(records, x)[n];
      PairIds(p, records[i], x);
      PairIds(q, records[k], x);
      OtherIds(p, q, records[i], x, records[k], x);
    }
  }

  /** Each qualifying unordered pair appears once: no two rows join the same two ids. */
  lemma {:induction false} AllPairsOnce(records: seq<Record>, m: nat, n: nat)
    requires UniquePayments(records) && m < n < |AllPairs(records)|
    ensures Ids(AllPairs(records)[m]) != Ids(AllPairs(records)[n])
  {
    hide Ordered, SamePayment, IsPairOf, Ids;
    var k := |records| - 1;
    var front, x := records[..k], records[k];
    assert UniquePayments(front);
    var c := |AllPairs(front)|;
    if n < c {
      AllPairsOnce(front, m, n);
    } else if m >= c {
      PairsWithOnce(front, x, m - c, n - c);
    } else {
      var i, j := AllPairsSound(front, m);
      var l := PairsWithSound(front, x, n - c);
      assert front[i] == records[i] && front[j] == records[j] && front[l] == records[l];
      var p, q := AllPairs(records)[m], AllPairs(records)[n];
      PairSymmetric(q, records[l], x);
      PairIds(q, x, records[l]);
      OtherIds(p, q, records[i], records[j], x, records[l]);
    }
  }

  lemma {:induction false} PairSymmetric(q: Pair, x: Record, y: Record)
    ensures IsPairOf(q, x, y) <==> IsPairOf(q, y, x)
  {
  }
}
