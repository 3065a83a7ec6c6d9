/** When a population ties out, and why the order of its records does not matter. */
module TieOutLaws {
  import opened Common
  import opened Strings
  import opened Decimals
  import opened Populations
  import opened Reconciliation

  /** The group's control agrees exactly with its records, and a journal group balances. */
  predicate GroupTies(p: Population, entity: string, currency: string) {
    exists i :: 0 <= i < |p.controls| && ControlTies(p, p.controls[i], entity, currency)
  }

  predicate ControlTies(p: Population, c: Control, entity: string, currency: string) {
    && c.entity == entity && c.currency == currency
    && c.count == Count(p.records, entity, currency)
    && Money(c.amount) == Some(Sum(p.records, entity, currency, OfAmount))
    && Money(c.debit) == Some(Sum(p.records, entity, currency, OfDebit))
    && Money(c.credit) == Some(Sum(p.records, entity, currency, OfCredit))
    && (entity == "journal_entry" ==>
          Sum(p.records, entity, currency, OfDebit) == Sum(p.records, entity, currency, OfCredit))
  }

  lemma {:induction false} ValidIsGrouped(p: Population)
    requires Valid(p)
    ensures Grouped(p.controls, p.records)
  {
    forall i | 0 <= i < |p.controls|
      ensures Free(p.controls[i].entity, '|')
    {
      ControlEntity(p.controls[i]);
    }
    forall i | 0 <= i < |p.records|
      ensures Free(p.records[i].entity, '|')
    {
      RecordEntity(p.records[i], p.period);
    }
  }

  /** Every accumulated key is the tag of a group. */
  lemma {:induction false} KeysAreTags(controls: seq<Control>, records: seq<Record>, k: string)
      returns (entity: string, currency: string)
    requires Grouped(controls, records) && k in Actual(controls, records)
    ensures Free(entity, '|') && k == Tag(entity, currency)
  {
    hide Plus;
    if records != [] {
      var n := |records| - 1;
      if k == GroupOf(records[n]) {
        entity, currency := records[n].entity, records[n].currency;
      } else {
        entity, currency := KeysAreTags(controls, records[..n], k);
      }
    } else {
      var n := |controls| - 1;
      if k == ControlGroup(controls[n]) {
        entity, currency := controls[n].entity, controls[n].currency;
      } else {
        entity, currency := KeysAreTags(controls[..n], [], k);
      }
    }
  }

  predicate UniqueControls(controls: seq<Control>) {
    && (forall i :: 0 <= i < |controls| ==> Free(controls[i].entity, '|'))
    && forall i, j :: 0 <= i < j < |controls| ==>
         controls[i].entity != controls[j].entity || controls[i].currency != controls[j].currency
  }

  lemma {:induction false} ExpectedIsControl(controls: seq<Control>, entity: string, currency: string)
    requires UniqueControls(controls) && Free(entity, '|')
    ensures forall i :: (0 <= i < |controls| && controls[i].entity == entity && controls[i].currency == currency)
                    ==> Lookup(Expected(controls), Tag(entity, currency)) == Some(controls[i])
    ensures !HasControl(controls, entity, currency) ==> Lookup(Expected(controls), Tag(entity, currency)) == None
  {
    if controls != [] {
      var n := |controls| - 1;
      var c := controls[n];
      ExpectedIsControl(controls[..n], entity, currency);
      TagInjective(c.entity, c.currency, entity, currency);
      assert forall i :: 0 <= i < n ==> controls[..n][i] == controls[i];
    }
  }

  lemma {:induction false} MatchesIffTies(p: Population, entity: string, currency: string)
    requires Valid(p) && Free(entity, '|') && Present(p.controls, p.records, entity, currency)
    ensures Matches(Totals(p.records, entity, currency), Lookup(Expected(p.controls), Tag(entity, currency)))
       <==> GroupTies(p, entity, currency)
  {
    hide Expected, Parse, Money, Count, Sum, Figure;
    ValidIsGrouped(p);
    ExpectedIsControl(p.controls, entity, currency);
    FigureValue(p.records, entity, currency, OfAmount);
    FigureValue(p.records, entity, currency, OfDebit);
    FigureValue(p.records, entity, currency, OfCredit);
  }

  lemma {:induction false} NoDifferencesIff(actual: map<string, Control>, expected: map<string, Control>,
      keys: seq<string>)
    requires forall i :: 0 <= i < |keys| ==> keys[i] in actual
    ensures Differences(actual, expected, keys) == [] <==>
      forall i :: 0 <= i < |keys| ==> Matches(actual[keys[i]], Lookup(expected, keys[i]))
  {
    hide Matches;
    if keys != [] {
      NoDifferencesIff(actual, expected, keys[..|keys| - 1]);
    }
  }

  /**
   A valid population ties out if and only if every group that a control or a
   record names has a control with the same count and exactly the same sums,
   and journal groups balance.
   */
  lemma {:induction false} TiesOutIff(p: Population, d: seq<Difference>)
    requires Valid(p) && TiesOut(p, d)
    ensures d == [] <==>
      forall entity, currency :: Free(entity, '|') && Present(p.controls, p.records, entity, currency)
        ==> GroupTies(p, entity, currency)
  {
    hide Valid, Actual, Expected, Matches, GroupTies, Present, Totals;
    ValidIsGrouped(p);
    var a, e := Actual(p.controls, p.records), Expected(p.controls);
    var keys :| Listing(keys, a.Keys) && (forall i :: 0 <= i < |keys| ==> keys[i] in a) && d == Differences(a, e, keys);
    ListingMembers(keys, a.Keys);
    NoDifferencesIff(a, e, keys);
    forall entity, currency | Free(entity, '|') && Present(p.controls, p.records, entity, currency)
      ensures Tag(entity, currency) in keys
      ensures Matches(a[Tag(entity, currency)], Lookup(e, Tag(entity, currency))) <==> GroupTies(p, entity, currency)
    {
      ActualIsTotals(p.controls, p.records, entity, currency);
      MatchesIffTies(p, entity, currency);
    }
    forall i | 0 <= i < |keys|
      ensures exists entity, currency :: Free(entity, '|') && Present(p.controls, p.records, entity, currency)
                && keys[i] == Tag(entity, currency)
    {
      var entity, currency := KeysAreTags(p.controls, p.records, keys[i]);
      ActualIsTotals(p.controls, p.records, entity, currency);
    }
  }

  // ----- the order of the records -----

  lemma {:induction false} SumAppend(p: seq<Record>, q: seq<Record>, entity: string, currency: string, f: Field)
    ensures Sum(p + q, entity, currency, f) == Sum(p, entity, currency, f) + Sum(q, entity, currency, f)
    ensures Count(p + q, entity, currency) == Count(p, entity, currency) + Count(q, entity, currency)
  {
    if q == [] {
      assert p + q == p;
    } else {
      var n := |q| - 1;
      assert (p + q)[..|p + q| - 1] == p + q[..n];
      SumAppend(p, q[..n], entity, currency, f);
    }
  }

  lemma {:induction false} WithoutFirst<T>(p: seq<T>, q: seq<T>, i: nat)
    requires p != [] && i < |q| && q[i] == p[0] && multiset(p) == multiset(q)
    ensures multiset(p[1..]) == multiset(q[..i] + q[i + 1..])
  {
    assert p == [p[0]] + p[1..];
    assert q == q[..i] + [p[0]] + q[i + 1..];
    assert multiset(p) == multiset{p[0]} + multiset(p[1..]);
    assert multiset(q) == multiset(q[..i]) + multiset{p[0]} + multiset(q[i + 1..]);
    assert multiset(p[1..]) == multiset(p) - multiset{p[0]} == multiset(q[..i]) + multiset(q[i + 1..]);
  }

  lemma {:induction false} SumPermutes(p: seq<Record>, q: seq<Record>, entity: string, currency: string, f: Field)
    requires multiset(p) == multiset(q)
    ensures Sum(p, entity, currency, f) == Sum(q, entity, currency, f)
    ensures Count(p, entity, currency) == Count(q, entity, currency)
  {
    hide Sum, Count;
    assert |p| == |multiset(p)| == |multiset(q)| == |q|;
    if p == [] {
      assert p == q;
    } else {
      var x := p[0];
      assert p == [x] + p[1..];
      assert x in multiset(q);
      var i :| 0 <= i < |q| && q[i] == x;
      var a, b := q[..i], q[i + 1..];
      assert q == a + [x] + b;
      WithoutFirst(p, q, i);
      SumPermutes(p[1..], a + b, entity, currency, f);
      SumAppend([x], p[1..], entity, currency, f);
      SumAppend(a + [x], b, entity, currency, f);
      SumAppend(a, [x], entity, currency, f);
      SumAppend(a, b, entity, currency, f);
    }
  }

  lemma {:induction false} ActualPermutes(controls: seq<Control>, p: seq<Record>, q: seq<Record>)
    requires Grouped(controls, p) && Grouped(controls, q) && multiset(p) == multiset(q)
    ensures Actual(controls, p) == Actual(controls, q)
  {
    forall k
      ensures Lookup(Actual(controls, p), k) == Lookup(Actual(controls, q), k)
    {
      hide Actual, Sum, Count;
      if k in Actual(controls, p) || k in Actual(controls, q) {
        var entity, currency;
        if k in Actual(controls, p) {
          entity, currency := KeysAreTags(controls, p, k);
        } else {
          entity, currency := KeysAreTags(controls, q, k);
        }
        ActualIsTotals(controls, p, entity, currency);
        ActualIsTotals(controls, q, entity, currency);
        SumPermutes(p, q, entity, currency, OfAmount);
        SumPermutes(p, q, entity, currency, OfDebit);
        SumPermutes(p, q, entity, currency, OfCredit);
      }
    }
    SameLookups(Actual(controls, p), Actual(controls, q));
  }

  lemma {:induction false} SameLookups(a: map<string, Control>, b: map<string, Control>)
    requires forall k :: Lookup(a, k) == Lookup(b, k)
    ensures a == b
  {
    forall k
      ensures k in a <==> k in b
      ensures k in a ==> a[k] == b[k]
    {
      assert Lookup(a, k) == Lookup(b, k);
    }
  }

  /** The result does not depend on the order in which the records are given. */
  lemma {:induction false} OrderIndependent(p: Population, records: seq<Record>, d: seq<Difference>, e: seq<Difference>)
    requires Valid(p) && multiset(p.records) == multiset(records)
    requires TiesOut(p, d) && TiesOut(p.(records := records), e)
    ensures d == e
  {
    hide Valid, Actual, Expected, Differences, Sorted;
    ValidIsGrouped(p);
    forall i | 0 <= i < |records|
      ensures Free(records[i].entity, '|')
    {
      assert records[i] in multiset(p.records);
      assert records[i] in p.records;
    }
    ActualPermutes(p.controls, p.records, records);
    var a := Actual(p.controls, records);
    var k :| Listing(k, a.Keys)
      && (forall i :: 0 <= i < |k| ==> k[i] in a) && d == Differences(a, Expected(p.controls), k);
    var l :| Listing(l, a.Keys)
      && (forall i :: 0 <= i < |l| ==> l[i] in a) && e == Differences(a, Expected(p.controls), l);
    SortedUnique(k, l);
  }

  // ----- one record -----

  lemma {:induction false} OneRecordSums(r: Record, entity: string, currency: string, f: Field)
    ensures Sum([r], entity, currency, f) == if InGroup(r, entity, currency) then Amount(Get(r, f)) else 0
    ensures Count([r], entity, currency) == if InGroup(r, entity, currency) then 1 else 0
  {
    assert [r][..0] == [];
  }

  /**
   One record under one control of its group ties out exactly when the control
   counts one and has the record's amount, debit and credit, and these two are
   equal in a journal.
   */
  lemma {:induction false} OneRecordTiesIff(p: Population, d: seq<Difference>, r: Record, c: Control)
    requires Valid(p) && p.records == [r] && p.controls == [c] && c.entity == r.entity && c.currency == r.currency
    requires TiesOut(p, d)
    ensures Money(r.amount).Some? && Money(r.debit).Some? && Money(r.credit).Some?
    ensures d == [] <==>
      && c.count == 1 && Money(c.amount) == Money(r.amount) && Money(c.debit) == Money(r.debit)
      && Money(c.credit) == Money(r.credit) && (r.entity == "journal_entry" ==> Money(r.debit) == Money(r.credit))
  {
    hide Valid, TiesOut, Money, Sum, Count, GroupTies, Present;
    FirstRecordValid(p);
    OneControlTies(p, r, c);
    OneGroup(p, r, c);
    TiesOutIff(p, d);
  }

  lemma {:induction false} OneControlTies(p: Population, r: Record, c: Control)
    requires p.records == [r] && p.controls == [c] && c.entity == r.entity && c.currency == r.currency
    requires Money(r.amount).Some? && Money(r.debit).Some? && Money(r.credit).Some?
    ensures GroupTies(p, r.entity, r.currency) <==>
      && c.count == 1 && Money(c.amount) == Money(r.amount) && Money(c.debit) == Money(r.debit)
      && Money(c.credit) == Money(r.credit) && (r.entity == "journal_entry" ==> Money(r.debit) == Money(r.credit))
  {
    hide Money, Sum, Count;
    OneRecordSums(r, r.entity, r.currency, OfAmount);
    OneRecordSums(r, r.entity, r.currency, OfDebit);
    OneRecordSums(r, r.entity, r.currency, OfCredit);
    assert GroupTies(p, r.entity, r.currency) <==> ControlTies(p, c, r.entity, r.currency) by {
      assert p.controls[0] == c;
    }
  }

  lemma {:induction false} OneGroup(p: Population, r: Record, c: Control)
    requires Valid(p) && p.records == [r] && p.controls == [c] && c.entity == r.entity && c.currency == r.currency
    ensures Free(r.entity, '|')
    ensures forall entity, currency ::
      Present(p.controls, p.records, entity, currency) <==> entity == r.entity && currency == r.currency
  {
    hide Valid, Sum, Count;
    assert ValidRecord(p.records[0], p.period) by { FirstRecordValid(p); }
    RecordEntity(r, p.period);
    forall entity, currency
      ensures Present(p.controls, p.records, entity, currency) <==> entity == r.entity && currency == r.currency
    {
      OneRecordSums(r, entity, currency, OfAmount);
      assert p.controls[0] == c;
    }
  }

  lemma {:induction false} FirstRecordValid(p: Population)
    requires Valid(p) && p.records != []
    ensures ValidRecord(p.records[0], p.period)
  {
    hide ValidRecord, ValidControl, ValidHeader;
  }

  // ----- the differences -----

  lemma {:induction false} DifferenceOf(actual: map<string, Control>, expected: map<string, Control>,
      keys: seq<string>, i: nat)
      returns (k: nat)
    requires forall n :: 0 <= n < |keys| ==> keys[n] in actual
    requires i < |Differences(actual, expected, keys)|
    ensures i <= k < |keys| && !Matches(actual[keys[k]], Lookup(expected, keys[k]))
    ensures Differences(actual, expected, keys)[i] == Difference(Lookup(expected, keys[k]), actual[keys[k]])
  {
    hide Matches;
    var n := |keys| - 1;
    FewerDifferences(actual, expected, keys[..n]);
    if i < |Differences(actual, expected, keys[..n])| {
      k := DifferenceOf(actual, expected, keys[..n], i);
    } else {
      k := n;
    }
  }

  lemma {:induction false} FewerDifferences(actual: map<string, Control>, expected: map<string, Control>,
      keys: seq<string>)
    requires forall n :: 0 <= n < |keys| ==> keys[n] in actual
    ensures |Differences(actual, expected, keys)| <= |keys|
  {
    hide Matches;
    if keys != [] {
      FewerDifferences(actual, expected, keys[..|keys| - 1]);
    }
  }

  /** What a difference says of its group. */
  predicate Says(p: Population, x: Difference) {
    var a := x.actual;
    && Free(a.entity, '|') && Present(p.controls, p.records, a.entity, a.currency)
    && !GroupTies(p, a.entity, a.currency)
    && a.count == Count(p.records, a.entity, a.currency)
    && Parse(a.amount) == Some(Sum(p.records, a.entity, a.currency, OfAmount))
    && Parse(a.debit) == Some(Sum(p.records, a.entity, a.currency, OfDebit))
    && Parse(a.credit) == Some(Sum(p.records, a.entity, a.currency, OfCredit))
    && match x.expected
       case None => !HasControl(p.controls, a.entity, a.currency)
       case Some(c) => c in p.controls && c.entity == a.entity && c.currency == a.currency
  }

  lemma {:induction false} GroupSays(p: Population, k: string)
    requires Valid(p) && k in Actual(p.controls, p.records)
    requires !Matches(Actual(p.controls, p.records)[k], Lookup(Expected(p.controls), k))
    ensures Says(p, Difference(Lookup(Expected(p.controls), k), Actual(p.controls, p.records)[k]))
    ensures var a := Actual(p.controls, p.records)[k]; k == Tag(a.entity, a.currency)
  {
    hide Valid, Actual, Expected, Matches, GroupTies, Count, Sum, Parse, Figure;
    ValidIsGrouped(p);
    var entity, currency := KeysAreTags(p.controls, p.records, k);
    ActualIsTotals(p.controls, p.records, entity, currency);
    MatchesIffTies(p, entity, currency);
    ControlsUnique(p);
    ExpectedIsControl(p.controls, entity, currency);
    FigureValue(p.records, entity, currency, OfAmount);
    FigureValue(p.records, entity, currency, OfDebit);
    FigureValue(p.records, entity, currency, OfCredit);
  }

  lemma {:induction false} ControlsUnique(p: Population)
    requires Valid(p)
    ensures UniqueControls(p.controls)
  {
    hide ValidControl, ValidRecord, ValidHeader;
    forall i | 0 <= i < |p.controls|
      ensures Free(p.controls[i].entity, '|')
    {
      ControlEntity(p.controls[i]);
    }
  }

  /**
   Each difference is of a group that does not tie out, and gives its count and
   exact sums and its control, if it has one.
   */
  lemma {:induction false} DifferencesSay(p: Population, d: seq<Difference>, i: nat)
    requires Valid(p) && TiesOut(p, d) && i < |d|
    ensures Says(p, d[i])
  {
    hide Valid, Actual, Expected, Matches, Says;
    var a, e := Actual(p.controls, p.records), Expected(p.controls);
    var keys :| Listing(keys, a.Keys) && (forall i :: 0 <= i < |keys| ==> keys[i] in a) && d == Differences(a, e, keys);
    var k := DifferenceOf(a, e, keys, i);
    GroupSays(p, keys[k]);
  }
}
