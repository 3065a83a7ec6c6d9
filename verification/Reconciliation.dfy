/** `TieOut`: exact counts and totals, per entity and currency, before any test runs. */
module Reconciliation {
  import opened Common
  import opened Strings
  import opened Decimals
  import opened Populations

  /** Both figures of a group that does not tie out; a missing control is `None`. */
  datatype Difference = Difference(expected: Option<Control>, actual: Control)

  function Zeroed(c: Control): Control {
    Control(c.entity, c.currency, 0, "0", "0", "0")
  }

  function Plus(text: string, amount: string): string {
    var a := Parse(text);
    Fixed4((if a.Some? then a.value else 0) + Amount(amount))
  }

  function AddRecord(m: map<string, Control>, r: Record): map<string, Control> {
    var k := GroupOf(r);
    var c := if k in m then m[k] else Control(r.entity, r.currency, 0, "0", "0", "0");
    m[k := Control(c.entity, c.currency, c.count + 1, Plus(c.amount, r.amount), Plus(c.debit, r.debit),
      Plus(c.credit, r.credit))]
  }

  /** The actual figures after some records, starting from one zero figure per control. */
  function Actual(controls: seq<Control>, records: seq<Record>): map<string, Control> {
    if records != [] then AddRecord(Actual(controls, records[..|records| - 1]), records[|records| - 1])
    else if controls == [] then map[]
    else
      var c := controls[|controls| - 1];
      Actual(controls[..|controls| - 1], [])[ControlGroup(c) := Zeroed(c)]
  }

  function Expected(controls: seq<Control>): map<string, Control> {
    if controls == [] then map[]
    else
      var c := controls[|controls| - 1];
      Expected(controls[..|controls| - 1])[ControlGroup(c) := c]
  }

  predicate SameAmount(actual: string, expected: string) {
    Parse(actual).Some? && Money(expected).Some? && Parse(actual).value == Money(expected).value
  }

  predicate Matches(a: Control, e: Option<Control>) {
    && e.Some? && a.count == e.value.count
    && SameAmount(a.amount, e.value.amount) && SameAmount(a.debit, e.value.debit)
       && SameAmount(a.credit, e.value.credit)
    && (a.entity == "journal_entry" ==> Parse(a.debit) == Parse(a.credit))
  }

  function Lookup(m: map<string, Control>, k: string): Option<Control> {
    if k in m then Some(m[k]) else None
  }

  function Differences(actual: map<string, Control>, expected: map<string, Control>, keys: seq<string>): seq<Difference>
    requires forall i :: 0 <= i < |keys| ==> keys[i] in actual
  {
    if keys == [] then []
    else
      var k := keys[|keys| - 1];
      Differences(actual, expected, keys[..|keys| - 1])
      + (if Matches(actual[k], Lookup(expected, k)) then [] else [Difference(Lookup(expected, k), actual[k])])
  }

  /** The groups in sorted order, each once. */
  ghost predicate Listing(keys: seq<string>, groups: set<string>) {
    Sorted(keys) && multiset(keys) == multiset(groups)
  }

  lemma {:induction false} ListingMembers(keys: seq<string>, groups: set<string>)
    requires Listing(keys, groups)
    ensures forall k :: k in keys <==> k in groups
  {
    forall k
      ensures k in keys <==> k in groups
    {
      assert k in keys <==> k in multiset(keys);
    }
  }

  /** What `TieOut` returns. */
  ghost predicate TiesOut(p: Population, d: seq<Difference>) {
    var a := Actual(p.controls, p.records);
    exists keys :: Listing(keys, a.Keys) && (forall i :: 0 <= i < |keys| ==> keys[i] in a)
      && d == Differences(a, Expected(p.controls), keys)
  }

  /** Collects the keys of a Go map, in whatever order, and sorts them. */
  method SortedKeys(groups: set<string>) returns (keys: seq<string>)
    ensures Listing(keys, groups)
  {
    keys := [];
    var left := groups;
    while left != {}
      invariant left <= groups && multiset(keys) == multiset(groups - left)
    {
      var k :| k in left;
      assert groups - (left - {k}) == (groups - left) + {k};
      keys, left := keys + [k], left - {k};
    }
    assert groups - {} == groups;
    SortSorted(keys);
    keys := Sort(keys);
  }

  method Accumulate(p: Population) returns (actual: map<string, Control>, expected: map<string, Control>)
    ensures actual == Actual(p.controls, p.records) && expected == Expected(p.controls)
  {
    hide Plus;
    actual, expected := map[], map[];
    for i := 0 to |p.controls|
      invariant actual == Actual(p.controls[..i], []) && expected == Expected(p.controls[..i])
    {
      var c := p.controls[i];
      assert p.controls[..i + 1][..i] == p.controls[..i];
      expected := expected[ControlGroup(c) := c];
      actual := actual[ControlGroup(c) := Zeroed(c)];
    }
    assert p.controls[..|p.controls|] == p.controls;
    for i := 0 to |p.records|
      invariant actual == Actual(p.controls, p.records[..i])
    {
      var r := p.records[i];
      assert p.records[..i + 1][..i] == p.records[..i];
      var k := GroupOf(r);
      var c := if k in actual then actual[k] else Control(r.entity, r.currency, 0, "0", "0", "0");
      c := c.(count := c.count + 1);
      c := c.(amount := Plus(c.amount, r.amount));
      c := c.(debit := Plus(c.debit, r.debit));
      c := c.(credit := Plus(c.credit, r.credit));
      actual := actual[k := c];
    }
    assert p.records[..|p.records|] == p.records;
  }

  method TieOut(p: Population) returns (d: seq<Difference>)
    ensures TiesOut(p, d)
  {
    hide Matches, Actual, Expected;
    var actual, expected := Accumulate(p);
    var keys := SortedKeys(actual.Keys);
    ListingMembers(keys, actual.Keys);
    d := [];
    for i := 0 to |keys|
      invariant d == Differences(actual, expected, keys[..i])
    {
      var k := keys[i];
      assert keys[..i + 1][..i] == keys[..i];
      if !Matches(actual[k], Lookup(expected, k)) {
        d := d + [Difference(Lookup(expected, k), actual[k])];
      }
    }
    assert keys[..|keys|] == keys;
  }

  // ----- what the figures mean -----

  datatype Field = OfAmount | OfDebit | OfCredit

  function Get(r: Record, f: Field): string {
    match f case OfAmount => r.amount case OfDebit => r.debit case OfCredit => r.credit
  }

  predicate InGroup(r: Record, entity: string, currency: string) {
    r.entity == entity && r.currency == currency
  }

  function Count(records: seq<Record>, entity: string, currency: string): nat {
    if records == [] then 0
    else Count(records[..|records| - 1], entity, currency)
         + (if InGroup(records[|records| - 1], entity, currency) then 1 else 0)
  }

  function Sum(records: seq<Record>, entity: string, currency: string, f: Field): int {
    if records == [] then 0
    else Sum(records[..|records| - 1], entity, currency, f)
         + (if InGroup(records[|records| - 1], entity, currency) then Amount(Get(records[|records| - 1], f)) else 0)
  }

  function Figure(records: seq<Record>, entity: string, currency: string, f: Field): string {
    if Count(records, entity, currency) == 0 then "0" else Fixed4(Sum(records, entity, currency, f))
  }

  /** The count and the exact totals of one group. */
  function Totals(records: seq<Record>, entity: string, currency: string): Control {
    Control(entity, currency, Count(records, entity, currency), Figure(records, entity, currency, OfAmount),
            Figure(records, entity, currency, OfDebit), Figure(records, entity, currency, OfCredit))
  }

  predicate HasControl(controls: seq<Control>, entity: string, currency: string) {
    exists i :: 0 <= i < |controls| && controls[i].entity == entity && controls[i].currency == currency
  }

  predicate Present(controls: seq<Control>, records: seq<Record>, entity: string, currency: string) {
    HasControl(controls, entity, currency) || Count(records, entity, currency) > 0
  }

  lemma {:induction false} EmptyGroupSums(records: seq<Record>, entity: string, currency: string, f: Field)
    requires Count(records, entity, currency) == 0
    ensures Sum(records, entity, currency, f) == 0
  {
    if records != [] {
      EmptyGroupSums(records[..|records| - 1], entity, currency, f);
    }
  }

  lemma {:induction false} FigureValue(records: seq<Record>, entity: string, currency: string, f: Field)
    ensures Parse(Figure(records, entity, currency, f)) == Some(Sum(records, entity, currency, f))
  {
    if Count(records, entity, currency) == 0 {
      EmptyGroupSums(records, entity, currency, f);
      assert PointAt("0") == 1 && NatValue("0") == 0 by {
        assert "0"[..0] == "";
      }
      assert "0"[..1] == "0";
    } else {
      ParseFixed4(Sum(records, entity, currency, f));
    }
  }

  // ----- the accumulated figures are the exact totals -----

  predicate Grouped(controls: seq<Control>, records: seq<Record>) {
    && (forall i :: 0 <= i < |controls| ==> Free(controls[i].entity, '|'))
    && (forall i :: 0 <= i < |records| ==> Free(records[i].entity, '|'))
  }

  lemma {:induction false} FigureNext(records: seq<Record>, r: Record, entity: string, currency: string, f: Field)
    requires InGroup(r, entity, currency)
    ensures Plus(Figure(records, entity, currency, f), Get(r, f)) == Figure(records + [r], entity, currency, f)
  {
    hide Parse, Fixed4, Amount;
    FigureValue(records, entity, currency, f);
    assert (records + [r])[..|records|] == records;
  }

  lemma {:induction false} TotalsNext(records: seq<Record>, r: Record, entity: string, currency: string)
    ensures Totals(records + [r], entity, currency) ==
      if !InGroup(r, entity, currency) then Totals(records, entity, currency)
      else
        var c := Totals(records, entity, currency);
        Control(entity, currency, c.count + 1, Plus(c.amount, r.amount), Plus(c.debit, r.debit),
          Plus(c.credit, r.credit))
  {
    hide Plus;
    assert (records + [r])[..|records|] == records;
    if InGroup(r, entity, currency) {
      FigureNext(records, r, entity, currency, OfAmount);
      FigureNext(records, r, entity, currency, OfDebit);
      FigureNext(records, r, entity, currency, OfCredit);
    }
  }

  /** Every group's accumulated figure is its count and exact totals, whatever the order of the records. */
  lemma {:induction false} ActualIsTotals(controls: seq<Control>, records: seq<Record>, entity: string,
      currency: string)
    requires Grouped(controls, records) && Free(entity, '|')
    ensures Lookup(Actual(controls, records), Tag(entity, currency)) ==
      if Present(controls, records, entity, currency) then Some(Totals(records, entity, currency)) else None
  {
    hide Totals, Plus;
    if records != [] {
      var n := |records| - 1;
      var r := records[n];
      ActualIsTotals(controls, records[..n], entity, currency);
      ActualIsTotals(controls, records[..n], r.entity, r.currency);
      assert records == records[..n] + [r];
      TotalsNext(records[..n], r, entity, currency);
      TotalsOfNothing(records[..n], entity, currency);
      TagInjective(r.entity, r.currency, entity, currency);
    } else if controls != [] {
      var n := |controls| - 1;
      var c := controls[n];
      ActualIsTotals(controls[..n], [], entity, currency);
      TagInjective(c.entity, c.currency, entity, currency);
      assert HasControl(controls, entity, currency) <==>
          (c.entity == entity && c.currency == currency) || HasControl(controls[..n], entity, currency) by {
        assert forall i :: 0 <= i < n ==> controls[..n][i] == controls[i];
      }
      TotalsOfNothing([], entity, currency);
    }
  }

  lemma {:induction false} TotalsOfNothing(records: seq<Record>, entity: string, currency: string)
    ensures Count(records, entity, currency) == 0 ==>
      Totals(records, entity, currency) == Control(entity, currency, 0, "0", "0", "0")
    ensures Totals(records, entity, currency).count == Count(records, entity, currency)
    ensures Totals(records, entity, currency).entity == entity && Totals(records, entity, currency).currency == currency
  {
  }
}
