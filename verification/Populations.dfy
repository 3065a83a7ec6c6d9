/** The extraction contract and the tie-out against independent controls (internal/domain/domain.go). */
module Populations {
  import opened Strings
  import opened Identity
  import opened Decimals
  import opened Dates

  datatype Record = Record(entity: string, id: string, date: string, amount: string, currency: string,
                           reportingAmount: string, reportingCurrency: string, exchangeRate: string, rateDate: string,
                           vendorId: string, debit: string, credit: string, limit: string,
                           reversal: bool, intercompany: bool)

  datatype Period = Period(id: string, start: string, end: string)

  datatype Control = Control(entity: string, currency: string, count: int, amount: string, debit: string,
      credit: string)

  datatype Population = Population(source: string, period: Period, reference: string,
                                   controls: seq<Control>, records: seq<Record>)

  const ENTITIES := {"payment", "journal_entry", "approval"}

  predicate Currency(s: string) {
    |s| == 3 && forall i :: 0 <= i < 3 ==> 'A' <= s[i] <= 'Z'
  }

  predicate ValidPeriod(p: Period) {
    var a, b := ParseDate(p.start), ParseDate(p.end);
    ValidID(p.id) && a.Some? && b.Some? && a.value <= b.value
  }

  /** `Money` with its error ignored: the zero decimal. */
  function Amount(s: string): int {
    match Money(s) case Some(n) => n case None => 0
  }

  predicate ValidAmounts(r: Record) {
    Money(r.amount).Some? && Money(r.reportingAmount).Some? && Money(r.exchangeRate).Some?
    && Money(r.debit).Some? && Money(r.credit).Some? && Money(r.limit).Some?
  }

  predicate ValidRecord(r: Record, p: Period) {
    var d, a, b := ParseDate(r.date), ParseDate(p.start), ParseDate(p.end);
    && ValidID(r.id) && Currency(r.currency) && Currency(r.reportingCurrency)
    && d.Some? && a.Some? && b.Some? && a.value <= d.value <= b.value
    && ParseDate(r.rateDate).Some?
    && ValidAmounts(r) && Amount(r.exchangeRate) > 0
    && r.entity in ENTITIES
    && (r.entity == "payment" ==> ValidID(r.vendorId) && Amount(r.amount) > 0)
    && (r.entity == "journal_entry" ==>
          Amount(r.debit) >= 0 && Amount(r.credit) >= 0 && (Amount(r.debit) > 0) != (Amount(r.credit) > 0))
    && (r.entity == "approval" ==> Amount(r.limit) >= 0)
  }

  predicate ValidControl(c: Control) {
    Currency(c.currency) && c.count >= 0 && c.entity in ENTITIES
    && Money(c.amount).Some? && Money(c.debit).Some? && Money(c.credit).Some?
  }

  function Tag(a: string, b: string): string {
    a + ['|'] + b
  }

  function GroupOf(r: Record): string {
    Tag(r.entity, r.currency)
  }

  function ControlGroup(c: Control): string {
    Tag(c.entity, c.currency)
  }

  predicate ValidHeader(p: Population) {
    ValidID(p.source) && ValidPeriod(p.period) && 1 <= |p.reference| <= 200 && p.controls != [] && |p.records| <= 100000
  }

  /** No record identity and no control group occurs twice, and every row is well-formed. */
  predicate Valid(p: Population) {
    && ValidHeader(p)
    && (forall i :: 0 <= i < |p.records| ==> ValidRecord(p.records[i], p.period))
    && (forall i, j :: 0 <= i < j < |p.records| ==>
          p.records[i].entity != p.records[j].entity || p.records[i].id != p.records[j].id)
    && (forall i :: 0 <= i < |p.controls| ==> ValidControl(p.controls[i]))
    && (forall i, j :: 0 <= i < j < |p.controls| ==>
          p.controls[i].entity != p.controls[j].entity || p.controls[i].currency != p.controls[j].currency)
  }

  lemma {:induction false} TagInjective(a: string, b: string, c: string, d: string)
    requires Free(a, '|') && Free(c, '|')
    ensures Tag(a, b) == Tag(c, d) <==> a == c && b == d
  {
    if Tag(a, b) == Tag(c, d) {
      SplitAtFirst(a, b, c, d, '|');
    }
  }

  lemma {:induction false} EntitiesAreFree(e: string)
    requires e in ENTITIES
    ensures Free(e, '|') && Free(e, UNIT)
  {
  }

  method Validate(p: Population) returns (ok: bool)
    ensures ok <==> Valid(p)
  {
    hide ValidRecord, ValidControl, ValidHeader, Tag;
    if !ValidHeader(p) { return false; }
    var seen := {};
    for i := 0 to |p.records|
      invariant seen == set k | 0 <= k < i :: Tag(p.records[k].entity, p.records[k].id)
      invariant forall k :: 0 <= k < i ==> ValidRecord(p.records[k], p.period)
      invariant forall j, k :: 0 <= j < k < i ==>
        p.records[j].entity != p.records[k].entity || p.records[j].id != p.records[k].id
    {
      var r := p.records[i];
      var tag := Tag(r.entity, r.id);
      forall k | 0 <= k < i
        ensures ValidRecord(r, p.period) ==>
          (Tag(p.records[k].entity, p.records[k].id) == tag <==>
            p.records[k].entity == r.entity && p.records[k].id == r.id)
      {
        if ValidRecord(r, p.period) {
          RecordEntity(p.records[k], p.period);
          RecordEntity(r, p.period);
          TagInjective(p.records[k].entity, p.records[k].id, r.entity, r.id);
        }
      }
      if tag in seen || !ValidRecord(r, p.period) {
        return false;
      }
      seen := seen + {tag};
    }
    seen := {};
    for i := 0 to |p.controls|
      invariant seen == set k | 0 <= k < i :: ControlGroup(p.controls[k])
      invariant forall k :: 0 <= k < i ==> ValidControl(p.controls[k])
      invariant forall j, k :: 0 <= j < k < i ==>
        p.controls[j].entity != p.controls[k].entity || p.controls[j].currency != p.controls[k].currency
    {
      var c := p.controls[i];
      forall k | 0 <= k < i
        ensures ValidControl(c) ==>
          (ControlGroup(p.controls[k]) == ControlGroup(c) <==>
             p.controls[k].entity == c.entity && p.controls[k].currency == c.currency)
      {
        if ValidControl(c) {
          ControlEntity(p.controls[k]);
          ControlEntity(c);
          TagInjective(p.controls[k].entity, p.controls[k].currency, c.entity, c.currency);
        }
      }
      if ControlGroup(c) in seen || !ValidControl(c) {
        return false;
      }
      seen := seen + {ControlGroup(c)};
    }
    return true;
  }

  lemma {:induction false} RecordEntity(r: Record, p: Period)
    requires ValidRecord(r, p)
    ensures Free(r.entity, '|')
  {
    EntitiesAreFree(r.entity);
  }

  lemma {:induction false} ControlEntity(c: Control)
    requires ValidControl(c)
    ensures Free(c.entity, '|')
  {
    EntitiesAreFree(c.entity);
  }
}
