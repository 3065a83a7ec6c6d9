/** What may be added to populations, workflows and parameters without making them invalid. */
module Admission {
  import opened Common
  import opened Strings
  import opened Identity
  import opened Decimals
  import opened Dates
  import opened Populations
  import opened Rules
  import ReviewCase

  // ----- populations -----

  /** A record may join exactly the valid populations that have room for it and no record of its entity and id. */
  lemma {:induction false} RecordAdded(p: Population, r: Record)
    ensures Valid(p.(records := p.records + [r])) <==>
      Valid(p) && |p.records| < 100000 && ValidRecord(r, p.period)
      && forall i :: 0 <= i < |p.records| ==> p.records[i].entity != r.entity || p.records[i].id != r.id
  {
    hide ValidRecord, ValidControl, ValidPeriod, ValidID;
    var more := p.records + [r];
    assert forall i :: 0 <= i < |p.records| ==> more[i] == p.records[i];
    assert more[|p.records|] == r;
  }

  /** A further control may join exactly where its entity and currency have none yet. */
  lemma {:induction false} ControlAdded(p: Population, c: Control)
    requires p.controls != []
    ensures Valid(p.(controls := p.controls + [c])) <==>
      Valid(p) && ValidControl(c)
      && forall i :: 0 <= i < |p.controls| ==>
           p.controls[i].entity != c.entity || p.controls[i].currency != c.currency
  {
    hide ValidRecord, ValidControl, ValidPeriod, ValidID;
    var more := p.controls + [c];
    assert forall i :: 0 <= i < |p.controls| ==> more[i] == p.controls[i];
    assert more[|p.controls|] == c;
  }

  /** The smallest populations: a period that does not end before it starts, a reference and one control. */
  lemma {:induction false} SmallestPopulation(source: string, period: Period, reference: string, c: Control)
    ensures Valid(Population(source, period, reference, [c], [])) <==>
      && ValidID(source) && ValidID(period.id)
      && ParseDate(period.start).Some? && ParseDate(period.end).Some?
      && ParseDate(period.start).value <= ParseDate(period.end).value
      && 1 <= |reference| <= 200 && ValidControl(c)
    ensures !Valid(Population(source, period, reference, [], []))
  {
    hide ValidControl, ValidID, ParseDate;
    var p := Population(source, period, reference, [c], []);
    assert p.controls[0] == c;
  }

  /** A record whose amounts are reported in their own currency at par. */
  function PlainRecord(entity: string, id: string, date: string, currency: string, amount: string, limit: string,
      debit: string, credit: string, vendor: string): Record
  {
    Record(entity, id, date, amount, currency, "1", currency, "1", date, vendor, debit, credit, limit, false, false)
  }

  lemma {:induction false} OneIsMoney()
    ensures Money("1") == Some(SCALE) && Money("0") == Some(0)
  {
    assert "1"[..0] == "" && "0"[..0] == "";
    assert PointAt("1"[1..]) == 0 && PointAt("0"[1..]) == 0;
    assert PointAt("1") == 1 && PointAt("0") == 1;
    assert "1"[..1] == "1" && "0"[..1] == "0";
    assert NatValue("1") == 1 && NatValue("0") == 0;
  }

  /** A payment is valid exactly with an amount above zero and a vendor. */
  lemma {:induction false} PaymentAdmitted(p: Period, id: string, date: string, currency: string, amount: string,
      vendor: string)
    ensures ValidRecord(PlainRecord("payment", id, date, currency, amount, "0", "0", "0", vendor), p) <==>
      && ValidID(id) && ValidID(vendor) && Currency(currency) && InPeriod(date, p)
      && Money(amount).Some? && Money(amount).value > 0
  {
    hide Money, ParseDate, ValidID, Currency;
    OneIsMoney();
  }

  predicate InPeriod(date: string, p: Period) {
    var d, a, b := ParseDate(date), ParseDate(p.start), ParseDate(p.end);
    d.Some? && a.Some? && b.Some? && a.value <= d.value <= b.value
  }

  /** A journal line is valid exactly with one side above zero and the other zero. */
  lemma {:induction false} JournalAdmitted(p: Period, id: string, date: string, currency: string, debit: string,
      credit: string)
    ensures ValidRecord(PlainRecord("journal_entry", id, date, currency, "0", "0", debit, credit, ""), p) <==>
      && ValidID(id) && Currency(currency) && InPeriod(date, p)
      && Money(debit).Some? && Money(credit).Some?
      && ((Money(debit).value > 0 && Money(credit).value == 0) || (Money(debit).value == 0 && Money(credit).value > 0))
  {
    hide Money, ParseDate, ValidID, Currency;
    OneIsMoney();
  }

  /** An approval is valid exactly with an amount of any sign and a limit that is not negative. */
  lemma {:induction false} ApprovalAdmitted(p: Period, id: string, date: string, currency: string, amount: string,
      limit: string)
    ensures ValidRecord(PlainRecord("approval", id, date, currency, amount, limit, "0", "0", ""), p) <==>
      && ValidID(id) && Currency(currency) && InPeriod(date, p)
      && Money(amount).Some? && Money(limit).Some? && Money(limit).value >= 0
  {
    hide Money, ParseDate, ValidID, Currency;
    OneIsMoney();
  }

  /** No other entity is valid, and every amount of a valid record is an amount. */
  lemma {:induction false} OtherEntitiesRefused(r: Record, p: Period)
    requires ValidRecord(r, p)
    ensures r.entity in {"payment", "journal_entry", "approval"}
    ensures Money(r.reportingAmount).Some? && Money(r.exchangeRate).Some? && Money(r.exchangeRate).value > 0
    ensures Currency(r.reportingCurrency) && ParseDate(r.rateDate).Some?
  {
    hide Money, ParseDate, ValidID, Currency;
  }

  // ----- workflows -----

  /** The roles of steps. */
  const STEP_ROLES := {"implementer", "rule_engineer", "auditor", "audit_manager"}

  predicate StepAdmitted(s: ReviewCase.Step) {
    1 <= |TrimSpace(s.name)| && |s.name| <= 80 && s.role in STEP_ROLES
  }

  lemma {:induction false} StepIs(s: ReviewCase.Step)
    ensures ReviewCase.ValidStep(s) <==> StepAdmitted(s)
  {
    hide TrimSpace;
    assert "implementer" != "admin" && "rule_engineer" != "admin" && "auditor" != "admin" && "audit_manager" != "admin";
  }

  /** A step may follow exactly the valid workflows of fewer than twenty steps without one of its name. */
  lemma {:induction false} StepAdded(w: ReviewCase.Workflow, s: ReviewCase.Step)
    requires |w.steps| >= 2
    ensures ReviewCase.Valid(w.(steps := w.steps + [s])) <==>
      ReviewCase.Valid(w) && |w.steps| < 20 && StepAdmitted(s)
      && forall i :: 0 <= i < |w.steps| ==> w.steps[i].name != s.name
  {
    hide TrimSpace, ReviewCase.ValidStep, StepAdmitted;
    StepIs(s);
    var more := w.steps + [s];
    assert forall i :: 0 <= i < |w.steps| ==> more[i] == w.steps[i];
    assert more[|w.steps|] == s;
  }

  /** The smallest workflows: two steps of different names, the first for whoever holds its role. */
  lemma {:induction false} SmallestWorkflow(name: string, a: ReviewCase.Step, b: ReviewCase.Step)
    ensures ReviewCase.Valid(ReviewCase.Workflow(name, [a, b])) <==>
      && 1 <= |TrimSpace(name)| && |name| <= 100 && StepAdmitted(a) && StepAdmitted(b)
      && a.name != b.name && !a.differentActor
    ensures !ReviewCase.Valid(ReviewCase.Workflow(name, [a])) && !ReviewCase.Valid(ReviewCase.Workflow(name, []))
  {
    hide TrimSpace, ReviewCase.ValidStep, StepAdmitted;
    StepIs(a);
    StepIs(b);
    var w := ReviewCase.Workflow(name, [a, b]);
    assert w.steps[0] == a && w.steps[1] == b;
  }

  // ----- parameters -----

  /** A further threshold may be listed exactly for a currency and an amount that is not negative. */
  lemma {:induction false} ThresholdListed(p: Parameters, currency: string, amount: string)
    requires currency !in p.thresholds
    ensures ValidParameters(p.(thresholds := p.thresholds[currency := amount])) <==>
      ValidParameters(p) && Currency(currency) && Money(amount).Some? && Money(amount).value >= 0
  {
    hide Money, Currency;
    var q := p.(thresholds := p.thresholds[currency := amount]);
    assert forall c :: c in p.thresholds ==> c in q.thresholds && q.thresholds[c] == p.thresholds[c];
  }

  /** A day of the week may be added exactly once. */
  lemma {:induction false} DayAdded(p: Parameters, day: int)
    requires p.weekend != []
    ensures ValidParameters(p.(weekend := p.weekend + [day])) <==>
      ValidParameters(p) && |p.weekend| < 7 && 0 <= day <= 6 && day !in p.weekend
  {
    hide NonNegative, Currency;
    var more := p.weekend + [day];
    assert forall i :: 0 <= i < |p.weekend| ==> more[i] == p.weekend[i];
    assert more[|p.weekend|] == day;
  }

  /** The smallest parameters. */
  lemma {:induction false} SmallestParameters(explicit: bool, materiality: string, day: int, ceiling: int)
    ensures ValidParameters(Parameters(explicit, materiality, map[], [day], ceiling)) <==>
      Money(materiality).Some? && Money(materiality).value >= 0 && 0 <= day <= 6 && 1 <= ceiling <= 100000
    ensures !ValidParameters(Parameters(explicit, materiality, map[], [], ceiling))
  {
    hide Money;
    var p := Parameters(explicit, materiality, map[], [day], ceiling);
    assert p.weekend[0] == day;
  }
}
