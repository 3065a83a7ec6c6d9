/**
 Which records raise a finding, said by the fields of the population, the
 parameters and the manifest alone.
 */
module Raised {
  import opened Strings
  import opened Identity
  import opened Decimals
  import opened Dates
  import opened Populations
  import opened Reconciliation
  import opened TieOutLaws
  import opened Rules
  import opened Candidates
  import opened Ledger
  import opened RunLaws
  import opened Analysis
  import opened AnalysisLaws
  import opened Reruns

  // ----- the tested rules -----

  predicate Covered(p: Population, entity: string) {
    exists i :: 0 <= i < |p.controls| && p.controls[i].entity == entity
  }

  /** A rule is tested exactly when it is released and some control covers what it tests. */
  lemma {:induction false} TestedIff(x: Payload, versions: Versions, rule: string)
    requires Analyse(x, versions).Ready?
    ensures rule in Analyse(x, versions).scope <==>
      rule in x.manifest
      && ((rule == "AP-01" && Covered(x.population, "payment"))
          || (rule == "AP-02" && Covered(x.population, "approval"))
          || (rule == "JE-01" && Covered(x.population, "journal_entry")))
    ensures rule in Analyse(x, versions).scope ==> Analyse(x, versions).scope[rule] == x.manifest[rule]
  {
    hide ValidParameters, Valid, AllPriced, TiesOut, Generate, Score, Models;
    NamesAreKeyParts();
    assert "AP-02"[0] != "JE-01"[0];
  }

  /** What ties out has a control for every record. */
  lemma {:induction false} RecordsCovered(p: Population, i: nat)
    requires Valid(p) && TiesOut(p, []) && i < |p.records|
    ensures Covered(p, p.records[i].entity)
  {
    hide Valid, TiesOut, ControlTies;
    var r := p.records[i];
    RecordValid(p, i);
    RecordEntity(r, p.period);
    TiesOutIff(p, []);
    RecordPresent(p, i);
    assert GroupTies(p, r.entity, r.currency);
    var k :| 0 <= k < |p.controls| && ControlTies(p, p.controls[k], r.entity, r.currency);
    TiesMeans(p, p.controls[k], r.entity, r.currency);
  }

  lemma {:induction false} TiesMeans(p: Population, c: Control, entity: string, currency: string)
    requires ControlTies(p, c, entity, currency)
    ensures c.entity == entity
  {
  }

  lemma {:induction false} RecordPresent(p: Population, i: nat)
    requires i < |p.records|
    ensures Present(p.controls, p.records, p.records[i].entity, p.records[i].currency)
  {
    CountPositive(p.records, i);
  }

  lemma {:induction false} CountPositive(records: seq<Record>, i: nat)
    requires i < |records|
    ensures Count(records, records[i].entity, records[i].currency) > 0
  {
    if i < |records| - 1 {
      CountPositive(records[..|records| - 1], i);
    }
  }

  lemma {:induction false} RecordValid(p: Population, i: nat)
    requires Valid(p) && i < |p.records|
    ensures ValidRecord(p.records[i], p.period)
  {
    hide ValidRecord, ValidControl, ValidHeader;
  }

  /** A ready run's population is valid, ties out, and every amount in it can be compared. */
  lemma {:induction false} ReadyRecord(x: Payload, versions: Versions, i: nat)
    requires Analyse(x, versions).Ready? && i < |x.population.records|
    ensures var r := x.population.records[i];
      && Valid(x.population) && AllPriced(x.population, x.params) && Covered(x.population, r.entity)
      && ValidID(r.id) && ParseDate(r.date).Some?
      && Money(r.amount).Some? && Money(r.debit).Some? && Money(r.credit).Some? && Money(r.limit).Some?
      && (r.currency in x.params.thresholds || (r.currency == "USD" && !x.params.explicit))
      && Money(ThresholdText(x, r)).Some? && Threshold(x.params, r.currency) == ThresholdText(x, r)
  {
    hide Analyse, Valid, TiesOut, Generate, Score, Scope, Models, ValidID, Currency, Covered, Money;
    var all := ReadyMeans(x, versions);
    RecordValid(x.population, i);
    RecordsCovered(x.population, i);
    assert MaterialityFor(x.params, x.population.records[i].currency).Some?;
  }

  /** The threshold of the record's currency: its own where one is listed, else the materiality. */
  function ThresholdText(x: Payload, r: Record): string {
    if r.currency in x.params.thresholds then x.params.thresholds[r.currency] else x.params.materiality
  }

  // ----- the three tests -----

  predicate AtLeast(amount: int, text: string) {
    Money(text).Some? && amount >= Money(text).value
  }

  lemma {:induction false} AmountOfMoney(s: string)
    requires Money(s).Some?
    ensures Amount(s) == Money(s).value
  {
    hide Money;
  }

  lemma {:induction false} FlaggedRuleTested(x: Payload, versions: Versions, rule: string, i: nat, run: nat, at: int)
    requires ReadyReleased(x, versions) && i < |x.population.records| && KeyPart(rule)
    requires var r := Analyse(x, versions);
      Flagged(ContextOf(run, x, r.scope, at), r.rows, RowKey(x, rule, x.population.records[i]))
    ensures rule in Analyse(x, versions).scope
  {
    hide Analyse, Valid, EntityID, ExceptionKey, Free, ValidID, ScopeReleased, VersionsAccepted, AllPriced, Covered,
         Money, Threshold, ThresholdText, KeyPart;
    var r, rec := Analyse(x, versions), x.population.records[i];
    var ctx := ContextOf(run, x, r.scope, at);
    ReadyReleasedMeans(x, versions);
    ReadyRowsValid(x, versions, run, at);
    ReadyRecord(x, versions, i);
    var n :| 0 <= n < |r.rows| && KeyOf(ctx, r.rows[n].candidate) == RowKey(x, rule, rec);
    var c := r.rows[n].candidate;
    var ids :| AllValid(ids) && c.entityId == EntityID(ctx.source, ids);
    EntityIDIsKeyPart(ctx.source, ids);
    ValidSource(x.population);
    ValidIdIsKeyPart(x.population.period.id);
    EntityIDIsKeyPart(ctx.source, [rec.id]);
    RecordNamed(x.population, i);
    ExceptionKeyInjective(c.rule, c.entity, c.entityId, ctx.period, rule, rec.entity, EntityID(ctx.source, [rec.id]),
      ctx.period);
  }

  lemma {:induction false} RecordNamed(p: Population, i: nat)
    requires Valid(p) && i < |p.records|
    ensures KeyPart(p.records[i].entity)
  {
    hide Valid, ValidID, ValidAmounts, Free;
    RecordValid(p, i);
    EntitiesAreFree(p.records[i].entity);
  }

  lemma {:induction false} ReadyReleasedMeans(x: Payload, versions: Versions)
    requires ReadyReleased(x, versions)
    ensures Analyse(x, versions).Ready? && VersionsAccepted(versions)
    ensures ScopeReleased(Analyse(x, versions).scope, versions)
  {
    hide Analyse;
  }

  /**
   An approval raises a finding exactly when its test is released, its amount
   exceeds its limit and reaches the threshold listed for its currency, or the
   materiality for unlisted US dollars, compared as exact decimals.
   */
  lemma {:induction false} ApprovalRaisedIff(x: Payload, versions: Versions, i: nat, run: nat, at: int)
    requires ReadyReleased(x, versions)
    requires i < |x.population.records| && x.population.records[i].entity == "approval"
    ensures var r := x.population.records[i];
      && (r.currency in x.params.thresholds || (r.currency == "USD" && !x.params.explicit))
      && Money(r.amount).Some? && Money(r.limit).Some?
      && (Flagged(ContextOf(run, x, Analyse(x, versions).scope, at), Analyse(x, versions).rows, RowKey(x, "AP-02", r))
         <==>
           && "AP-02" in x.manifest && Money(r.amount).value > Money(r.limit).value
           && AtLeast(Money(r.amount).value,
                if r.currency in x.params.thresholds then x.params.thresholds[r.currency] else x.params.materiality))
  {
    hide ReadyReleased, Analyse, Valid, AllPriced, Covered, Flagged, RowKey, Money, Amount, Threshold, ValidID, KeyPart;
    var r := x.population.records[i];
    ReadyReleasedMeans(x, versions);
    ReadyRecord(x, versions, i);
    TestedIff(x, versions, "AP-02");
    NamesAreKeyParts();
    AmountOfMoney(r.amount);
    AmountOfMoney(r.limit);
    AmountOfMoney(ThresholdText(x, r));
    if "AP-02" in x.manifest {
      ApprovalFlaggedIff(x, versions, i, run, at);
    } else if Flagged(ContextOf(run, x, Analyse(x, versions).scope, at), Analyse(x, versions).rows,
                      RowKey(x, "AP-02", r)) {
      FlaggedRuleTested(x, versions, "AP-02", i, run, at);
    }
  }

  /**
   A journal line raises a finding exactly when its test is released, it is
   posted on a configured non-working day, and debit plus credit reaches the
   threshold of its currency.
   */
  lemma {:induction false} JournalRaisedIff(x: Payload, versions: Versions, i: nat, run: nat, at: int)
    requires ReadyReleased(x, versions)
    requires i < |x.population.records| && x.population.records[i].entity == "journal_entry"
    ensures var r := x.population.records[i];
      && (r.currency in x.params.thresholds || (r.currency == "USD" && !x.params.explicit))
      && Money(r.debit).Some? && Money(r.credit).Some? && ParseDate(r.date).Some?
      && (Flagged(ContextOf(run, x, Analyse(x, versions).scope, at), Analyse(x, versions).rows, RowKey(x, "JE-01", r))
         <==>
           && "JE-01" in x.manifest && Weekday(ParseDate(r.date).value) in x.params.weekend
           && AtLeast(Money(r.debit).value + Money(r.credit).value,
                if r.currency in x.params.thresholds then x.params.thresholds[r.currency] else x.params.materiality))
  {
    hide ReadyReleased, Analyse, Valid, AllPriced, Covered, Flagged, RowKey, Money, Amount, Threshold, ValidID, KeyPart,
         ParseDate, Weekday;
    var r := x.population.records[i];
    ReadyReleasedMeans(x, versions);
    ReadyRecord(x, versions, i);
    TestedIff(x, versions, "JE-01");
    NamesAreKeyParts();
    AmountOfMoney(r.debit);
    AmountOfMoney(r.credit);
    AmountOfMoney(ThresholdText(x, r));
    if "JE-01" in x.manifest {
      JournalFlaggedIff(x, versions, i, run, at);
    } else if Flagged(ContextOf(run, x, Analyse(x, versions).scope, at), Analyse(x, versions).rows,
                      RowKey(x, "JE-01", r)) {
      FlaggedRuleTested(x, versions, "JE-01", i, run, at);
    }
  }

  /**
   Two payments raise a finding exactly when the test is released, neither is a
   reversal or intercompany, vendor, currency and exact amount agree, their
   dates are at most thirty days apart, and the amount reaches the threshold.
   */
  lemma {:induction false} DuplicateRaisedIff(x: Payload, versions: Versions, i: nat, j: nat, run: nat, at: int)
    requires ReadyReleased(x, versions)
    requires i < j < |x.population.records|
    requires x.population.records[i].entity == "payment" && x.population.records[j].entity == "payment"
    ensures var a, b := x.population.records[i], x.population.records[j];
      && (a.currency in x.params.thresholds || (a.currency == "USD" && !x.params.explicit))
      && Money(a.amount).Some? && Money(b.amount).Some? && ParseDate(a.date).Some? && ParseDate(b.date).Some?
      && (Flagged(ContextOf(run, x, Analyse(x, versions).scope, at), Analyse(x, versions).rows, PairKey(x, a, b))
         <==>
           && "AP-01" in x.manifest
           && !a.reversal && !b.reversal && !a.intercompany && !b.intercompany
           && a.vendorId == b.vendorId && a.currency == b.currency && Money(a.amount) == Money(b.amount)
           && -30 <= ParseDate(b.date).value - ParseDate(a.date).value <= 30
           && AtLeast(Money(a.amount).value,
                if a.currency in x.params.thresholds then x.params.thresholds[a.currency] else x.params.materiality))
  {
    hide ReadyReleased, Analyse, Valid, AllPriced, Covered, Flagged, PairKey, Money, Amount, Threshold, ValidID,
         ParseDate;
    var a, b := x.population.records[i], x.population.records[j];
    ReadyReleasedMeans(x, versions);
    ReadyRecord(x, versions, i);
    ReadyRecord(x, versions, j);
    TestedIff(x, versions, "AP-01");
    AmountOfMoney(a.amount);
    AmountOfMoney(b.amount);
    AmountOfMoney(ThresholdText(x, a));
    PaymentIdsDiffer(x.population, i, j);
    DuplicateFlaggedIff(x, versions, i, j, run, at);
  }

  lemma {:induction false} PaymentIdsDiffer(p: Population, i: nat, j: nat)
    requires Valid(p) && i < j < |p.records| && p.records[i].entity == p.records[j].entity
    ensures p.records[i].id != p.records[j].id
  {
    hide ValidRecord, ValidControl, ValidHeader;
  }

  /**
   With valid parameters and a valid population, a run halts before its first
   stage exactly when some record has a currency that is not listed, unless it
   is US dollars and the parameters do not ask for listed currencies.
   */
  lemma {:induction false} UnpricedHaltsIff(x: Payload, versions: Versions)
    requires ValidParameters(x.params) && Valid(x.population)
    ensures Analyse(x, versions) == Halted(Failed, 0) <==>
      exists i :: 0 <= i < |x.population.records|
        && x.population.records[i].currency !in x.params.thresholds
        && (x.population.records[i].currency != "USD" || x.params.explicit)
  {
    hide ValidParameters, Valid, TiesOut, Scope, Generate, Score, Models;
    PricedIff(x);
  }

  lemma {:induction false} PricedIff(x: Payload)
    ensures AllPriced(x.population, x.params) <==>
      forall i :: 0 <= i < |x.population.records| ==>
        x.population.records[i].currency in x.params.thresholds
        || (x.population.records[i].currency == "USD" && !x.params.explicit)
  {
  }
}
