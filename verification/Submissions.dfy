/** What a submission is answered, and what it freezes, said by the runs there are. */
module Submissions {
  import opened Common
  import opened Populations
  import opened Analysis
  import opened AnalysisLaws
  import opened SnapshotStore
  import opened System
  import opened SystemLaws
  import opened Executions

  // ----- periods -----

  function PeriodOf(s: System.State, r: nat): Period
    requires r in s.runs
  {
    s.runs[r].payload.population.period
  }

  predicate SubmittedFor(s: System.State, r: nat, period: Period) {
    r in s.runs && PeriodOf(s, r) == period
  }

  /** The table of periods holds exactly the periods of the runs, by their ids. */
  ghost predicate PeriodsOk(s: System.State) {
    && (forall r :: r in s.runs ==>
          PeriodOf(s, r).id in s.periods && s.periods[PeriodOf(s, r).id] == PeriodOf(s, r))
    && (forall p :: p in s.periods ==> s.periods[p].id == p && exists r :: SubmittedFor(s, r, s.periods[p]))
  }

  /** Only submissions add runs, receipts and periods. */
  lemma {:induction false} OtherSteps(s: System.State, step: System.Step, t: System.State)
    requires Next(s, step, t) && !step.Submit?
    ensures SamePayloads(s, t) && t.periods == s.periods && t.receipts == s.receipts
  {
    hide WorkerNext, OutcomeOf, Ledger.Reconciled, FindingLaws.Commits, VersionsAccepted, System.Grows, RefOf, STAGES,
         ContextOf;
    if WorkerStep(step) {
      WorkerStepFrame(s, step, t);
    }
  }

  lemma {:induction false} PeriodsStay(s: System.State, t: System.State)
    requires SamePayloads(s, t) && t.periods == s.periods && PeriodsOk(s)
    ensures PeriodsOk(t)
  {
    assert forall r :: r in s.runs ==> r in t.runs && PeriodOf(t, r) == PeriodOf(s, r);
    forall p | p in t.periods
      ensures exists r :: SubmittedFor(t, r, t.periods[p])
    {
      var r :| SubmittedFor(s, r, s.periods[p]);
      assert SubmittedFor(t, r, t.periods[p]);
    }
  }

  lemma {:induction false} EnqueuedPeriods(s: System.State, p: Population, receipt: Option<string>, id: nat, now: int)
    requires id !in s.runs && PeriodsOk(s)
    requires p.period.id in s.periods ==> s.periods[p.period.id] == p.period
    ensures PeriodsOk(Enqueued(s, p, receipt, id, now))
  {
    var t := Enqueued(s, p, receipt, id, now);
    assert SubmittedFor(t, id, p.period);
    forall x | x in t.periods
      ensures t.periods[x].id == x && exists r :: SubmittedFor(t, r, t.periods[x])
    {
      if x != p.period.id {
        var r :| SubmittedFor(s, r, s.periods[x]);
        assert SubmittedFor(t, r, t.periods[x]);
      }
    }
  }

  lemma {:induction false} PeriodsKept(b: seq<System.State>, steps: seq<System.Step>, n: nat)
    requires Execution(b, steps) && n < |b|
    ensures PeriodsOk(b[n])
  {
    hide WorkerNext, CommitNext, PeriodsOk, Enqueued, Populations.Valid;
    if n == 0 {
      NoPeriods(b[0]);
    } else {
      PeriodsKept(b, steps, n - 1);
      var s, step := b[n - 1], steps[n - 1];
      assert TakesStep(b, steps, n - 1);
      if step.Submit? {
        if b[n] != s {
          EnqueuedPeriods(s, step.population, step.receipt, step.id, step.now);
        }
      } else {
        OtherSteps(s, step, b[n]);
        PeriodsStay(s, b[n]);
      }
    }
  }

  lemma {:induction false} NoPeriods(s: System.State)
    requires Initial(s)
    ensures PeriodsOk(s)
  {
    hide VersionsAccepted;
  }

  /** A period has the same dates in every run it was ever submitted with. */
  lemma {:induction false} OnePeriodPerId(b: seq<System.State>, steps: seq<System.Step>, n: nat, r: nat, q: nat)
    requires Execution(b, steps) && n < |b| && r in b[n].runs && q in b[n].runs
    requires b[n].runs[r].payload.population.period.id == b[n].runs[q].payload.population.period.id
    ensures b[n].runs[r].payload.population.period == b[n].runs[q].payload.population.period
  {
    hide Execution;
    PeriodsKept(b, steps, n);
  }

  // ----- answers -----

  predicate Admissible(p: Population, receipt: Option<string>) {
    (receipt.Some? ==> |receipt.value| == 64) && Populations.Valid(p)
  }

  predicate Bears(s: System.State, r: nat, receipt: Option<string>) {
    receipt.Some? && r in s.runs && s.runs[r].receipt == receipt
  }

  /** Some run was submitted for a period of the same id with other dates. */
  predicate OtherDates(s: System.State, r: nat, period: Period) {
    r in s.runs && PeriodOf(s, r).id == period.id && PeriodOf(s, r) != period
  }

  lemma {:induction false} ReceiptsAreBorne(s: System.State, receipt: Option<string>)
    requires ReceiptsOk(s)
    ensures receipt.Some? && receipt.value in s.receipts <==> exists r :: Bears(s, r, receipt)
    ensures receipt.Some? && receipt.value in s.receipts ==> Bears(s, s.receipts[receipt.value], receipt)
    ensures forall r :: Bears(s, r, receipt) ==> r == s.receipts[receipt.value]
  {
    if receipt.Some? && receipt.value in s.receipts {
      assert Bears(s, s.receipts[receipt.value], receipt);
    }
    forall r | Bears(s, r, receipt)
      ensures receipt.value in s.receipts && r == s.receipts[receipt.value]
    {
      assert s.runs[r].receipt.Some?;
    }
  }

  lemma {:induction false} DatesConflict(s: System.State, p: Period)
    requires PeriodsOk(s)
    ensures p.id in s.periods && s.periods[p.id] != p <==> exists r :: OtherDates(s, r, p)
  {
    if p.id in s.periods && s.periods[p.id] != p {
      var r :| SubmittedFor(s, r, s.periods[p.id]);
      assert OtherDates(s, r, p);
    }
    if exists r :: OtherDates(s, r, p) {
      var r :| OtherDates(s, r, p);
      assert PeriodOf(s, r).id in s.periods;
    }
  }

  /** The answer to a submission, by the runs there are. */
  ghost predicate AnswerIs(s: System.State, p: Population, receipt: Option<string>, id: nat,
      answer: Result<nat, ReviewCase.Error>)
  {
    if !Admissible(p, receipt) then answer == Err(ReviewCase.Invalid)
    else if exists r :: Bears(s, r, receipt) then answer.Ok? && Bears(s, answer.value, receipt)
    else if p.source !in s.watermarks then answer == Err(ReviewCase.NotFound)
    else if exists r :: OtherDates(s, r, p.period) then answer == Err(ReviewCase.Conflict)
    else answer == if s.manifest == map[] then Err(ReviewCase.Invalid) else Ok(id)
  }

  /** The submission makes a new run. */
  ghost predicate Enters(s: System.State, p: Population, receipt: Option<string>) {
    && Admissible(p, receipt) && !(exists r :: Bears(s, r, receipt)) && p.source in s.watermarks
    && !(exists r :: OtherDates(s, r, p.period)) && s.manifest != map[]
  }

  lemma {:induction false} AnsweredBy(s: System.State, p: Population, receipt: Option<string>, id: nat, now: int)
    requires ReceiptsOk(s) && PeriodsOk(s)
    ensures AnswerIs(s, p, receipt, id, SubmitResult(s, p, receipt, id))
    ensures SubmitAfter(s, p, receipt, id, now) ==
      if Enters(s, p, receipt) then Enqueued(s, p, receipt, id, now) else s
  {
    hide ReceiptsOk, PeriodsOk, Populations.Valid, Enqueued, Bears, OtherDates;
    ReceiptsAreBorne(s, receipt);
    DatesConflict(s, p.period);
  }

  /**
   In every execution a submission is refused as invalid, answered with the run
   that bears its receipt, refused for an unknown source, refused because a run
   was submitted for a period of the same id with other dates, refused without
   released rules, or accepted: then, and only then, a queued run is added that
   freezes the population, the parameters, their hash and the manifest of that
   moment.  Nothing else changes but the tables of periods and receipts.
   */
  lemma {:induction false} SubmissionAnswered(b: seq<System.State>, steps: seq<System.Step>, n: nat)
    requires Execution(b, steps) && n < |steps| && steps[n].Submit?
    ensures var s, t, p, receipt, id := b[n], b[n + 1], steps[n].population, steps[n].receipt, steps[n].id;
      && AnswerIs(s, p, receipt, id, SubmitResult(s, p, receipt, id))
      && id !in s.runs
      && t.runs == (if Enters(s, p, receipt) then s.runs[id :=
           RunRow(Payload(p, s.params, s.paramsHash, s.manifest), steps[n].now, receipt, Queued, "queued", 0)]
         else s.runs)
      && t == s.(runs := t.runs, periods := t.periods, receipts := t.receipts)
  {
    hide Inv, AnswerIs, Enters, SubmitResult, SubmitAfter, Execution, ReceiptsOk, PeriodsOk;
    ExecutionStep(b, steps, n);
    ReachableInv(b, steps, n);
    InvParts(b[n]);
    PeriodsKept(b, steps, n);
    AnsweredBy(b[n], steps[n].population, steps[n].receipt, steps[n].id, steps[n].now);
  }

  lemma {:induction false} ExecutionStep(b: seq<System.State>, steps: seq<System.Step>, n: nat)
    requires Execution(b, steps) && n < |steps|
    ensures n + 1 < |b| && Next(b[n], steps[n], b[n + 1])
  {
    hide Next, Initial;
    assert TakesStep(b, steps, n);
  }

  // ----- frozen payloads -----

  /** Step `k` submitted the run as it is. */
  predicate FrozenAt(b: seq<System.State>, steps: seq<System.Step>, n: nat, r: nat, k: nat)
    requires n < |b| <= |steps| + 1 && r in b[n].runs
  {
    && k < n && steps[k].Submit? && steps[k].id == r
    && b[n].runs[r].payload == Payload(steps[k].population, b[k].params, b[k].paramsHash, b[k].manifest)
    && b[n].runs[r].receipt == steps[k].receipt && b[n].runs[r].created == steps[k].now
  }

  /**
   Every run, whatever its status, was submitted by one step, and still has that
   submission's population, receipt and time and the parameters, hash and
   manifest that were set at that moment.
   */
  lemma {:induction false} PayloadIsFrozen(b: seq<System.State>, steps: seq<System.Step>, n: nat, r: nat)
    returns (k: nat)
    requires Execution(b, steps) && n < |b| && r in b[n].runs
    ensures FrozenAt(b, steps, n, r, k)
  {
    hide WorkerNext, CommitNext, SubmitResult, VersionsAccepted;
    assert n > 0;
    var s, step, t := b[n - 1], steps[n - 1], b[n];
    assert TakesStep(b, steps, n - 1);
    if step.Submit? && r !in s.runs {
      k := n - 1;
    } else {
      if !step.Submit? {
        OtherSteps(s, step, t);
      }
      k := PayloadIsFrozen(b, steps, n - 1, r);
    }
  }
}
