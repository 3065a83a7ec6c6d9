/** In which order runs are worked off, and what the tables of runs say of them, over every execution. */
module Schedules {
  import opened Reconciliation
  import opened Rules
  import opened Candidates
  import opened Analysis
  import opened AnalysisLaws
  import opened SnapshotStore
  import opened System
  import opened SystemLaws
  import opened Executions
  import opened Submissions

  // ----- the oldest run first -----

  predicate On(s: System.State, w: nat, run: nat) {
    !WorkerOf(s, w).Idle? && WorkerOf(s, w).run == run
  }

  /** A worker comes to a run by picking it. */
  lemma {:induction false} ComesByPick(s: System.State, step: System.Step, t: System.State, w: nat, run: nat)
    requires Next(s, step, t) && On(t, w, run) && !On(s, w, run)
    ensures step == Pick(w, run)
  {
    hide OutcomeOf, Ledger.Reconciled, FindingLaws.Commits, VersionsAccepted, System.Grows, RefOf, STAGES, ContextOf,
         IsNext, System.Free, Pending, SubmitResult;
  }

  lemma {:induction false} WasPicked(b: seq<System.State>, steps: seq<System.Step>, i: nat, j: nat, w: nat, run: nat)
    returns (k: nat)
    requires Execution(b, steps) && i <= j < |b| && On(b[j], w, run) && !On(b[i], w, run)
    ensures i <= k < j && steps[k] == Pick(w, run)
  {
    hide Next, On;
    if On(b[j - 1], w, run) {
      k := WasPicked(b, steps, i, j - 1, w, run);
    } else {
      k := j - 1;
      assert TakesStep(b, steps, k);
      ComesByPick(b[k], steps[k], b[j], w, run);
    }
  }

  lemma {:induction false} CreatedKept(b: seq<System.State>, steps: seq<System.Step>, i: nat, j: nat, r: nat)
    requires Execution(b, steps) && i <= j < |b| && r in b[i].runs
    ensures r in b[j].runs && b[j].runs[r].created == b[i].runs[r].created
  {
    hide WorkerNext, CommitNext, SubmitResult, VersionsAccepted;
    if i < j {
      CreatedKept(b, steps, i, j - 1, r);
      assert TakesStep(b, steps, j - 1);
      if !steps[j - 1].Submit? {
        OtherSteps(b[j - 1], steps[j - 1], b[j]);
      }
    }
  }

  /** Submitted before, or at the same time under a smaller id. */
  predicate Older(s: System.State, r: nat, q: nat)
    requires r in s.runs && q in s.runs
  {
    s.runs[r].created < s.runs[q].created || (s.runs[r].created == s.runs[q].created && r < q)
  }

  lemma {:induction false} OldestIsNext(s: System.State, q: nat, r: nat)
    requires IsNext(s, q) && r in s.runs && Older(s, r, q)
    ensures !Pending(s.runs[r])
  {
  }

  /**
   A run does not commit before an older one has been over: with any number of
   workers, if a worker that is not on run `q` yet commits it later, then an
   older run that exists already is completed or stopped at some moment between.
   */
  lemma {:induction false} OldestFirst(b: seq<System.State>, steps: seq<System.Step>, i: nat, j: nat, r: nat)
    returns (k: nat)
    requires Execution(b, steps) && i <= j < |steps| && steps[j].Commit? && r in b[i].runs
    requires WorkerOf(b[j], steps[j].worker).Working?
    requires var q := WorkerOf(b[j], steps[j].worker).run;
      !On(b[i], steps[j].worker, q) && q in b[j].runs && r in b[j].runs && Older(b[j], r, q)
    ensures i <= k < j && r in b[k].runs && !Pending(b[k].runs[r])
  {
    hide Initial, Next, IsNext, Pending;
    var w := steps[j].worker;
    var q := WorkerOf(b[j], w).run;
    k := WasPicked(b, steps, i, j, w, q);
    PickTakesNext(b, steps, k);
    CreatedKept(b, steps, i, k, r);
    CreatedKept(b, steps, k, j, r);
    NextIsThere(b[k], q);
    CreatedKept(b, steps, k, j, q);
    OldestIsNext(b[k], q, r);
  }

  lemma {:induction false} NextIsThere(s: System.State, q: nat)
    requires IsNext(s, q)
    ensures q in s.runs
  {
  }

  lemma {:induction false} PickTakesNext(b: seq<System.State>, steps: seq<System.Step>, k: nat)
    requires Execution(b, steps) && k < |steps| && steps[k].Pick?
    ensures k < |b| && IsNext(b[k], steps[k].run)
  {
    hide Initial, IsNext;
    assert TakesStep(b, steps, k);
  }

  // ----- why a run stopped -----

  /** The payload halts the run with this error. */
  ghost predicate Why(s: System.State, run: nat, halt: Halt)
    requires run in s.runs
  {
    halt == Failed || exists stage :: OutcomeOf(s, run) == Halted(halt, stage)
  }

  ghost predicate SaysWhy(s: System.State) {
    && (forall r :: r in s.runs && s.runs[r].status.Stopped? ==> Why(s, r, s.runs[r].status.halt))
    && (forall w :: w in s.workers && s.workers[w].Recording? && s.workers[w].run in s.runs ==>
          Why(s, s.workers[w].run, s.workers[w].halt))
  }

  /** A halt that the payload causes stays one when rule versions are added. */
  lemma {:induction false} HaltStable(x: Payload, v: Versions, w: Versions)
    requires System.Grows(v, w) && Analyse(x, v).Halted? && Analyse(x, v).halt != Failed
    ensures Analyse(x, w) == Analyse(x, v)
  {
    hide Populations.Valid, TiesOut, Generate, Score, Scope, ValidParameters, AllPriced;
    var scope := Scope(x.population.controls, x.manifest);
    var m, n := Models(scope, v), Models(scope, w);
    if m.Keys == scope.Keys {
      forall rule | rule in scope
        ensures rule in n && n[rule] == m[rule]
      {
        assert rule in m;
      }
      assert m == n;
    }
  }

  lemma {:induction false} WhyStays(s: System.State, t: System.State, r: nat, halt: Halt)
    requires r in s.runs && r in t.runs && t.runs[r].payload == s.runs[r].payload
      && System.Grows(s.versions, t.versions)
    requires Why(s, r, halt)
    ensures Why(t, r, halt)
  {
    hide Analyse, System.Grows;
    if halt != Failed {
      var stage :| OutcomeOf(s, r) == Halted(halt, stage);
      HaltStable(s.runs[r].payload, s.versions, t.versions);
      assert OutcomeOf(t, r) == Halted(halt, stage);
    }
  }

  /** A run is stopped by a worker that was about to record why. */
  ghost predicate StopsAsRecorded(s: System.State, t: System.State) {
    forall r :: r in t.runs && t.runs[r].status.Stopped? ==>
      r in s.runs && (t.runs[r].status == s.runs[r].status
        || exists w :: w in s.workers && s.workers[w] == Recording(r, t.runs[r].status.halt))
  }

  /** A worker about to record a failure was so before, or has just found out why. */
  ghost predicate RecordsAsFound(s: System.State, t: System.State) {
    forall w :: w in t.workers && t.workers[w].Recording? && t.workers[w].run in t.runs ==>
      t.workers[w].run in s.runs
      && ((w in s.workers && s.workers[w] == t.workers[w]) || Why(s, t.workers[w].run, t.workers[w].halt))
  }

  lemma {:induction false} WorkerStops(s: System.State, step: System.Step, t: System.State)
    requires WorkerStep(step) && WorkerNext(s, step, t)
    ensures StopsAsRecorded(s, t)
  {
    hide Analyse, RefOf, STAGES, IsNext, System.Free, Pending, OutcomeOf;
    if step.Record? {
      assert s.workers[step.worker] == WorkerOf(s, step.worker);
    }
  }

  /** What becomes of the worker that takes a step, if it is to record a failure. */
  lemma {:induction false} FindsWhy(s: System.State, step: System.Step, t: System.State)
    returns (after: Worker)
    requires WorkerStep(step) && WorkerNext(s, step, t)
    ensures t.workers == s.workers[step.worker := after]
    ensures after.Recording? ==> after.run in s.runs && Why(s, after.run, after.halt)
  {
    hide Analyse, RefOf, STAGES, IsNext, System.Free, Pending, OutcomeOf, StopsAt;
    after := t.workers[step.worker];
    var x := WorkerOf(s, step.worker);
    if step.Halting? && step.reason != Failed {
      assert OutcomeOf(s, x.run) == Halted(step.reason, x.entered);
    }
  }

  lemma {:induction false} WorkerFinds(s: System.State, step: System.Step, t: System.State)
    requires WorkerStep(step) && WorkerNext(s, step, t) && WorkersOk(s)
    ensures RecordsAsFound(s, t)
  {
    hide WorkerNext, Why;
    var after := FindsWhy(s, step, t);
  }

  lemma {:induction false} OthersStop(s: System.State, step: System.Step, t: System.State)
    requires Next(s, step, t) && !WorkerStep(step) && WorkersOk(s)
    ensures StopsAsRecorded(s, t) && RecordsAsFound(s, t)
  {
    hide OutcomeOf, Ledger.Reconciled, FindingLaws.Commits, VersionsAccepted, RefOf, STAGES, ContextOf, SubmitAfter,
         System.Grows;
    if step.Submit? {
      SubmitAdds(s, step.population, step.receipt, step.id, step.now);
    }
  }

  lemma {:induction false} WorkerKeepsVersions(s: System.State, step: System.Step, t: System.State)
    requires WorkerStep(step) && WorkerNext(s, step, t)
    ensures t.versions == s.versions
    ensures forall r :: r in s.runs ==> r in t.runs && t.runs[r].payload == s.runs[r].payload
  {
    hide WorkerNext, Addressed;
    WorkerStepFrame(s, step, t);
  }

  lemma {:induction false} VersionsGrow(s: System.State, step: System.Step, t: System.State)
    requires Next(s, step, t)
    ensures System.Grows(s.versions, t.versions)
    ensures forall r :: r in s.runs ==> r in t.runs && t.runs[r].payload == s.runs[r].payload
  {
    hide OutcomeOf, Ledger.Reconciled, FindingLaws.Commits, VersionsAccepted, RefOf, STAGES, ContextOf, SubmitResult,
         WorkerNext, Addressed, Framed, Populations.Valid;
    if WorkerStep(step) {
      AsWorker(s, step, t);
      WorkerKeepsVersions(s, step, t);
    }
  }

  lemma {:induction false} AsWorker(s: System.State, step: System.Step, t: System.State)
    requires Next(s, step, t) && WorkerStep(step)
    ensures WorkerNext(s, step, t)
  {
    hide WorkerNext;
  }

  lemma {:induction false} WhyNext(s: System.State, step: System.Step, t: System.State)
    requires Next(s, step, t) && SaysWhy(s) && WorkersOk(s)
    ensures SaysWhy(t)
  {
    hide Next, WorkerNext, Why, System.Grows;
    VersionsGrow(s, step, t);
    if WorkerStep(step) {
      AsWorker(s, step, t);
      WorkerStops(s, step, t);
      WorkerFinds(s, step, t);
    } else {
      OthersStop(s, step, t);
    }
    forall r | r in t.runs && t.runs[r].status.Stopped?
      ensures Why(t, r, t.runs[r].status.halt)
    {
      WhyStays(s, t, r, t.runs[r].status.halt);
    }
    forall w | w in t.workers && t.workers[w].Recording? && t.workers[w].run in t.runs
      ensures Why(t, t.workers[w].run, t.workers[w].halt)
    {
      WhyStays(s, t, t.workers[w].run, t.workers[w].halt);
    }
  }

  lemma {:induction false} AlwaysWhy(b: seq<System.State>, steps: seq<System.Step>, n: nat)
    requires Execution(b, steps) && n < |b|
    ensures SaysWhy(b[n])
  {
    hide Next, Inv, SaysWhy;
    if n == 0 {
      NothingStopped(b[0]);
    } else {
      AlwaysWhy(b, steps, n - 1);
      ReachableInv(b, steps, n - 1);
      InvParts(b[n - 1]);
      assert TakesStep(b, steps, n - 1);
      WhyNext(b[n - 1], steps[n - 1], b[n]);
    }
  }

  lemma {:induction false} NothingStopped(s: System.State)
    requires Initial(s)
    ensures SaysWhy(s)
  {
    hide VersionsAccepted;
  }
}
