/** When a run that is over stays as it is, for one worker and for any number of them. */
module Finality {
  import opened Candidates
  import opened Ledger
  import opened Analysis
  import opened AnalysisLaws
  import opened SnapshotStore
  import opened System
  import SystemLaws
  import opened Executions

  // ----- any number of workers -----

  /** The worker is in the main transaction of the run, or about to record its failure. */
  predicate IsIn(x: Worker, run: nat) {
    (x.Working? || x.Recording?) && x.run == run
  }

  predicate SomebodyIsIn(s: System.State, run: nat) {
    exists w :: w in s.workers && IsIn(s.workers[w], run)
  }

  /** A run that is over, with nobody in it, stays so. */
  predicate Over(s: System.State, run: nat) {
    run in s.runs && !Pending(s.runs[run]) && !SomebodyIsIn(s, run)
  }

  lemma {:induction false} MoveKeepsOver(s: System.State, step: System.Step, t: System.State, run: nat)
    requires WorkerStep(step) && WorkerNext(s, step, t) && Over(s, run)
    ensures Over(t, run) && t.runs[run] == s.runs[run]
  {
    hide WorkerNext, Pending;
    var after := WorkerTouches(s, step, t);
    var x := WorkerOf(s, step.worker);
    assert !IsIn(x, run);
    forall w | w in t.workers
      ensures !IsIn(t.workers[w], run)
    {
      assert w in s.workers && w != step.worker ==> !IsIn(s.workers[w], run);
    }
  }

  lemma {:induction false} CommitKeepsOver(s: System.State, step: System.Step, t: System.State, run: nat)
    requires step.Commit? && CommitNext(s, step, t) && Over(s, run)
    ensures Over(t, run) && t.runs[run] == s.runs[run]
  {
    hide OutcomeOf, Reconciled, RefOf, STAGES, ContextOf, Pending;
    assert !IsIn(WorkerOf(s, step.worker), run);
    forall w | w in t.workers
      ensures !IsIn(t.workers[w], run)
    {
      assert w in s.workers && w != step.worker ==> !IsIn(s.workers[w], run);
    }
  }

  lemma {:induction false} WaitKeepsOver(s: System.State, step: System.Step, t: System.State, run: nat)
    requires Next(s, step, t) && Over(s, run) && (step.Submit? || step.Configure? || step.Human?)
    ensures Over(t, run) && t.runs[run] == s.runs[run]
  {
    hide WorkerNext, CommitNext, FindingLaws.Commits, SubmitResult, VersionsAccepted, System.Grows, IsIn, Pending;
  }

  lemma {:induction false} StepKeepsOver(s: System.State, step: System.Step, t: System.State, run: nat)
    requires Next(s, step, t) && Over(s, run)
    ensures Over(t, run) && t.runs[run] == s.runs[run]
  {
    hide WorkerNext, CommitNext, FindingLaws.Commits, SubmitAfter, VersionsAccepted, Over;
    if WorkerStep(step) {
      MoveKeepsOver(s, step, t, run);
    } else if step.Commit? {
      CommitKeepsOver(s, step, t, run);
    } else {
      WaitKeepsOver(s, step, t, run);
    }
  }

  /**
   For any number of workers, interleavings and crashes: a run that is over
   while nobody is in it keeps its row for ever.
   */
  lemma {:induction false} FinalWhenNobodyIsIn(b: seq<System.State>, steps: seq<System.Step>, i: nat, j: nat, run: nat)
    requires Path(b, steps) && i <= j < |b| && Over(b[i], run)
    ensures Over(b[j], run) && b[j].runs[run] == b[i].runs[run]
  {
    hide Next, Over;
    OverHasRow(b[i], run);
    if i < j {
      FinalWhenNobodyIsIn(b, steps, i, j - 1, run);
      assert TakesStep(b, steps, j - 1);
      OverHasRow(b[j - 1], run);
      StepKeepsOver(b[j - 1], steps[j - 1], b[j], run);
      OverHasRow(b[j], run);
    }
  }

  lemma {:induction false} OverHasRow(s: System.State, run: nat)
    requires Over(s, run)
    ensures run in s.runs
  {
  }

  /** Some schedule from the state changes the run's row. */
  ghost predicate Changeable(s: System.State, run: nat) {
    exists b, steps :: ChangesRow(b, steps, s, run)
  }

  ghost predicate ChangesRow(b: seq<System.State>, steps: seq<System.Step>, s: System.State, run: nat) {
    Path(b, steps) && b[0] == s && !SameRow(s, b[|steps|], run)
  }

  predicate SameRow(s: System.State, t: System.State, run: nat) {
    run in s.runs && run in t.runs && s.runs[run] == t.runs[run]
  }

  lemma {:induction false} RecordingChanges(s: System.State, w: nat, run: nat)
    requires run in s.runs && s.runs[run].status == Completed
    requires WorkerOf(s, w).Recording? && WorkerOf(s, w).run == run
    ensures Next(s, System.Record(w), Recorded(s, w)) && !SameRow(s, Recorded(s, w), run)
  {
  }

  lemma {:induction false} WorkingMayHalt(s: System.State, w: nat, run: nat)
    requires run in s.runs && WorkerOf(s, w).Working? && WorkerOf(s, w).run == run
    ensures Next(s, System.Halting(w, Failed), System.Move(s, w, Recording(run, Failed)))
  {
    hide OutcomeOf;
  }

  lemma {:induction false} PathOfOne(s: System.State, step: System.Step, t: System.State)
    requires Next(s, step, t)
    ensures Path([s, t], [step])
  {
    hide Next;
    assert TakesStep([s, t], [step], 0);
  }

  lemma {:induction false} PathOfTwo(s: System.State, p: System.Step, t: System.State, q: System.Step, u: System.State)
    requires Next(s, p, t) && Next(t, q, u)
    ensures Path([s, t, u], [p, q])
  {
    hide Next;
    assert TakesStep([s, t, u], [p, q], 0) && TakesStep([s, t, u], [p, q], 1);
  }

  lemma {:induction false} RowStays(b: seq<System.State>, steps: seq<System.Step>, s: System.State, run: nat)
    requires Over(s, run)
    ensures !ChangesRow(b, steps, s, run)
  {
    hide Next, Over;
    if Path(b, steps) && b[0] == s {
      OverHasRow(s, run);
      FinalWhenNobodyIsIn(b, steps, 0, |steps|, run);
      OverHasRow(b[|steps|], run);
    }
  }

  /** The row of a completed run can still change, in some schedule, if and only if some worker is in the run. */
  lemma {:induction false} CompletedChangesIff(s: System.State, run: nat)
    requires run in s.runs && s.runs[run].status == Completed
    ensures Changeable(s, run) <==> SomebodyIsIn(s, run)
  {
    hide Next, Path, Recorded;
    if SomebodyIsIn(s, run) {
      var w :| w in s.workers && IsIn(s.workers[w], run);
      if WorkerOf(s, w).Recording? {
        RecordingChanges(s, w, run);
        PathOfOne(s, System.Record(w), Recorded(s, w));
        assert ChangesRow([s, Recorded(s, w)], [System.Record(w)], s, run);
      } else {
        var t := System.Move(s, w, Recording(run, Failed));
        WorkingMayHalt(s, w, run);
        RecordingChanges(t, w, run);
        PathOfTwo(s, System.Halting(w, Failed), t, System.Record(w), Recorded(t, w));
        assert ChangesRow([s, t, Recorded(t, w)], [System.Halting(w, Failed), System.Record(w)], s, run);
      }
    } else {
      assert Over(s, run);
      forall b, steps
        ensures !ChangesRow(b, steps, s, run)
      {
        RowStays(b, steps, s, run);
      }
    }
  }

  lemma {:induction false} CommitLeavesRow(s: System.State, v: nat, at: int, t: System.State, w: nat)
    requires v != w && WorkerOf(s, v).Working? && CommitNext(s, System.Commit(v, at, true), t)
    ensures var run := WorkerOf(s, v).run;
      run in t.runs && run in t.snapshots && t.runs[run].status == Completed && WorkerOf(t, w) == WorkerOf(s, w)
  {
    hide OutcomeOf, Reconciled, RefOf, STAGES, ContextOf;
  }

  /** The failure record of a completed run: its effects stay, its status does not. */
  ghost predicate Overwritten(t: System.State, u: System.State, run: nat, halt: Halt) {
    && run in t.runs && run in u.runs && run in u.snapshots
    && t.runs[run].status == Completed && u.runs[run].status == Stopped(halt)
    && u == t.(runs := u.runs, workers := u.workers)
  }

  /**
   Two workers: one waits to record the run's failure while the other commits
   the run.  The completed run then becomes stopped, its effects in place.
   */
  lemma {:induction false} LateRecordStopsACompletedRun(s: System.State, v: nat, at: int, t: System.State, w: nat)
    requires v != w && WorkerOf(s, v).Working? && WorkerOf(s, w).Recording? && WorkerOf(s, w).run == WorkerOf(s, v).run
    requires CommitNext(s, System.Commit(v, at, true), t)
    ensures WorkerOf(t, w).Recording? && WorkerOf(t, w).run in t.runs
    ensures Path([s, t, Recorded(t, w)], [System.Commit(v, at, true), System.Record(w)])
    ensures Overwritten(t, Recorded(t, w), WorkerOf(s, v).run, WorkerOf(s, w).halt)
  {
    hide CommitNext, Path, Pending;
    CommitLeavesRow(s, v, at, t, w);
    assert Next(s, System.Commit(v, at, true), t);
    PathOfTwo(s, System.Commit(v, at, true), t, System.Record(w), Recorded(t, w));
  }

  // ----- one worker -----

  /** With one worker, a worker in or after its main transaction has a pending run. */
  predicate OnlyWorker(s: System.State, w: nat) {
    && (forall v :: v in s.workers && v != w ==> s.workers[v].Idle?)
    && (var x := WorkerOf(s, w); (x.Working? || x.Recording?) && x.run in s.runs ==> Pending(s.runs[x.run]))
  }

  predicate StepOf(step: System.Step, w: nat) {
    match step
    case Submit(_, _, _, _) => true
    case Configure(_, _, _, _) => true
    case Human(_) => true
    case Commit(v, _, acknowledged) => v == w && acknowledged
    case _ => step.worker == w
  }

  /** A worker step touches at most the row of its own run, from within its main transaction or to record a failure. */
  predicate Touches(s: System.State, x: Worker, after: Worker, t: System.State) {
    || t.runs == s.runs
    || ((x.Working? || x.Recording?) && x.run in s.runs && x.run in t.runs
        && t.runs == s.runs[x.run := t.runs[x.run]] && (Pending(t.runs[x.run]) || after.Idle?))
  }

  lemma {:induction false} WorkerTouches(s: System.State, step: System.Step, t: System.State) returns (after: Worker)
    requires WorkerStep(step) && WorkerNext(s, step, t)
    ensures t.workers == s.workers[step.worker := after] && Touches(s, WorkerOf(s, step.worker), after, t)
    ensures var x := WorkerOf(s, step.worker);
      && (after.Working? && after.run in s.runs ==> (x.Working? && x.run == after.run) || Pending(s.runs[after.run]))
      && (after.Recording? ==> x.Working? && x.run == after.run)
  {
    hide OutcomeOf, IsNext, System.Free, StopsAt, RefOf, STAGES, Pending;
    after := t.workers[step.worker];
    if step.Enter? {
      EnteredIsPending(s, step.worker);
    }
  }

  lemma {:induction false} EnteredIsPending(s: System.State, w: nat)
    requires WorkerOf(s, w).Working? && WorkerOf(s, w).run in s.runs && WorkerOf(s, w).entered < |STAGES|
    ensures Pending(Entered(s, w).runs[WorkerOf(s, w).run])
  {
    hide STAGES;
  }

  lemma {:induction false} OnlyWorkerMoves(s: System.State, step: System.Step, t: System.State, w: nat)
    requires WorkerStep(step) && WorkerNext(s, step, t) && OnlyWorker(s, w) && step.worker == w
    ensures OnlyWorker(t, w)
    ensures forall r :: r in s.runs && !Pending(s.runs[r]) ==> r in t.runs && t.runs[r] == s.runs[r]
  {
    hide WorkerNext, Pending;
    var after := WorkerTouches(s, step, t);
  }

  lemma {:induction false} OnlyWorkerCommits(s: System.State, step: System.Step, t: System.State, w: nat)
    requires step.Commit? && CommitNext(s, step, t) && OnlyWorker(s, w) && step.worker == w && step.acknowledged
    ensures OnlyWorker(t, w)
    ensures forall r :: r in s.runs && !Pending(s.runs[r]) ==> r in t.runs && t.runs[r] == s.runs[r]
  {
    hide OutcomeOf, Reconciled, RefOf, STAGES, ContextOf;
  }

  lemma {:induction false} OnlyWorkerWaits(s: System.State, step: System.Step, t: System.State, w: nat)
    requires Next(s, step, t) && OnlyWorker(s, w) && (step.Submit? || step.Configure? || step.Human?)
    ensures OnlyWorker(t, w)
    ensures forall r :: r in s.runs && !Pending(s.runs[r]) ==> r in t.runs && t.runs[r] == s.runs[r]
  {
    hide WorkerNext, CommitNext, FindingLaws.Commits, SubmitAfter, VersionsAccepted, System.Grows;
    if step.Submit? {
      SystemLaws.SubmitAdds(s, step.population, step.receipt, step.id, step.now);
    }
  }

  lemma {:induction false} OnlyWorkerStep(s: System.State, step: System.Step, t: System.State, w: nat)
    requires Next(s, step, t) && OnlyWorker(s, w) && StepOf(step, w)
    ensures OnlyWorker(t, w)
    ensures forall r :: r in s.runs && !Pending(s.runs[r]) ==> r in t.runs && t.runs[r] == s.runs[r]
  {
    hide WorkerNext, CommitNext, FindingLaws.Commits, SubmitAfter, VersionsAccepted, Pending, OnlyWorker;
    if WorkerStep(step) {
      OnlyWorkerMoves(s, step, t, w);
    } else if step.Commit? {
      OnlyWorkerCommits(s, step, t, w);
    } else {
      OnlyWorkerWaits(s, step, t, w);
    }
  }

  /** With one worker whose commits are acknowledged, a run that is completed or stopped stays as it is. */
  lemma {:induction false} TerminalIsFinal(b: seq<System.State>, steps: seq<System.Step>, i: nat, j: nat, run: nat,
      w: nat)
    requires Execution(b, steps) && i <= j < |b|
    requires forall n :: 0 <= n < |steps| ==> StepOf(steps[n], w)
    requires run in b[i].runs && !Pending(b[i].runs[run])
    ensures OnlyWorker(b[j], w)
    ensures run in b[j].runs && b[j].runs[run] == b[i].runs[run]
    decreases j
  {
    hide Next;
    OnlyWorkerAlways(b, steps, j, w);
    if i < j {
      OnlyWorkerAlways(b, steps, j - 1, w);
      TerminalIsFinal(b, steps, i, j - 1, run, w);
      assert TakesStep(b, steps, j - 1);
      OnlyWorkerStep(b[j - 1], steps[j - 1], b[j], w);
    }
  }

  lemma {:induction false} OnlyWorkerAlways(b: seq<System.State>, steps: seq<System.Step>, n: nat, w: nat)
    requires Execution(b, steps) && n < |b|
    requires forall k :: 0 <= k < |steps| ==> StepOf(steps[k], w)
    ensures OnlyWorker(b[n], w)
  {
    hide Next;
    if n > 0 {
      OnlyWorkerAlways(b, steps, n - 1, w);
      assert TakesStep(b, steps, n - 1);
      OnlyWorkerStep(b[n - 1], steps[n - 1], b[n], w);
    }
  }
}
