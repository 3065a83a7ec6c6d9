/**
 A failure recorded after the run has completed: exactly when it can happen in
 an execution, and one in which it does.
 */
module LateFailures {
  import opened Common
  import opened Identity
  import opened Populations
  import opened Reconciliation
  import opened Rules
  import opened Candidates
  import opened Ledger
  import opened Analysis
  import opened AnalysisLaws
  import opened SnapshotStore
  import opened System
  import opened SystemLaws
  import opened Executions
  import opened Finality
  import opened ExampleRun

  // ----- exactly when, in executions -----

  /** Only what has committed is completed. */
  predicate Earned(s: System.State) {
    forall r :: r in s.runs && s.runs[r].status == Completed ==> r in s.commits
  }

  lemma {:induction false} WorkerEarns(s: System.State, step: System.Step, t: System.State)
    requires WorkerStep(step) && WorkerNext(s, step, t) && Earned(s)
    ensures Earned(t)
  {
    hide OutcomeOf, IsNext, System.Free, StopsAt, RefOf, STAGES, Pending;
  }

  lemma {:induction false} CommitEarns(s: System.State, step: System.Step, t: System.State)
    requires step.Commit? && CommitNext(s, step, t) && Earned(s)
    ensures Earned(t)
  {
    hide OutcomeOf, Reconciled, RefOf, STAGES, ContextOf;
  }

  lemma {:induction false} StepEarns(s: System.State, step: System.Step, t: System.State)
    requires Next(s, step, t) && Earned(s)
    ensures Earned(t)
  {
    hide WorkerNext, CommitNext, FindingLaws.Commits, SubmitResult, VersionsAccepted, System.Grows;
    if WorkerStep(step) {
      WorkerEarns(s, step, t);
    } else if step.Commit? {
      CommitEarns(s, step, t);
    }
  }

  lemma {:induction false} AlwaysEarned(b: seq<System.State>, steps: seq<System.Step>, n: nat)
    requires Execution(b, steps) && n < |b|
    ensures Earned(b[n])
  {
    hide Next;
    if n > 0 {
      AlwaysEarned(b, steps, n - 1);
      assert TakesStep(b, steps, n - 1);
      StepEarns(b[n - 1], steps[n - 1], b[n]);
    }
  }

  /** Some worker is about to record that the run has failed. */
  predicate SomebodyRecords(s: System.State, run: nat) {
    exists w :: w in s.workers && s.workers[w].Recording? && s.workers[w].run == run
  }

  lemma {:induction false} OnlyRecorders(s: System.State, run: nat)
    requires Settled(s) && Earned(s) && run in s.runs && s.runs[run].status == Completed
    ensures SomebodyIsIn(s, run) <==> SomebodyRecords(s, run)
  {
    hide NoRepeats, Pending;
    assert run in s.commits;
    if SomebodyIsIn(s, run) {
      var w :| w in s.workers && IsIn(s.workers[w], run);
      assert s.workers[w].Recording?;
    }
    if SomebodyRecords(s, run) {
      var w :| w in s.workers && s.workers[w].Recording? && s.workers[w].run == run;
      assert IsIn(s.workers[w], run);
    }
  }

  lemma {:induction false} InvSettled(s: System.State)
    requires Inv(s)
    ensures Settled(s)
  {
  }

  /**
   In every execution, with any number of workers: the row of a completed run can
   still change if and only if some worker is about to record its failure.
   */
  lemma {:induction false} CompletedChangesIffRecording(b: seq<System.State>, steps: seq<System.Step>, n: nat, run: nat)
    requires Execution(b, steps) && n < |b| && run in b[n].runs && b[n].runs[run].status == Completed
    ensures Changeable(b[n], run) <==> SomebodyRecords(b[n], run)
  {
    hide Execution, Inv, Settled, Earned, Changeable;
    ReachableInv(b, steps, n);
    InvSettled(b[n]);
    AlwaysEarned(b, steps, n);
    OnlyRecorders(b[n], run);
    CompletedChangesIff(b[n], run);
  }

  // ----- an execution with two workers -----

  /** The example's population, with a released rule that no control asks for: its run has nothing to flag. */
  const QUIET := Payload(POPULATION, PARAMETERS, Blank, map["JE-01" := Blank])

  lemma {:induction false} QuietScope()
    ensures Scope(POPULATION.controls, QUIET.manifest) == map[] && Models(map[], VERSIONS) == map[]
  {
    assert RULES["JE-01"] == "journal_entry" && "journal_entry" != "approval";
  }

  lemma {:induction false} QuietGenerate(scope: map<string, Digest>)
    requires scope == map[]
    ensures Generate(POPULATION, PARAMETERS, scope.Keys) == Ok([]) && Score(map[], [], PARAMETERS.ceiling) == Ok([])
  {
    NoCandidates(POPULATION.records);
    assert scope.Keys == {};
  }

  lemma {:induction false} QuietOutcome()
    ensures Analyse(QUIET, VERSIONS) == Ready(map[], [])
  {
    hide Populations.Valid, ValidParameters, AllPriced, TiesOut, Scope, Models, Generate, Score;
    ExampleValid();
    ExampleTiesOut();
    QuietScope();
    var scope: map<string, Digest> := map[];
    QuietGenerate(scope);
    assert Scope(QUIET.population.controls, QUIET.manifest) == scope;
    assert Models(scope, VERSIONS).Keys == scope.Keys;
  }

  lemma {:induction false} NoCandidates(records: seq<Record>)
    ensures RowCandidates("erp", records, PARAMETERS, {}) == []
  {
    if records != [] {
      NoCandidates(records[..|records| - 1]);
    }
  }

  const FRESH := State(EMPTY, map[], map[], map[], map["erp" := None], PARAMETERS, Blank, QUIET.manifest, VERSIONS,
                       map[], [], map[], map[], [])

  /** The system with run 0 submitted and not yet committed. */
  function Stand(status: Status, stage: string, workers: map<nat, Worker>, stages: seq<(nat, string)>,
      files: Files): System.State {
    FRESH.(runs := map[0 := RunRow(QUIET, 0, None, status, stage, 0)], periods := map["p1" := POPULATION.period],
           workers := workers, stages := stages, files := files)
  }

  function Both(x: Worker, y: Worker): map<nat, Worker> {
    map[0 := x, 1 := y]
  }

  lemma {:induction false} FreshIsInitial()
    ensures Initial(FRESH)
  {
    ExampleIsReady();
  }

  lemma {:induction false} SubmitStep()
    ensures Next(FRESH, System.Submit(POPULATION, None, 0, 0), Stand(Queued, "queued", map[], [], map[]))
  {
    hide Populations.Valid;
    ExampleValid();
    assert "JE-01" in FRESH.manifest && POPULATION.source in FRESH.watermarks;
    assert SubmitResult(FRESH, POPULATION, None, 0) == Ok(0);
  }

  lemma {:induction false} FirstPicks()
    ensures Next(Stand(Queued, "queued", map[], [], map[]), System.Pick(0, 0),
                 Stand(Queued, "queued", map[0 := Picked(0)], [], map[]))
  {
    hide OutcomeOf;
  }

  lemma {:induction false} SecondPicks()
    ensures Next(Stand(Queued, "queued", map[0 := Picked(0)], [], map[]), System.Pick(1, 0),
                 Stand(Queued, "queued", Both(Picked(0), Picked(0)), [], map[]))
  {
    hide OutcomeOf;
  }

  /** Where the two workers are, and the run. */
  lemma {:induction false} StandIs(status: Status, stage: string, x: Worker, y: Worker, stages: seq<(nat, string)>,
      files: Files)
    ensures var s := Stand(status, stage, Both(x, y), stages, files);
      && WorkerOf(s, 0) == x && WorkerOf(s, 1) == y && s.runs.Keys == {0} && s.runs[0].status == status
      && s.runs[0].payload == QUIET && s.versions == VERSIONS && s.tables == EMPTY && s.snapshots == map[]
  {
  }

  lemma {:induction false} FirstMoves(x: Worker, y: Worker, z: Worker)
    ensures Move(Stand(Queued, "queued", Both(x, y), [], map[]), 0, z) == Stand(Queued, "queued", Both(z, y), [], map[])
  {
    assert Both(x, y)[0 := z] == Both(z, y);
  }

  lemma {:induction false} SecondMoves(status: Status, stage: string, x: Worker, y: Worker, z: Worker,
      stages: seq<(nat, string)>, files: Files)
    ensures Move(Stand(status, stage, Both(x, y), stages, files), 1, z) ==
      Stand(status, stage, Both(x, z), stages, files)
  {
    assert Both(x, y)[1 := z] == Both(x, z);
  }

  lemma {:induction false} NobodyHolds(x: Worker, y: Worker)
    requires !Holds(x) && !Holds(y)
    ensures var s := Stand(Queued, "queued", Both(x, y), [], map[]); System.Free(s, 0, 0) && System.Free(s, 1, 0)
  {
  }

  lemma {:induction false} FirstLocks()
    ensures Next(Stand(Queued, "queued", Both(Picked(0), Picked(0)), [], map[]), System.TryLock(0),
                 Stand(Queued, "queued", Both(Locked(0), Picked(0)), [], map[]))
  {
    hide OutcomeOf, Stand, Move, System.Free;
    StandIs(Queued, "queued", Picked(0), Picked(0), [], map[]);
    FirstMoves(Picked(0), Picked(0), Locked(0));
    NobodyHolds(Picked(0), Picked(0));
  }

  lemma {:induction false} FirstChecks()
    ensures Next(Stand(Queued, "queued", Both(Locked(0), Picked(0)), [], map[]), System.Check(0),
                 Stand(Queued, "queued", Both(Working(0, 0, false), Picked(0)), [], map[]))
  {
    hide OutcomeOf, Stand, Move, System.Free;
    StandIs(Queued, "queued", Locked(0), Picked(0), [], map[]);
    FirstMoves(Locked(0), Picked(0), Working(0, 0, false));
  }

  lemma {:induction false} FirstHalts()
    ensures Next(Stand(Queued, "queued", Both(Working(0, 0, false), Picked(0)), [], map[]), System.Halting(0, Failed),
                 Stand(Queued, "queued", Both(Recording(0, Failed), Picked(0)), [], map[]))
  {
    hide OutcomeOf, Stand, Move, System.Free;
    StandIs(Queued, "queued", Working(0, 0, false), Picked(0), [], map[]);
    FirstMoves(Working(0, 0, false), Picked(0), Recording(0, Failed));
  }

  lemma {:induction false} SecondLocks()
    ensures Next(Stand(Queued, "queued", Both(Recording(0, Failed), Picked(0)), [], map[]), System.TryLock(1),
                 Stand(Queued, "queued", Both(Recording(0, Failed), Locked(0)), [], map[]))
  {
    hide OutcomeOf, Stand, Move, System.Free;
    StandIs(Queued, "queued", Recording(0, Failed), Picked(0), [], map[]);
    SecondMoves(Queued, "queued", Recording(0, Failed), Picked(0), Locked(0), [], map[]);
    NobodyHolds(Recording(0, Failed), Picked(0));
  }

  lemma {:induction false} SecondChecks()
    ensures Next(Stand(Queued, "queued", Both(Recording(0, Failed), Locked(0)), [], map[]), System.Check(1),
                 Stand(Queued, "queued", Both(Recording(0, Failed), Working(0, 0, false)), [], map[]))
  {
    hide OutcomeOf, Stand, Move, System.Free;
    StandIs(Queued, "queued", Recording(0, Failed), Locked(0), [], map[]);
    SecondMoves(Queued, "queued", Recording(0, Failed), Locked(0), Working(0, 0, false), [], map[]);
  }

  /** The second worker between its stages, the first waiting to record its failure. */
  function Going(status: Status, stage: string, entered: nat, written: bool, stages: seq<(nat, string)>,
      files: Files): System.State {
    Stand(status, stage, Both(Recording(0, Failed), Working(0, entered, written)), stages, files)
  }

  lemma {:induction false} GoingIs(status: Status, stage: string, entered: nat, written: bool,
      stages: seq<(nat, string)>, files: Files)
    ensures var s := Going(status, stage, entered, written, stages, files);
      && WorkerOf(s, 1) == Working(0, entered, written) && WorkerOf(s, 0) == Recording(0, Failed)
      && s.runs.Keys == {0} && s.runs[0].payload == QUIET && s.versions == VERSIONS
      && s.tables == EMPTY && s.snapshots == map[]
  {
    hide Stand;
    StandIs(status, stage, Recording(0, Failed), Working(0, entered, written), stages, files);
  }

  lemma {:induction false} EnteredIs(status: Status, stage: string, entered: nat, written: bool,
      stages: seq<(nat, string)>, files: Files)
    requires entered < |STAGES|
    ensures WorkerOf(Going(status, stage, entered, written, stages, files), 1).Working?
    ensures 0 in Going(status, stage, entered, written, stages, files).runs
    ensures WorkerOf(Going(status, stage, entered, written, stages, files), 1) == Working(0, entered, written)
    ensures Entered(Going(status, stage, entered, written, stages, files), 1) ==
            Going(Running, STAGES[entered], entered + 1, written, stages + [(0, STAGES[entered])], files)
  {
    hide STAGES;
    GoingIs(status, stage, entered, written, stages, files);
    assert Both(Recording(0, Failed), Working(0, entered, written))[1 := Working(0, entered + 1, written)] ==
           Both(Recording(0, Failed), Working(0, entered + 1, written));
  }

  lemma {:induction false} EnterStep(status: Status, stage: string, entered: nat, written: bool,
      stages: seq<(nat, string)>, files: Files)
    requires entered < |STAGES| && (entered == 3 ==> written)
    ensures Next(Going(status, stage, entered, written, stages, files), System.Enter(1),
                 Going(Running, STAGES[entered], entered + 1, written, stages + [(0, STAGES[entered])], files))
  {
    hide Analyse, STAGES, Going, Entered;
    QuietOutcome();
    GoingIs(status, stage, entered, written, stages, files);
    EnteredIs(status, stage, entered, written, stages, files);
  }

  const SNAPSHOT: Ref := RefOf(TENANT, 0, POPULATION.records)

  const WRITTEN: Files := Link(map[], SNAPSHOT, Encoded(POPULATION.records))

  lemma {:induction false} WrittenIs(status: Status, stage: string, stages: seq<(nat, string)>)
    ensures WorkerOf(Going(status, stage, 3, false, stages, map[]), 1) == Working(0, 3, false)
    ensures 0 in Going(status, stage, 3, false, stages, map[]).runs
    ensures Written(Going(status, stage, 3, false, stages, map[]), 1) == Going(status, stage, 3, true, stages, WRITTEN)
  {
    hide RefOf, Link;
    GoingIs(status, stage, 3, false, stages, map[]);
    assert Both(Recording(0, Failed), Working(0, 3, false))[1 := Working(0, 3, true)] ==
           Both(Recording(0, Failed), Working(0, 3, true));
  }

  lemma {:induction false} WriteStep(status: Status, stage: string, stages: seq<(nat, string)>)
    ensures Next(Going(status, stage, 3, false, stages, map[]), System.Write(1),
                 Going(status, stage, 3, true, stages, WRITTEN))
  {
    hide OutcomeOf, Going, Written, WRITTEN;
    WrittenIs(status, stage, stages);
  }

  lemma {:induction false} NothingReconciled(ctx: RunContext)
    ensures Reconciled(EMPTY, EMPTY, ctx, [])
  {
  }

  lemma {:induction false} CommittedTables(s: System.State)
    requires WorkerOf(s, 1).Working? && WorkerOf(s, 1).run in s.runs
    ensures Committed(s, 1, EMPTY, 0, true).tables == EMPTY
  {
    hide RefOf;
  }

  lemma {:induction false} CommitStepOf(status: Status, stage: string, stages: seq<(nat, string)>, files: Files)
    ensures var s := Going(status, stage, 7, true, stages, files);
      CommitNext(s, System.Commit(1, 0, true), Committed(s, 1, EMPTY, 0, true))
      && WorkerOf(s, 1).Working? && WorkerOf(s, 0).Recording? && WorkerOf(s, 0).run == 0 == WorkerOf(s, 1).run
      && WorkerOf(s, 0).halt == Failed && 0 in s.runs
  {
    hide Analyse, Reconciled, RefOf, Going, Committed;
    QuietOutcome();
    var s := Going(status, stage, 7, true, stages, files);
    GoingIs(status, stage, 7, true, stages, files);
    CommittedTables(s);
    NothingReconciled(ContextOf(0, QUIET, map[], 0));
    assert |STAGES| == 7;
  }

  /** An execution that has led to the state. */
  ghost predicate Leads(b: seq<System.State>, steps: seq<System.Step>, s: System.State) {
    Execution(b, steps) && b[|b| - 1] == s
  }

  lemma {:induction false} Onward(b: seq<System.State>, steps: seq<System.Step>, s: System.State, step: System.Step,
      t: System.State) returns (c: seq<System.State>, more: seq<System.Step>)
    requires Leads(b, steps, s) && Next(s, step, t)
    ensures Leads(c, more, t) && c == b + [t] && more == steps + [step]
  {
    hide Next, Initial;
    ExecutionGrows(b, steps, step, t);
    c, more := b + [t], steps + [step];
  }

  lemma {:induction false} Started() returns (b: seq<System.State>, steps: seq<System.Step>)
    ensures Leads(b, steps, Stand(Queued, "queued", Both(Picked(0), Picked(0)), [], map[]))
  {
    hide Next, Initial, Stand;
    FreshIsInitial();
    SubmitStep();
    FirstPicks();
    SecondPicks();
    b, steps := [FRESH], [];
    b, steps := Onward(b, steps, FRESH, System.Submit(POPULATION, None, 0, 0),
      Stand(Queued, "queued", map[], [], map[]));
    b, steps := Onward(b, steps, b[|b| - 1], System.Pick(0, 0),
      Stand(Queued, "queued", map[0 := Picked(0)], [], map[]));
    b, steps := Onward(b, steps, b[|b| - 1], System.Pick(1, 0),
      Stand(Queued, "queued", Both(Picked(0), Picked(0)), [], map[]));
  }

  /** The first worker fails in its main transaction; the second takes the run over before the failure is recorded. */
  lemma {:induction false} TakenOver() returns (b: seq<System.State>, steps: seq<System.Step>)
    ensures Leads(b, steps, Going(Queued, "queued", 0, false, [], map[]))
  {
    hide Next, Execution, Stand;
    b, steps := Started();
    FirstLocks();
    FirstChecks();
    FirstHalts();
    SecondLocks();
    SecondChecks();
    b, steps := Onward(b, steps, Stand(Queued, "queued", Both(Picked(0), Picked(0)), [], map[]), System.TryLock(0),
      Stand(Queued, "queued", Both(Locked(0), Picked(0)), [], map[]));
    b, steps := Onward(b, steps, Stand(Queued, "queued", Both(Locked(0), Picked(0)), [], map[]), System.Check(0),
      Stand(Queued, "queued", Both(Working(0, 0, false), Picked(0)), [], map[]));
    b, steps := Onward(b, steps, Stand(Queued, "queued", Both(Working(0, 0, false), Picked(0)), [], map[]),
      System.Halting(0, Failed), Stand(Queued, "queued", Both(Recording(0, Failed), Picked(0)), [], map[]));
    b, steps := Onward(b, steps, Stand(Queued, "queued", Both(Recording(0, Failed), Picked(0)), [], map[]),
      System.TryLock(1), Stand(Queued, "queued", Both(Recording(0, Failed), Locked(0)), [], map[]));
    b, steps := Onward(b, steps, Stand(Queued, "queued", Both(Recording(0, Failed), Locked(0)), [], map[]),
      System.Check(1), Stand(Queued, "queued", Both(Recording(0, Failed), Working(0, 0, false)), [], map[]));
  }

  /** The second worker enters its stages one after the other, and writes the snapshot at the third. */
  lemma {:induction false} Entering(n: nat) returns (b: seq<System.State>, steps: seq<System.Step>, status: Status,
      stage: string, stages: seq<(nat, string)>)
    requires n <= |STAGES|
    ensures Leads(b, steps, Going(status, stage, n, n > 3, stages, if n > 3 then WRITTEN else map[]))
  {
    hide Next, Leads, Going, STAGES, WRITTEN;
    if n == 0 {
      b, steps := TakenOver();
      status, stage, stages := Queued, "queued", [];
    } else {
      b, steps, status, stage, stages := Entering(n - 1);
      var written, files := n - 1 >= 3, if n - 1 >= 3 then WRITTEN else map[];
      if n - 1 == 3 {
        WriteStep(status, stage, stages);
        b, steps := Onward(b, steps, Going(status, stage, 3, false, stages, map[]), System.Write(1),
          Going(status, stage, 3, true, stages, WRITTEN));
      }
      EnterStep(status, stage, n - 1, written, stages, files);
      var next, more := STAGES[n - 1], stages + [(0, STAGES[n - 1])];
      b, steps := Onward(b, steps, Going(status, stage, n - 1, written, stages, files), System.Enter(1),
        Going(Running, next, n, written, more, files));
      status, stage, stages := Running, next, more;
    }
  }

  lemma {:induction false} RecordStep(s: System.State, w: nat)
    requires WorkerOf(s, w).Recording? && WorkerOf(s, w).run in s.runs
    ensures Next(s, System.Record(w), Recorded(s, w))
  {
  }

  lemma {:induction false} CommitIsNext(s: System.State, step: System.Step, t: System.State)
    requires step.Commit? && CommitNext(s, step, t)
    ensures Next(s, step, t)
  {
    hide CommitNext;
  }

  /**
   Two workers, from fresh tables on: one fails and waits to record it, the other
   takes the run over and completes it, and then the failure is recorded.  The
   completed run ends stopped, with its effects in place.
   */
  lemma {:induction false} CompletedRunEndsStopped() returns (b: seq<System.State>, steps: seq<System.Step>)
    ensures Execution(b, steps) && |b| > 2
    ensures steps[|steps| - 2] == System.Commit(1, 0, true) && steps[|steps| - 1] == System.Record(0)
    ensures Overwritten(b[|b| - 2], b[|b| - 1], 0, Failed)
  {
    hide Next, CommitNext, Going, Recorded, Committed, TakesStep, Initial, STAGES;
    assert |STAGES| == 7 by { SevenStages(); }
    var status, stage, stages;
    b, steps, status, stage, stages := Entering(7);
    var s := Going(status, stage, 7, true, stages, WRITTEN);
    CommitStepOf(status, stage, stages, WRITTEN);
    var t := Committed(s, 1, EMPTY, 0, true);
    LateRecordStopsACompletedRun(s, 1, 0, t, 0);
    CommitIsNext(s, System.Commit(1, 0, true), t);
    RecordStep(t, 0);
    b, steps := Onward(b, steps, s, System.Commit(1, 0, true), t);
    b, steps := Onward(b, steps, t, System.Record(0), Recorded(t, 0));
  }

  lemma {:induction false} SevenStages()
    ensures |STAGES| == 7
  {
  }
}
