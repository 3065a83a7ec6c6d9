/**
 The worker's program (internal/storage/pipeline.go, `ProcessNext`).  The
 service keeps the history of its states; every method leaves that history an
 execution of the transition system, so what holds of executions holds of
 whatever schedule calls these methods.
 */
module Pipeline {
  import opened Common
  import opened Identity
  import opened Populations
  import opened Reconciliation
  import opened Rules
  import opened Candidates
  import opened Ledger
  import opened FindingLaws
  import opened TenantStore
  import opened Analysis
  import opened AnalysisLaws
  import opened SnapshotStore
  import opened RunSteps
  import opened RunTables
  import opened System
  import opened SystemLaws
  import opened Executions

  class Service {
    const db: Database
    ghost var trace: seq<System.State>
    ghost var log: seq<System.Step>

    /** The history is an execution that has led to the present state. */
    ghost predicate Valid()
      reads this, db, db.tenant, db.store
    {
      Execution(trace, log) && trace[|trace| - 1] == db.State()
    }

    constructor (sources: set<string>, params: Parameters, hash: Digest, versions: Versions)
      requires VersionsAccepted(versions)
      ensures Valid() && fresh(db) && fresh(db.tenant) && fresh(db.store)
    {
      hide Initial, Next;
      var d := new Database(sources, params, hash, versions);
      db := d;
      new;
      trace, log := [db.State()], [];
    }

    /** Records that the last transaction was `step`. */
    ghost method Took(step: System.Step)
      requires Execution(trace, log) && Next(trace[|trace| - 1], step, db.State())
      modifies this
      ensures Valid() && trace == old(trace) + [db.State()] && log == old(log) + [step]
    {
      hide Next, Execution;
      ExecutionGrows(trace, log, step, db.State());
      log := log + [step];
      trace := trace + [db.State()];
    }

    ghost method Known()
      requires Valid()
      ensures Inv(db.State())
    {
      hide Inv, Next;
      ReachableInv(trace, log, |trace| - 1);
    }

    // ----- people and settings -----

    method Submit(p: Population, receipt: Option<string>, id: nat, now: int) returns (r: Result<nat, ReviewCase.Error>)
      requires Valid() && id !in db.runs
      modifies this, db
      ensures Valid() && r == SubmitResult(old(db.State()), p, receipt, id)
      ensures db.State() == SubmitAfter(old(db.State()), p, receipt, id, now)
    {
      hide Execution, SubmitResult, SubmitAfter;
      r := db.Submit(p, receipt, id, now);
      Took(System.Submit(p, receipt, id, now));
    }

    method Configure(params: Parameters, hash: Digest, manifest: map<string, Digest>, versions: Versions)
      requires Valid() && System.Grows(db.versions, versions) && VersionsAccepted(versions)
      modifies this, db
      ensures Valid()
      ensures db.State() ==
        old(db.State()).(params := params, paramsHash := hash, manifest := manifest, versions := versions)
    {
      hide Execution, VersionsAccepted, System.Grows;
      db.Configure(params, hash, manifest, versions);
      Took(System.Configure(params, hash, manifest, versions));
    }

    method Dispose(key: Key, actor: string, reason: string, to: Lifecycle.State, revision: int, expiry: Option<int>,
        now: int)
      returns (error: Option<ReviewCase.Error>)
      requires Valid()
      modifies this, db.tenant
      ensures Valid()
      ensures FindingLaws.Commits(old(db.State()).tables, Disposal(key, actor, reason, to, revision, expiry, now),
        db.State().tables)
    {
      hide Execution, Ledger.Dispose, Put, FindingLaws.Commits;
      error := db.tenant.Dispose(key, actor, reason, to, revision, expiry, now);
      Took(System.Human(Disposal(key, actor, reason, to, revision, expiry, now)));
    }

    method ActOnCase(key: Key, call: ReviewCase.Call, now: int) returns (error: Option<ReviewCase.Error>)
      requires Valid() && call.qualified == db.tenant.Qualified(key, call.assignee)
      modifies this, db.tenant
      ensures Valid()
      ensures FindingLaws.Commits(old(db.State()).tables, CaseCall(key, call, now), db.State().tables)
    {
      hide Execution, Ledger.ActOnCase, Put, FindingLaws.Commits;
      error := db.tenant.ActOnCase(key, call, now);
      Took(System.Human(CaseCall(key, call, now)));
    }

    method Comment(key: Key, actor: string, body: string, now: int) returns (error: Option<ReviewCase.Error>)
      requires Valid()
      modifies this, db.tenant
      ensures Valid()
      ensures FindingLaws.Commits(old(db.State()).tables, Remark(key, actor, body, now), db.State().tables)
    {
      hide Execution, Ledger.Comment, Put, FindingLaws.Commits;
      error := db.tenant.Comment(key, actor, body, now);
      Took(System.Human(Remark(key, actor, body, now)));
    }

    method SaveWorkflow(workflow: ReviewCase.Workflow, revision: int) returns (error: Option<ReviewCase.Error>)
      requires Valid()
      modifies this, db.tenant
      ensures Valid()
      ensures FindingLaws.Commits(old(db.State()).tables, Publication(workflow, revision), db.State().tables)
    {
      hide Execution, ReviewCase.Valid, FindingLaws.Commits;
      error := db.tenant.SaveWorkflow(workflow, revision);
      Took(System.Human(Publication(workflow, revision)));
    }

    // ----- a worker's transactions -----

    method Pick(w: nat, run: nat)
      requires Valid() && db.Place(w).Idle? && IsNext(db.State(), run)
      modifies this, db
      ensures Valid() && db.State() == Move(old(db.State()), w, Picked(run))
    {
      hide Execution, IsNext;
      db.Pick(w, run);
      Took(System.Pick(w, run));
    }

    method TryLock(w: nat)
      requires Valid() && db.Place(w).Picked? && db.Place(w).run in db.runs
      modifies this, db
      ensures Valid()
      ensures db.State() == Move(old(db.State()), w,
        if System.Free(old(db.State()), w, old(db.Place(w)).run) then Locked(old(db.Place(w)).run) else Idle)
    {
      hide Execution, System.Free;
      db.TryLock(w);
      Took(System.TryLock(w));
    }

    method Check(w: nat)
      requires Valid() && db.Place(w).Locked? && db.Place(w).run in db.runs
      modifies this, db
      ensures Valid()
      ensures db.State() == Move(old(db.State()), w,
        if Pending(old(db.runs[db.Place(w).run])) then Working(old(db.Place(w)).run, 0, false) else Idle)
    {
      hide Execution, Pending;
      db.Check(w);
      Took(System.Check(w));
    }

    method Progress(w: nat)
      requires Valid() && db.Place(w).Working? && db.Place(w).run in db.runs && db.Place(w).entered < |STAGES|
      requires db.Place(w).entered == 3 ==> db.Place(w).written
      requires !StopsAt(db.State(), db.Place(w).run, db.Place(w).entered)
      modifies this, db
      ensures Valid() && db.State() == Entered(old(db.State()), w)
    {
      hide Execution, STAGES, StopsAt, Entered;
      db.Progress(w);
      Took(System.Enter(w));
    }

    method Snapshot(w: nat)
      requires Valid() && db.Place(w).Working? && db.Place(w).run in db.runs && db.Place(w).entered == 3
        && !db.Place(w).written
      modifies this, db, db.store
      ensures Valid() && db.State() == Written(old(db.State()), w)
    {
      hide Execution, Written;
      db.Snapshot(w);
      Took(System.Write(w));
    }

    method Halt(w: nat, reason: Halt)
      requires Valid() && db.Place(w).Working? && db.Place(w).run in db.runs
      requires reason == Failed || OutcomeOf(db.State(), db.Place(w).run) == Halted(reason, db.Place(w).entered)
      modifies this, db
      ensures Valid() && db.State() == Move(old(db.State()), w, Recording(old(db.Place(w)).run, reason))
    {
      hide Execution, OutcomeOf;
      db.Halt(w, reason);
      Took(System.Halting(w, reason));
    }

    method Record(w: nat)
      requires Valid() && db.Place(w).Recording? && db.Place(w).run in db.runs
      modifies this, db
      ensures Valid() && db.State() == Recorded(old(db.State()), w)
    {
      hide Execution, Recorded;
      db.Record(w);
      Took(System.Record(w));
    }

    method Crash(w: nat)
      requires Valid()
      modifies this, db
      ensures Valid() && db.State() == Move(old(db.State()), w, Idle)
    {
      hide Execution;
      db.Crash(w);
      Took(System.Crash(w));
    }

    /** The commit of the main transaction; its unique constraints cannot fail. */
    method Commit(w: nat, scope: map<string, Digest>, rows: seq<Row>, at: int, acknowledged: bool)
      requires Valid() && db.Place(w).Working? && db.Place(w).run in db.runs
      requires db.Place(w).entered == |STAGES| && db.Place(w).written
      requires OutcomeOf(db.State(), db.Place(w).run) == Ready(scope, rows)
      modifies this, db, db.tenant
      ensures Valid() && CommitNext(old(db.State()), System.Commit(w, at, acknowledged), db.State())
      ensures db.State() == Committed(old(db.State()), w, db.State().tables, |rows|, acknowledged)
    {
      hide Execution, OutcomeOf, Ledger.Reconciled, STAGES, CommitNext, FirstCommit, Committed, Inv, Unseen;
      Known();
      ghost var s := db.State();
      CommitIsFirst(s, w, scope, rows, at);
      db.Commit(w, scope, rows, at, acknowledged);
      CommitHolds(s, w, scope, rows, at, acknowledged, db.State());
      Took(System.Commit(w, at, acknowledged));
    }

    // ----- one attempt at a run -----

    /** A worker in its main transaction on a run of state `s`, in which nothing has been committed since. */
    ghost predicate Underway(s: System.State, w: nat, run: nat, entered: nat, written: bool)
      reads this, db, db.tenant, db.store
    {
      && Valid() && Framed(s, db.State()) && run in s.runs && run in db.runs
         && db.runs[run].payload == s.runs[run].payload
      && db.versions == s.versions && db.Place(w) == Working(run, entered, written)
    }

    method Advance(w: nat, run: nat, ghost s: System.State)
      requires db.Place(w).Working? && Underway(s, w, run, db.Place(w).entered, db.Place(w).written)
      requires db.Place(w).entered < |STAGES| && (db.Place(w).entered == 3 ==> db.Place(w).written)
      requires Survives(s, run, db.Place(w).entered + 1)
      modifies this, db
      ensures Underway(s, w, run, old(db.Place(w)).entered + 1, old(db.Place(w)).written)
    {
      hide Execution, Analyse, STAGES, Framed;
      ghost var before := db.State();
      FramedOutcome(s, before, run);
      Progress(w);
      EnteredFrame(before, w);
      FramedTwice(s, before, db.State());
    }

    method Snap(w: nat, run: nat, ghost s: System.State)
      requires Underway(s, w, run, 3, false)
      modifies this, db, db.store
      ensures Underway(s, w, run, 3, true)
    {
      hide Execution, Framed;
      ghost var before := db.State();
      Snapshot(w);
      WrittenFrame(before, w);
      FramedTwice(s, before, db.State());
    }

    /** Checks the frozen payload and its totals. */
    method CheckStages(w: nat, run: nat, ghost s: System.State) returns (halt: Option<Halt>)
      requires Underway(s, w, run, 0, false)
      modifies this, db
      ensures match halt
        case None => Underway(s, w, run, 2, false) && Survives(s, run, 5)
        case Some(reason) => Stuck(s, w, run, reason)
    {
      hide Analyse, STAGES, Checked, TiesOut, Generate, Score, Models, Scope, Valid, Framed;
      OutcomeBySteps(s.runs[run].payload, s.versions);
      StageCount();
      var x := db.runs[run].payload;
      var ok := CheckPayload(x);
      if !ok { return Some(Failed); }
      Advance(w, run, s);
      Advance(w, run, s);
      ok := CheckedTieOut(x);
      if !ok { return Some(TieOutFailed); }
      halt := None;
    }

    method SnapshotStages(w: nat, run: nat, ghost s: System.State)
      requires Underway(s, w, run, 2, false) && Survives(s, run, 5)
      modifies this, db, db.store
      ensures Underway(s, w, run, 5, true)
    {
      hide Analyse, STAGES, Valid, Framed;
      StageCount();
      Advance(w, run, s);
      Snap(w, run, s);
      Advance(w, run, s);
      Advance(w, run, s);
    }

    /** Generates the candidates, and scores them by the rule versions in scope. */
    method ScoreStages(w: nat, run: nat, ghost s: System.State)
      returns (halt: Option<Halt>, scope: map<string, Digest>, rows: seq<Row>)
      requires Underway(s, w, run, 5, true) && Survives(s, run, 5)
      modifies this, db
      ensures match halt
        case None => Underway(s, w, run, 7, true) && OutcomeOf(s, run) == Ready(scope, rows)
        case Some(reason) => Stuck(s, w, run, reason)
    {
      hide Analyse, STAGES, Checked, TiesOut, Generate, Score, Models, Scope, Valid, Framed;
      OutcomeBySteps(s.runs[run].payload, s.versions);
      StageCount();
      halt, scope, rows := None, map[], [];
      var x := db.runs[run].payload;
      scope := ReadScope(x.population.controls, x.manifest);
      var found := ReadCandidates(x.population, x.params, scope.Keys);
      if found.Err? { return Some(found.error), scope, rows; }
      Advance(w, run, s);
      var models, loaded := LoadModels(scope, db.versions);
      if !loaded { return Some(Failed), scope, rows; }
      var scored := ScoreAll(models, found.value, x.params.ceiling);
      if scored.Err? { return Some(scored.error), scope, rows; }
      rows := scored.value;
      Advance(w, run, s);
    }

    /** The worker has found why the run cannot go on. */
    ghost predicate Stuck(s: System.State, w: nat, run: nat, reason: Halt)
      reads this, db, db.tenant, db.store
    {
      && db.Place(w).Working? && Underway(s, w, run, db.Place(w).entered, db.Place(w).written)
      && OutcomeOf(s, run) == Halted(reason, db.Place(w).entered)
    }

    /** All stages of a run, up to what it has to reconcile or the error that halts it. */
    method Stages(w: nat, run: nat, ghost s: System.State)
      returns (halt: Option<Halt>, scope: map<string, Digest>, rows: seq<Row>)
      requires Underway(s, w, run, 0, false)
      modifies this, db, db.store
      ensures match halt
        case None => Underway(s, w, run, 7, true) && OutcomeOf(s, run) == Ready(scope, rows)
        case Some(reason) => Stuck(s, w, run, reason)
    {
      hide Analyse, Valid, Framed;
      scope, rows := map[], [];
      halt := CheckStages(w, run, s);
      if halt.Some? { return; }
      SnapshotStages(w, run, s);
      halt, scope, rows := ScoreStages(w, run, s);
    }

    /** Rolls the main transaction back and records why. */
    method Fail(w: nat, run: nat, reason: Halt, ghost s: System.State)
      requires Stuck(s, w, run, reason)
      modifies this, db
      ensures Valid() && Framed(s, db.State()) && db.Place(w).Idle?
      ensures run in db.runs && db.runs[run].status == Stopped(reason)
    {
      hide Execution, Analyse, Framed;
      ghost var before := db.State();
      FramedOutcome(s, before, run);
      Halt(w, reason);
      ghost var halted := db.State();
      MovedFrame(before, w, Recording(run, reason));
      Record(w);
      RecordedFrame(halted, w);
      FramedTwice(before, halted, db.State());
      FramedTwice(s, before, db.State());
    }

    /** Takes a lock on the oldest pending run, if there is one and its source is free. */
    method Begin(w: nat) returns (run: Option<nat>)
      requires Valid() && db.Place(w).Idle?
      modifies this, db
      ensures Valid() && Framed(old(db.State()), db.State())
      ensures run.Some? ==> Underway(old(db.State()), w, run.value, 0, false) && Pending(old(db.runs)[run.value])
      ensures run.None? ==> db.Place(w).Idle? && db.runs == old(db.runs)
    {
      hide Execution, Framed, System.Free, IsNext;
      ghost var s := db.State();
      SameFrame(s);
      run := db.NextPending();
      if run.None? { return; }
      NextIsPending(s, run.value);
      Pick(w, run.value);
      MovedFrame(s, w, Picked(run.value));
      ghost var t := db.State();
      TryLock(w);
      MovedFrame(t, w, db.Place(w));
      FramedTwice(s, t, db.State());
      if db.Place(w).Idle? { return None; }
      ghost var u := db.State();
      Check(w);
      MovedFrame(u, w, db.Place(w));
      FramedTwice(s, u, db.State());
    }

    /**
     One call of `ProcessNext` that is not interrupted: it does nothing, or it
     commits the reconciliation of one run, or it leaves everything but the
     run's status, its stages and its snapshot file as it was.
     */
    method ProcessNext(w: nat, at: int) returns (run: Option<nat>, error: Option<Halt>)
      requires Valid() && db.Place(w).Idle?
      modifies this, db, db.tenant, db.store
      ensures Valid() && db.Place(w).Idle?
      ensures run.None? ==> error.None? && db.runs == old(db.runs) && Framed(old(db.State()), db.State())
      ensures run.Some? ==> run.value in old(db.runs) && Pending(old(db.runs)[run.value]) && run.value in db.runs
      ensures error.Some? ==>
        run.Some? && Framed(old(db.State()), db.State()) && db.runs[run.value].status == Stopped(error.value)
      ensures error.Some? ==> exists stage :: OutcomeOf(old(db.State()), run.value) == Halted(error.value, stage)
      ensures run.Some? && error.None? ==> Processed(old(db.State()), run.value, at, db.State())
    {
      hide Execution, Analyse, Framed, Processed;
      ghost var s := db.State();
      error := None;
      run := Begin(w);
      if run.None? { return; }
      var scope, rows;
      error, scope, rows := Stages(w, run.value, s);
      if error.Some? {
        ghost var stage := db.Place(w).entered;
        assert OutcomeOf(s, run.value) == Halted(error.value, stage);
        Fail(w, run.value, error.value, s);
        return;
      }
      Finish(w, run.value, scope, rows, at, s);
    }

    /** Commits what an attempt has found. */
    method Finish(w: nat, run: nat, scope: map<string, Digest>, rows: seq<Row>, at: int, ghost s: System.State)
      requires Underway(s, w, run, 7, true) && OutcomeOf(s, run) == Ready(scope, rows)
      modifies this, db, db.tenant
      ensures Valid() && db.Place(w).Idle? && Processed(s, run, at, db.State()) && run in db.runs
    {
      hide Execution, Analyse, Framed, CommitNext, Committed, Inv, Processed;
      ghost var before := db.State();
      FramedOutcome(s, before, run);
      StageCount();
      Known();
      InvParts(before);
      Commit(w, scope, rows, at, true);
      CommitProcesses(s, before, w, scope, rows, at, db.State());
    }
  }

  /** The run has been reconciled, and is complete. */
  ghost predicate Processed(s: System.State, run: nat, at: int, t: System.State)
    requires run in s.runs
  {
    && OutcomeOf(s, run).Ready?
    && FindingLaws.Commits(s.tables,
       Run(ContextOf(run, s.runs[run].payload, OutcomeOf(s, run).scope, at), OutcomeOf(s, run).rows), t.tables)
    && t.commits == s.commits + [run]
    && run in t.runs && t.runs[run].status == Completed && t.runs[run].exceptions == |OutcomeOf(s, run).rows|
    && s.runs[run].payload.population.source in t.watermarks
    && t.watermarks[s.runs[run].payload.population.source] == Some(run)
  }

  lemma {:induction false} NextIsPending(s: System.State, run: nat)
    requires IsNext(s, run)
    ensures run in s.runs && Pending(s.runs[run])
  {
  }

  lemma {:induction false} CommitProcesses(s: System.State, before: System.State, w: nat, scope: map<string, Digest>,
      rows: seq<Row>, at: int, t: System.State)
    requires Framed(s, before) && WorkerOf(before, w).Working? && WorkerOf(before, w).run in s.runs
    requires WorkerOf(before, w).run in before.runs && VersionsAccepted(before.versions)
    requires OutcomeOf(s, WorkerOf(before, w).run) == Ready(scope, rows)
    requires CommitNext(before, System.Commit(w, at, true), t)
    ensures Processed(s, WorkerOf(before, w).run, at, t) && WorkerOf(t, w).Idle? && WorkerOf(before, w).run in t.runs
  {
    hide Analyse, Ledger.Reconciled, ValidRows, Addressed, FindingLaws.Commits, VersionsAccepted;
    var run := WorkerOf(before, w).run;
    FramedOutcome(s, before, run);
    ReadyRowsValid(s.runs[run].payload, s.versions, run, at);
    ReconciledCommits(s.tables, t.tables, ContextOf(run, s.runs[run].payload, scope, at), rows);
  }

  /** The run's error, if it has one, comes only after it has entered `n` stages. */
  ghost predicate Survives(s: System.State, run: nat, n: nat)
    requires run in s.runs
  {
    OutcomeOf(s, run).Halted? ==> OutcomeOf(s, run).stage >= n
  }

  method CheckedTieOut(x: Payload) returns (ok: bool)
    requires Checked(x)
    ensures ok <==> TiesOut(x.population, [])
  {
    ok := CheckTieOut(x.population);
  }

  lemma {:induction false} StageCount()
    ensures |STAGES| == 7
  {
  }

  lemma {:induction false} SameFrame(s: System.State)
    ensures Framed(s, s)
  {
  }

  lemma {:induction false} FramedTwice(s: System.State, t: System.State, u: System.State)
    requires Framed(s, t) && Framed(t, u)
    ensures Framed(s, u)
  {
    hide Addressed;
  }

  lemma {:induction false} FramedOutcome(s: System.State, t: System.State, run: nat)
    requires Framed(s, t) && run in s.runs
    ensures run in t.runs && OutcomeOf(t, run) == OutcomeOf(s, run)
  {
    hide Analyse, Addressed;
  }

  ghost predicate FirstCommit(s: System.State, w: nat)
    requires WorkerOf(s, w).Working?
  {
    WorkerOf(s, w).run !in s.snapshots && forall o :: o in s.tables.observations ==> o.run != WorkerOf(s, w).run
  }

  lemma {:induction false} CommitHolds(s: System.State, w: nat, scope: map<string, Digest>, rows: seq<Row>, at: int,
      acknowledged: bool, t: System.State)
    requires WorkerOf(s, w).Working? && WorkerOf(s, w).run in s.runs
    requires WorkerOf(s, w).entered == |STAGES| && WorkerOf(s, w).written
    requires OutcomeOf(s, WorkerOf(s, w).run) == Ready(scope, rows) && FirstCommit(s, w)
    requires Ledger.Reconciled(s.tables, t.tables,
      ContextOf(WorkerOf(s, w).run, s.runs[WorkerOf(s, w).run].payload, scope, at), rows)
    requires t == Committed(s, w, t.tables, |rows|, acknowledged)
    ensures CommitNext(s, System.Commit(w, at, acknowledged), t)
  {
    hide Analyse, Ledger.Reconciled, STAGES, Committed;
  }

  /** A working run has not committed before: it has no snapshot row and no observation, and flags no finding twice. */
  lemma {:induction false} CommitIsFirst(s: System.State, w: nat, scope: map<string, Digest>, rows: seq<Row>, at: int)
    requires Inv(s) && WorkerOf(s, w).Working? && WorkerOf(s, w).run in s.runs
    requires OutcomeOf(s, WorkerOf(s, w).run) == Ready(scope, rows)
    ensures var run := WorkerOf(s, w).run;
      FirstCommit(s, w) && Unseen(s.tables.observations, ContextOf(run, s.runs[run].payload, scope, at), rows)
  {
    hide Analyse, TablesOk, TiedOut, Stored, Exclusive, ReceiptsOk, Addressed, VersionsAccepted, KeyOf;
    var run := WorkerOf(s, w).run;
    ReadyRowsValid(s.runs[run].payload, s.versions, run, at);
  }
}
