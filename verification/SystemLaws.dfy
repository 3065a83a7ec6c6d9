/** What every interleaving of workers, people and crashes keeps. */
module SystemLaws {
  import opened Common
  import opened Populations
  import opened Reconciliation
  import opened Candidates
  import opened Ledger
  import opened FindingLaws
  import opened Analysis
  import opened AnalysisLaws
  import opened SnapshotStore
  import opened System

  // ----- invariants -----

  predicate WorkersOk(s: System.State) {
    forall w :: w in s.workers && !s.workers[w].Idle? ==> s.workers[w].run in s.runs
  }

  /** Two open main transactions work on different sources. */
  predicate Exclusive(s: System.State) {
    forall v, w :: v in s.workers && w in s.workers && v != w && Holds(s.workers[v]) && Holds(s.workers[w])
      && s.workers[v].run in s.runs && s.workers[w].run in s.runs
      ==> SourceOf(s, s.workers[v].run) != SourceOf(s, s.workers[w].run)
  }

  predicate NoRepeats(q: seq<nat>) {
    forall i, j :: 0 <= i < j < |q| ==> q[i] != q[j]
  }

  /** A committed run is over: it is not pending, and no worker is in its main transaction. */
  predicate Settled(s: System.State) {
    && NoRepeats(s.commits)
    && (forall r :: r in s.commits ==> r in s.runs && !Pending(s.runs[r]))
    && (forall w :: w in s.workers && s.workers[w].Working? ==> s.workers[w].run !in s.commits)
    && s.snapshots.Keys == (set r | r in s.commits)
    && (forall o :: o in s.tables.observations ==> o.run in s.commits)
  }

  /** Each receipt belongs to exactly one run, and each run has the receipt it was submitted with. */
  predicate ReceiptsOk(s: System.State) {
    && (forall x :: x in s.receipts ==> s.receipts[x] in s.runs && s.runs[s.receipts[x]].receipt == Some(x))
    && (forall r :: r in s.runs && s.runs[r].receipt.Some? ==>
          s.runs[r].receipt.value in s.receipts && s.receipts[s.runs[r].receipt.value] == r)
  }

  ghost predicate TiedOut(s: System.State) {
    forall r :: r in s.commits && r in s.runs ==> TiesOut(s.runs[r].payload.population, [])
  }

  /** A worker past the snapshot stage, and every committed run, has its snapshot file. */
  predicate Stored(s: System.State) {
    && (forall w :: w in s.workers && s.workers[w].Working? && s.workers[w].written && s.workers[w].run in s.runs ==>
          HasSnapshot(s, s.workers[w].run))
    && (forall r :: r in s.snapshots && r in s.runs ==>
          HasSnapshot(s, r) && s.snapshots[r] == RefOf(TENANT, r, s.runs[r].payload.population.records))
  }

  predicate HasSnapshot(s: System.State, run: nat)
    requires run in s.runs
  {
    var records := s.runs[run].payload.population.records;
    RefOf(TENANT, run, records) in s.files && s.files[RefOf(TENANT, run, records)] == Encoded(records)
  }

  ghost predicate Inv(s: System.State) {
    Stored(s) && WorkersOk(s) && Exclusive(s) && Settled(s) && ReceiptsOk(s) && TiedOut(s)
    && Addressed(s.files) && VersionsAccepted(s.versions) && TablesOk(s.tables)
  }

  lemma {:induction false} InvParts(s: System.State)
    requires Inv(s)
    ensures WorkersOk(s) && Exclusive(s) && Settled(s) && ReceiptsOk(s) && VersionsAccepted(s.versions)
  {
    hide Stored, WorkersOk, Exclusive, Settled, ReceiptsOk, TiedOut, Addressed, VersionsAccepted, TablesOk;
  }

  // ----- one step -----

  predicate Adds(s: System.State, t: System.State) {
    && t.workers == s.workers && t.tables == s.tables && t.commits == s.commits
    && (forall r :: r in s.runs ==> r in t.runs && t.runs[r] == s.runs[r])
    && (forall r :: r in t.runs ==> r in s.runs || t.runs[r].status == Queued)
  }

  lemma {:induction false} EnqueuedAdds(s: System.State, p: Population, receipt: Option<string>, id: nat, now: int)
    requires id !in s.runs
    ensures Adds(s, Enqueued(s, p, receipt, id, now)) && Adds(s, s)
  {
    assert Enqueued(s, p, receipt, id, now).workers == s.workers;
  }

  /** A submission adds at most one queued run, and touches no worker. */
  lemma {:induction false} SubmitAdds(s: System.State, p: Population, receipt: Option<string>, id: nat, now: int)
    requires id !in s.runs
    ensures Adds(s, SubmitAfter(s, p, receipt, id, now))
  {
    hide SubmitResult, Enqueued, Adds;
    EnqueuedAdds(s, p, receipt, id, now);
  }

  lemma {:induction false} SubmitKeeps(s: System.State, p: Population, receipt: Option<string>, id: nat, now: int)
    requires Inv(s) && id !in s.runs
    ensures Inv(SubmitAfter(s, p, receipt, id, now))
  {
    hide Enqueued, SubmitResult, Exclusive, WorkersOk, Settled, ReceiptsOk, TiedOut, TablesOk, Addressed,
         VersionsAccepted, Stored;
    EnqueuedStored(s, p, receipt, id, now);
    EnqueuedExclusive(s, p, receipt, id, now);
    EnqueuedSettled(s, p, receipt, id, now);
    if receipt.None? || receipt.value !in s.receipts {
      EnqueuedReceipts(s, p, receipt, id, now);
    }
  }

  lemma {:induction false} EnqueuedExclusive(s: System.State, p: Population, receipt: Option<string>, id: nat, now: int)
    requires id !in s.runs && WorkersOk(s) && Exclusive(s)
    ensures WorkersOk(Enqueued(s, p, receipt, id, now)) && Exclusive(Enqueued(s, p, receipt, id, now))
  {
  }

  lemma {:induction false} EnqueuedSettled(s: System.State, p: Population, receipt: Option<string>, id: nat, now: int)
    requires id !in s.runs && Settled(s) && TiedOut(s)
    ensures Settled(Enqueued(s, p, receipt, id, now)) && TiedOut(Enqueued(s, p, receipt, id, now))
  {
    hide TiesOut, NoRepeats;
  }

  lemma {:induction false} EnqueuedReceipts(s: System.State, p: Population, receipt: Option<string>, id: nat, now: int)
    requires id !in s.runs && ReceiptsOk(s) && (receipt.Some? ==> receipt.value !in s.receipts)
    ensures var t := Enqueued(s, p, receipt, id, now);
      ReceiptsOk(t) && t.files == s.files && t.versions == s.versions && t.tables == s.tables
  {
  }

  lemma {:induction false} EnqueuedStored(s: System.State, p: Population, receipt: Option<string>, id: nat, now: int)
    requires id !in s.runs && Stored(s) && WorkersOk(s) && Settled(s)
    ensures Stored(Enqueued(s, p, receipt, id, now))
  {
    hide HasSnapshot, NoRepeats, Pending;
    var t := Enqueued(s, p, receipt, id, now);
    forall r | r in s.runs
      ensures r in t.runs && (HasSnapshot(s, r) <==> HasSnapshot(t, r))
    {
      SameSnapshot(s, t, r);
    }
  }

  lemma {:induction false} SameSnapshot(s: System.State, t: System.State, r: nat)
    requires r in s.runs && r in t.runs && s.runs[r].payload == t.runs[r].payload
    ensures s.files == t.files ==> (HasSnapshot(s, r) <==> HasSnapshot(t, r))
    ensures (forall ref :: ref in s.files ==> ref in t.files && t.files[ref] == s.files[ref]) && HasSnapshot(s, r)
      ==> HasSnapshot(t, r)
  {
  }

  /** The row of a run may change in its status, stage and count only. */
  predicate SamePayloads(s: System.State, t: System.State) {
    s.runs.Keys == t.runs.Keys
    && forall r :: r in s.runs ==> s.runs[r].payload == t.runs[r].payload && s.runs[r].receipt == t.runs[r].receipt
                                   && s.runs[r].created == t.runs[r].created
  }

  /** What a step that commits nothing leaves as it was: everything but run status, stage history and files. */
  predicate Framed(s: System.State, t: System.State) {
    && SamePayloads(s, t)
    && t.tables == s.tables && t.commits == s.commits && t.snapshots == s.snapshots && t.watermarks == s.watermarks
    && t.receipts == s.receipts && t.versions == s.versions && t.periods == s.periods
    && (forall ref :: ref in s.files ==> ref in t.files && t.files[ref] == s.files[ref])
    && (Addressed(s.files) ==> Addressed(t.files))
  }

  lemma {:induction false} WrittenFrame(s: System.State, w: nat)
    requires WorkerOf(s, w).Working? && WorkerOf(s, w).run in s.runs
    ensures Framed(s, Written(s, w))
  {
  }

  lemma {:induction false} EnteredFrame(s: System.State, w: nat)
    requires WorkerOf(s, w).Working? && WorkerOf(s, w).run in s.runs && WorkerOf(s, w).entered < |STAGES|
    ensures Framed(s, Entered(s, w))
  {
    hide STAGES, Addressed;
  }

  lemma {:induction false} RecordedFrame(s: System.State, w: nat)
    requires WorkerOf(s, w).Recording? && WorkerOf(s, w).run in s.runs
    ensures Framed(s, Recorded(s, w))
  {
    hide Addressed;
  }

  lemma {:induction false} MovedFrame(s: System.State, w: nat, x: Worker)
    ensures Framed(s, Move(s, w, x))
  {
    hide Addressed;
  }

  lemma {:induction false} WorkerStepFrame(s: System.State, step: Step, t: System.State)
    requires WorkerStep(step) && WorkerNext(s, step, t)
    ensures Framed(s, t)
  {
    hide Analyse, IsNext, System.Free, STAGES, Pending, OutcomeOf, StopsAt, Written, Entered, Recorded, Move, Framed;
    var x := WorkerOf(s, step.worker);
    match step {
      case Write(w) => WrittenFrame(s, w);
      case Enter(w) => EnteredFrame(s, w);
      case Record(w) => RecordedFrame(s, w);
      case Crash(w) => MovedFrame(s, w, Idle);
      case Pick(w, run) => MovedFrame(s, w, Picked(run));
      case TryLock(w) => MovedFrame(s, w, if System.Free(s, w, x.run) then Locked(x.run) else Idle);
      case Check(w) => MovedFrame(s, w, if Pending(s.runs[x.run]) then Working(x.run, 0, false) else Idle);
      case Halting(w, reason) => MovedFrame(s, w, Recording(x.run, reason));
      case _ =>
    }
  }

  /** How a worker moves: what it may come to hold, and when it may start to work. */
  predicate Moves(s: System.State, w: nat, before: Worker, after: Worker) {
    && (!after.Idle? ==> after.run in s.runs)
    && (Holds(after) && after.run in s.runs ==> (Holds(before) && before.run == after.run) || Free(s, w, after.run))
    && (after.Working? && after.run in s.runs ==>
          (before.Working? && before.run == after.run) || Pending(s.runs[after.run]))
  }

  lemma {:induction false} WorkerStepMoves(s: System.State, step: Step, t: System.State) returns (after: Worker)
    requires WorkerStep(step) && WorkerNext(s, step, t)
    ensures t.workers == s.workers[step.worker := after] && Moves(s, step.worker, WorkerOf(s, step.worker), after)
    ensures forall r :: r in s.runs && r in t.runs && Pending(t.runs[r]) ==>
      Pending(s.runs[r]) || (WorkerOf(s, step.worker).Working? && WorkerOf(s, step.worker).run == r)
  {
    hide Analyse, Free;
    after := t.workers[step.worker];
  }

  lemma {:induction false} WorkerStepExclusive(s: System.State, step: Step, t: System.State)
    requires WorkerStep(step) && WorkerNext(s, step, t) && WorkersOk(s) && Exclusive(s)
    ensures WorkersOk(t) && Exclusive(t)
  {
    hide WorkerNext, Pending;
    WorkerStepFrame(s, step, t);
    var after := WorkerStepMoves(s, step, t);
  }

  lemma {:induction false} WorkerStepSettled(s: System.State, step: Step, t: System.State)
    requires WorkerStep(step) && WorkerNext(s, step, t) && Settled(s)
    ensures Settled(t)
  {
    hide WorkerNext, Free, Holds, Pending;
    WorkerStepFrame(s, step, t);
    var after := WorkerStepMoves(s, step, t);
  }

  lemma {:induction false} WorkerStepWrites(s: System.State, step: Step, t: System.State, after: Worker)
    requires WorkerStep(step) && WorkerNext(s, step, t) && t.workers == s.workers[step.worker := after]
      && Addressed(s.files)
    requires after.Working? && after.written && after.run in s.runs && after.run in t.runs
    ensures (WorkerOf(s, step.worker).Working? && WorkerOf(s, step.worker).written
      && WorkerOf(s, step.worker).run == after.run)
      || HasSnapshot(t, after.run)
  {
    hide Analyse, Free, IsNext, Pending;
    assert t.workers[step.worker] == after;
  }

  lemma {:induction false} WorkerStepStored(s: System.State, step: Step, t: System.State)
    requires WorkerStep(step) && WorkerNext(s, step, t) && Stored(s) && Addressed(s.files)
    ensures Stored(t)
  {
    hide WorkerNext, HasSnapshot, Free, Holds, Pending, Addressed, SourceOf;
    WorkerStepFrame(s, step, t);
    var after := WorkerStepMoves(s, step, t);
    if after.Working? && after.written && after.run in s.runs {
      WorkerStepWrites(s, step, t, after);
    }
    forall r | r in s.runs && HasSnapshot(s, r)
      ensures HasSnapshot(t, r)
    {
      SameSnapshot(s, t, r);
    }
  }

  lemma {:induction false} WorkerStepKeeps(s: System.State, step: Step, t: System.State)
    requires Inv(s) && WorkerStep(step) && WorkerNext(s, step, t)
    ensures Inv(t)
  {
    hide TablesOk, TiesOut, VersionsAccepted, WorkerNext, WorkersOk, Exclusive, Settled, Addressed, Stored;
    WorkerStepFrame(s, step, t);
    WorkerStepExclusive(s, step, t);
    WorkerStepStored(s, step, t);
    WorkerStepSettled(s, step, t);
  }

  lemma {:induction false} CommitStep(s: System.State, step: Step, t: System.State)
    requires Inv(s) && step.Commit? && CommitNext(s, step, t)
    ensures var run := WorkerOf(s, step.worker).run;
      WorkerOf(s, step.worker).Working? && run in s.runs && OutcomeOf(s, run).Ready?
      && FindingLaws.Commits(s.tables,
         Run(ContextOf(run, s.runs[run].payload, OutcomeOf(s, run).scope, step.at), OutcomeOf(s, run).rows), t.tables)
      && t.commits == s.commits + [run] && run !in s.commits
  {
    hide TablesOk, TiesOut, VersionsAccepted, Analyse, Reconciled, ValidRows, FindingLaws.Commits;
    var run := WorkerOf(s, step.worker).run;
    var r := OutcomeOf(s, run);
    ReadyRowsValid(s.runs[run].payload, s.versions, run, step.at);
    ReconciledCommits(s.tables, t.tables, ContextOf(run, s.runs[run].payload, r.scope, step.at), r.rows);
  }

  lemma {:induction false} CommitTables(s: System.State, step: Step, t: System.State)
    requires Inv(s) && step.Commit? && CommitNext(s, step, t)
    ensures TablesOk(t.tables)
  {
    hide Inv, TablesOk, Analyse, FindingLaws.Commits, System.Commits;
    InvTables(s);
    CommitStep(s, step, t);
    var run := WorkerOf(s, step.worker).run;
    CommitKeepsOk(s.tables,
      Run(ContextOf(run, s.runs[run].payload, OutcomeOf(s, run).scope, step.at), OutcomeOf(s, run).rows), t.tables);
  }

  lemma {:induction false} InvTies(s: System.State, run: nat)
    requires Inv(s) && run in s.commits
    ensures run in s.runs && TiesOut(s.runs[run].payload.population, [])
  {
  }

  lemma {:induction false} InvTables(s: System.State)
    requires Inv(s)
    ensures TablesOk(s.tables)
  {
  }

  lemma {:induction false} CommitTies(s: System.State, step: Step, t: System.State)
    requires TiedOut(s) && step.Commit? && CommitNext(s, step, t)
    ensures TiedOut(t) && t.files == s.files && t.versions == s.versions
  {
    hide Analyse, TiesOut, Reconciled;
    var run := WorkerOf(s, step.worker).run;
    var c := ReadyMeans(s.runs[run].payload, s.versions);
  }

  lemma {:induction false} CommitKeeps(s: System.State, step: Step, t: System.State)
    requires Inv(s) && step.Commit? && CommitNext(s, step, t)
    ensures Inv(t)
  {
    hide CommitNext, TablesOk, TiedOut, VersionsAccepted, Addressed, Settled, Exclusive, ReceiptsOk, WorkersOk, Stored;
    CommitTables(s, step, t);
    CommitTies(s, step, t);
    CommitSettled(s, step, t);
    CommitExclusive(s, step, t);
    CommitStored(s, step, t);
  }

  lemma {:induction false} CommitStored(s: System.State, step: Step, t: System.State)
    requires step.Commit? && CommitNext(s, step, t) && Stored(s)
    ensures Stored(t)
  {
    hide Analyse, Reconciled;
    forall r | r in s.runs && HasSnapshot(s, r)
      ensures HasSnapshot(t, r)
    {
    }
  }

  lemma {:induction false} CommitExclusive(s: System.State, step: Step, t: System.State)
    requires step.Commit? && CommitNext(s, step, t) && WorkersOk(s) && Exclusive(s) && ReceiptsOk(s)
    ensures WorkersOk(t) && Exclusive(t) && ReceiptsOk(t)
  {
    hide Analyse, Reconciled, OutcomeOf, RefOf, Observations;
  }

  lemma {:induction false} CommitSettled(s: System.State, step: Step, t: System.State)
    requires step.Commit? && CommitNext(s, step, t) && WorkersOk(s) && Exclusive(s) && Settled(s)
    ensures Settled(t)
  {
    hide Analyse, Observed;
    var run := WorkerOf(s, step.worker).run;
    forall o | o in t.tables.observations
      ensures o.run in t.commits
    {
      if o !in s.tables.observations {
        ObservedRun(s.tables, ContextOf(run, s.runs[run].payload, OutcomeOf(s, run).scope, step.at),
          OutcomeOf(s, run).rows, o);
      }
    }
  }

  lemma {:induction false} ObservedRun(l: Tables, ctx: RunContext, rows: seq<Row>, o: Observation)
    requires o in Observations(l, ctx, rows)
    ensures o.run == ctx.run
  {
  }

  /** Nothing but the findings and the settings differs. */
  predicate SameProtocol(s: System.State, t: System.State) {
    && t.runs == s.runs && t.workers == s.workers && t.receipts == s.receipts && t.snapshots == s.snapshots
    && t.commits == s.commits && t.files == s.files && t.tables.observations == s.tables.observations
  }

  lemma {:induction false} ProtocolLocks(s: System.State, t: System.State)
    requires SameProtocol(s, t) && WorkersOk(s) && Exclusive(s) && ReceiptsOk(s)
    ensures WorkersOk(t) && Exclusive(t) && ReceiptsOk(t)
  {
  }

  lemma {:induction false} ProtocolCommits(s: System.State, t: System.State)
    requires SameProtocol(s, t) && Settled(s) && TiedOut(s) && Stored(s)
    ensures Settled(t) && TiedOut(t) && Stored(t)
  {
    hide TiesOut, NoRepeats, Pending, RefOf;
  }

  lemma {:induction false} ConfigureKeeps(s: System.State, step: Step, t: System.State)
    requires Inv(s) && Next(s, step, t) && step.Configure?
    ensures Inv(t)
  {
    hide TablesOk, VersionsAccepted, Addressed, WorkersOk, Exclusive, ReceiptsOk, Settled, TiedOut, Stored,
         System.Grows;
    ProtocolLocks(s, t);
    ProtocolCommits(s, t);
  }

  lemma {:induction false} HumanKeeps(s: System.State, step: Step, t: System.State)
    requires Inv(s) && Next(s, step, t) && step.Human?
    ensures Inv(t)
  {
    hide TablesOk, VersionsAccepted, Addressed, WorkersOk, Exclusive, ReceiptsOk, Settled, TiedOut, Stored,
         FindingLaws.Commits;
    CommitKeepsOk(s.tables, step.op, t.tables);
    HumanObserves(s.tables, step.op, t.tables);
    ProtocolLocks(s, t);
    ProtocolCommits(s, t);
  }

  /** A transaction by a person adds no observation. */
  lemma {:induction false} HumanObserves(l: Tables, op: Op, m: Tables)
    requires FindingLaws.Commits(l, op, m) && !op.Run?
    ensures m.observations == l.observations
  {
    hide CommitsTo;
  }

  /** Every step of every worker and every person keeps the invariant. */
  lemma {:induction false} StepKeeps(s: System.State, step: Step, t: System.State)
    requires Inv(s) && Next(s, step, t)
    ensures Inv(t)
  {
    hide Inv, CommitNext, WorkerNext, SubmitAfter;
    match step {
      case Submit(p, receipt, id, now) => SubmitKeeps(s, p, receipt, id, now);
      case Configure(_, _, _, _) => ConfigureKeeps(s, step, t);
      case Human(_) => HumanKeeps(s, step, t);
      case Commit(_, _, _) => CommitKeeps(s, step, t);
      case _ => WorkerStepKeeps(s, step, t);
    }
  }
}
