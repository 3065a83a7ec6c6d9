/**
 Workers, runs and the tables they share, as one transition system.  Every
 database transaction is one step; a worker's main transaction is open from
 `TryLock` to `Commit` and takes effect at `Commit`.  A source is locked while
 some worker's main transaction on one of its runs is open.
 */
module System {
  import opened Common
  import opened Identity
  import opened ReviewCase
  import opened Populations
  import opened Rules
  import opened Candidates
  import opened Ledger
  import opened FindingLaws
  import opened Analysis
  import opened AnalysisLaws
  import opened SnapshotStore

  datatype Status = Queued | Running | Completed | Stopped(halt: Halt)

  datatype RunRow = RunRow(payload: Payload, created: int, receipt: Option<string>, status: Status, stage: string,
                           exceptions: nat)

  /** Where a worker is in `ProcessNext`. */
  datatype Worker =
    | Idle
    | Picked(run: nat)
    | Locked(run: nat)
    | Working(run: nat, entered: nat, written: bool)
    | Recording(run: nat, halt: Halt)

  datatype State = State(tables: Tables, runs: map<nat, RunRow>, receipts: map<string, nat>,
                         periods: map<string, Period>, watermarks: map<string, Option<nat>>,
                         params: Parameters, paramsHash: Digest, manifest: map<string, Digest>, versions: Versions,
                         snapshots: map<nat, Ref>, stages: seq<(nat, string)>, files: Files,
                         workers: map<nat, Worker>, commits: seq<nat>)

  const TENANT := "tenant"

  predicate Pending(r: RunRow) {
    r.status == Queued || r.status == Running
  }

  predicate Holds(w: Worker) {
    w.Locked? || w.Working?
  }

  function WorkerOf(s: State, w: nat): Worker {
    if w in s.workers then s.workers[w] else Idle
  }

  function SourceOf(s: State, run: nat): string
    requires run in s.runs
  {
    s.runs[run].payload.population.source
  }

  /** The oldest pending run; the run id breaks ties. */
  predicate IsNext(s: State, run: nat) {
    && run in s.runs && Pending(s.runs[run])
    && forall r :: r in s.runs && Pending(s.runs[r]) ==>
         s.runs[run].created < s.runs[r].created || (s.runs[run].created == s.runs[r].created && run <= r)
  }

  /** No other worker's open transaction holds the source of the run. */
  predicate Free(s: State, w: nat, run: nat)
    requires run in s.runs
  {
    forall v :: v in s.workers && v != w && Holds(s.workers[v]) && s.workers[v].run in s.runs ==>
      SourceOf(s, s.workers[v].run) != SourceOf(s, run)
  }

  // ----- submission -----

  function SubmitResult(s: State, p: Population, receipt: Option<string>, id: nat): Result<nat, ReviewCase.Error> {
    if receipt.Some? && |receipt.value| != 64 then Err(Invalid)
    else if !Populations.Valid(p) then Err(Invalid)
    else if receipt.Some? && receipt.value in s.receipts then Ok(s.receipts[receipt.value])
    else if p.source !in s.watermarks then Err(NotFound)
    else if p.period.id in s.periods && s.periods[p.period.id] != p.period then Err(Conflict)
    else if s.manifest == map[] then Err(Invalid)
    else Ok(id)
  }

  /** Freezes the population, the parameters and the manifest into a new queued run. */
  function Enqueued(s: State, p: Population, receipt: Option<string>, id: nat, now: int): State {
    s.(runs := s.runs[id := RunRow(Payload(p, s.params, s.paramsHash, s.manifest), now, receipt, Queued, "queued", 0)],
       periods := s.periods[p.period.id := p.period],
       receipts := if receipt.Some? then s.receipts[receipt.value := id] else s.receipts)
  }

  function SubmitAfter(s: State, p: Population, receipt: Option<string>, id: nat, now: int): State {
    if SubmitResult(s, p, receipt, id).Err? || (receipt.Some? && receipt.value in s.receipts) then s
    else Enqueued(s, p, receipt, id, now)
  }

  // ----- steps -----

  datatype Step =
    | Submit(population: Population, receipt: Option<string>, id: nat, now: int)
    | Configure(params: Parameters, hash: Digest, manifest: map<string, Digest>, versions: Versions)
    | Human(op: Op)
    | Pick(worker: nat, run: nat)
    | TryLock(worker: nat)
    | Check(worker: nat)
    | Enter(worker: nat)
    | Write(worker: nat)
    | Halting(worker: nat, reason: Halt)
    | Commit(worker: nat, at: int, acknowledged: bool)
    | Record(worker: nat)
    | Crash(worker: nat)

  function Move(s: State, w: nat, state: Worker): State {
    s.(workers := s.workers[w := state])
  }

  ghost function OutcomeOf(s: State, run: nat): Outcome
    requires run in s.runs
  {
    Analyse(s.runs[run].payload, s.versions)
  }

  /** The run's error lets it enter no further stage. */
  ghost predicate StopsAt(s: State, run: nat, entered: nat)
    requires run in s.runs
  {
    OutcomeOf(s, run).Halted? && OutcomeOf(s, run).stage <= entered
  }

  function Entered(s: State, w: nat): State
    requires WorkerOf(s, w).Working? && WorkerOf(s, w).run in s.runs && WorkerOf(s, w).entered < |STAGES|
  {
    var x := WorkerOf(s, w);
    var stage := STAGES[x.entered];
    Move(s, w, Working(x.run, x.entered + 1, x.written))
      .(runs := s.runs[x.run := s.runs[x.run].(status := Running, stage := stage)],
        stages := s.stages + [(x.run, stage)])
  }

  function Written(s: State, w: nat): State
    requires WorkerOf(s, w).Working? && WorkerOf(s, w).run in s.runs
  {
    var x := WorkerOf(s, w);
    var records := s.runs[x.run].payload.population.records;
    Move(s, w, Working(x.run, x.entered, true))
      .(files := Link(s.files, RefOf(TENANT, x.run, records), Encoded(records)))
  }

  /** The failure record is written whatever the status of the run is by then. */
  function Recorded(s: State, w: nat): State
    requires WorkerOf(s, w).Recording? && WorkerOf(s, w).run in s.runs
  {
    var x := WorkerOf(s, w);
    Move(s, w, Idle).(runs := s.runs[x.run := s.runs[x.run].(status := Stopped(x.halt))])
  }

  /** Everything the main transaction writes beside the findings. */
  function Committed(s: State, w: nat, tables: Tables, rows: nat, acknowledged: bool): State
    requires WorkerOf(s, w).Working? && WorkerOf(s, w).run in s.runs
  {
    var run := WorkerOf(s, w).run;
    var payload := s.runs[run].payload;
    Move(s, w, if acknowledged then Idle else Recording(run, Failed))
      .(tables := tables,
        runs := s.runs[run := s.runs[run].(status := Completed, stage := "completed", exceptions := rows)],
        watermarks := s.watermarks[payload.population.source := Some(run)],
        snapshots := s.snapshots[run := RefOf(TENANT, run, payload.population.records)],
        stages := s.stages + [(run, "completed")],
        commits := s.commits + [run])
  }

  ghost predicate Commits(s: State, w: nat, at: int, acknowledged: bool, t: State)
    requires WorkerOf(s, w).Working? && WorkerOf(s, w).run in s.runs
  {
    var run := WorkerOf(s, w).run;
    && OutcomeOf(s, run).Ready?
    && run !in s.snapshots
    && (forall o :: o in s.tables.observations ==> o.run != run)
    && t == Committed(s, w, t.tables, |OutcomeOf(s, run).rows|, acknowledged)
    && Reconciled(s.tables, t.tables, ContextOf(run, s.runs[run].payload, OutcomeOf(s, run).scope, at),
       OutcomeOf(s, run).rows)
  }

  predicate Grows<K, V(==)>(a: map<K, V>, b: map<K, V>) {
    forall k :: k in a ==> k in b && a[k] == b[k]
  }

  predicate WorkerStep(step: Step) {
    step.Pick? || step.TryLock? || step.Check? || step.Enter? || step.Write? || step.Halting? || step.Record?
      || step.Crash?
  }

  /** One step of a worker that does not commit. */
  ghost predicate WorkerNext(s: State, step: Step, t: State)
    requires WorkerStep(step)
  {
    var w := step.worker;
    var x := WorkerOf(s, w);
    if step.Crash? then t == Move(s, w, Idle)
    else if step.Pick? then x.Idle? && IsNext(s, step.run) && t == Move(s, w, Picked(step.run))
    else
      && !x.Idle? && x.run in s.runs
      && match step
         case TryLock(_) => x.Picked? && t == Move(s, w, if Free(s, w, x.run) then Locked(x.run) else Idle)
         case Check(_) => x.Locked?
           && t == Move(s, w, if Pending(s.runs[x.run]) then Working(x.run, 0, false) else Idle)
         case Enter(_) =>
           x.Working? && x.entered < |STAGES| && (x.entered == 3 ==> x.written)
           && !StopsAt(s, x.run, x.entered) && t == Entered(s, w)
         case Write(_) => x.Working? && x.entered == 3 && !x.written && t == Written(s, w)
         case Halting(_, reason) =>
           x.Working? && (reason == Failed || OutcomeOf(s, x.run) == Halted(reason, x.entered))
           && t == Move(s, w, Recording(x.run, reason))
         case _ =>
           x.Recording?
           && t == Recorded(s, w)
  }

  ghost predicate CommitNext(s: State, step: Step, t: State)
    requires step.Commit?
  {
    var x := WorkerOf(s, step.worker);
    x.Working? && x.run in s.runs && x.entered == |STAGES| && x.written
    && Commits(s, step.worker, step.at, step.acknowledged, t)
  }

  ghost predicate Next(s: State, step: Step, t: State) {
    match step
    case Submit(p, receipt, id, now) => id !in s.runs && t == SubmitAfter(s, p, receipt, id, now)
    case Configure(params, hash, manifest, versions) =>
      && Grows(s.versions, versions) && VersionsAccepted(versions)
      && t == s.(params := params, paramsHash := hash, manifest := manifest, versions := versions)
    case Human(op) => !op.Run? && FindingLaws.Commits(s.tables, op, t.tables) && t == s.(tables := t.tables)
    case Commit(_, _, _) => CommitNext(s, step, t)
    case _ => WorkerNext(s, step, t)
  }

  /**
   Fresh tables, some sources without a completed run, settings whose rule
   versions passed the guard, and no workers.
   */
  predicate Initial(s: State) {
    && s.tables == EMPTY && s.runs == map[] && s.receipts == map[] && s.periods == map[] && s.snapshots == map[]
    && s.stages == [] && s.files == map[] && s.workers == map[] && s.commits == []
    && (forall x :: x in s.watermarks ==> s.watermarks[x].None?)
    && VersionsAccepted(s.versions)
  }
}
