/**
 The tables of runs, receipts, periods, snapshots and stages of one tenant, and
 the transactions of the run protocol on them, updated in place
 (internal/storage/pipeline.go, internal/storage/runs.go).
 */
module RunTables {
  import opened Common
  import opened Identity
  import opened Populations
  import opened Rules
  import opened Candidates
  import opened Ledger
  import opened FindingLaws
  import opened TenantStore
  import opened Analysis
  import opened AnalysisLaws
  import opened SnapshotStore
  import opened System

  class Database {
    const tenant: Tenant
    const store: Store
    var runs: map<nat, RunRow>
    var receipts: map<string, nat>
    var periods: map<string, Period>
    var watermarks: map<string, Option<nat>>
    var params: Parameters
    var paramsHash: Digest
    var manifest: map<string, Digest>
    var versions: Versions
    var snapshots: map<nat, Ref>
    var stages: seq<(nat, string)>
    /** Which transactions are open, and so which sources are locked. */
    var workers: map<nat, Worker>
    ghost var commits: seq<nat>

    ghost function State(): System.State
      reads this, tenant, store
    {
      System.State(tenant.Rows(), runs, receipts, periods, watermarks, params, paramsHash, manifest, versions,
                   snapshots, stages, store.files, workers, commits)
    }

    function Place(w: nat): Worker
      reads this
    {
      if w in workers then workers[w] else Idle
    }

    constructor (sources: set<string>, params: Parameters, hash: Digest, versions: Versions)
      requires VersionsAccepted(versions)
      ensures fresh(tenant) && fresh(store) && Initial(State())
      ensures watermarks.Keys == sources && this.versions == versions && this.params == params && paramsHash == hash
    {
      hide VersionsAccepted;
      var t := new Tenant();
      var s := new Store();
      tenant, store := t, s;
      runs, receipts, periods, snapshots, stages, workers, commits := map[], map[], map[], map[], [], map[], [];
      watermarks := map x | x in sources :: None;
      this.params, paramsHash, manifest, this.versions := params, hash, map[], versions;
    }

    // ----- submission -----

    /** Freezes the population, the parameters and the manifest into a new queued run. */
    method Enqueue(p: Population, receipt: Option<string>, id: nat, now: int)
      modifies `periods, `runs, `receipts
      ensures periods == old(periods)[p.period.id := p.period]
      ensures runs == old(runs)[id :=
        RunRow(Payload(p, params, paramsHash, manifest), now, receipt, Queued, "queued", 0)]
      ensures receipts == if receipt.Some? then old(receipts)[receipt.value := id] else old(receipts)
    {
      periods := periods[p.period.id := p.period];
      runs := runs[id := RunRow(Payload(p, params, paramsHash, manifest), now, receipt, Queued, "queued", 0)];
      if receipt.Some? {
        receipts := receipts[receipt.value := id];
      }
    }

    /** Answers a landed file's receipt with its one run, or submits a new run. */
    method Submit(p: Population, receipt: Option<string>, id: nat, now: int) returns (r: Result<nat, ReviewCase.Error>)
      modifies `periods, `runs, `receipts
      ensures r == SubmitResult(old(State()), p, receipt, id)
      ensures State() == SubmitAfter(old(State()), p, receipt, id, now)
    {
      hide Populations.Valid;
      r := Err(ReviewCase.Invalid);
      if receipt.Some? && |receipt.value| != 64 {
        return;
      }
      var valid := Populations.Validate(p);
      if !valid {
        return;
      }
      if receipt.Some? && receipt.value in receipts {
        return Ok(receipts[receipt.value]);
      }
      if p.source !in watermarks {
        return Err(ReviewCase.NotFound);
      }
      if p.period.id in periods && periods[p.period.id] != p.period {
        return Err(ReviewCase.Conflict);
      }
      if manifest == map[] {
        return;
      }
      Enqueue(p, receipt, id, now);
      r := Ok(id);
    }

    method Configure(params: Parameters, hash: Digest, manifest: map<string, Digest>, versions: Versions)
      modifies `params, `paramsHash, `manifest, `versions
      ensures State() == old(State()).(params := params, paramsHash := hash, manifest := manifest, versions := versions)
    {
      this.params, paramsHash, this.manifest, this.versions := params, hash, manifest, versions;
    }

    // ----- a worker's transactions -----

    /** The oldest pending run. */
    method NextPending() returns (run: Option<nat>)
      ensures run.Some? ==> IsNext(State(), run.value)
      ensures run.None? ==> forall r :: r in runs ==> !Pending(runs[r])
    {
      hide Pending;
      run := None;
      var left := runs.Keys;
      while left != {}
        invariant left <= runs.Keys
        invariant run.Some? ==> run.value in runs && Pending(runs[run.value])
        invariant run.Some? ==> forall r :: r in runs && r !in left && Pending(runs[r]) ==>
          runs[run.value].created < runs[r].created || (runs[run.value].created == runs[r].created && run.value <= r)
        invariant run.None? ==> forall r :: r in runs && r !in left ==> !Pending(runs[r])
      {
        var r :| r in left;
        if Pending(runs[r]) && (run.None? || runs[r].created < runs[run.value].created
                                || (runs[r].created == runs[run.value].created && r < run.value)) {
          run := Some(r);
        }
        left := left - {r};
      }
    }

    method Pick(w: nat, run: nat)
      modifies `workers
      ensures State() == Move(old(State()), w, Picked(run))
    {
      workers := workers[w := Picked(run)];
    }

    /** Takes the lock of the run's source, unless another open transaction has it. */
    method TryLock(w: nat)
      requires Place(w).Picked? && Place(w).run in runs
      modifies `workers
      ensures State() ==
        Move(old(State()), w,
             if System.Free(old(State()), w, old(Place(w)).run) then Locked(old(Place(w)).run) else Idle)
    {
      var run := workers[w].run;
      var free := forall v :: v in workers && v != w && Holds(workers[v]) && workers[v].run in runs ==>
        runs[workers[v].run].payload.population.source != runs[run].payload.population.source;
      assert free <==> System.Free(State(), w, run);
      workers := workers[w := if free then Locked(run) else Idle];
    }

    /** Reads the run again under the lock; another worker may have finished it. */
    method Check(w: nat)
      requires Place(w).Locked? && Place(w).run in runs
      modifies `workers
      ensures State() ==
        Move(old(State()), w, if Pending(runs[old(Place(w)).run]) then Working(old(Place(w)).run, 0, false) else Idle)
    {
      hide Pending;
      var run := workers[w].run;
      workers := workers[w := if Pending(runs[run]) then Working(run, 0, false) else Idle];
    }

    /** `progress`: a transaction of its own. */
    method Progress(w: nat)
      requires Place(w).Working? && Place(w).run in runs && Place(w).entered < |STAGES|
      modifies `workers, `runs, `stages
      ensures State() == Entered(old(State()), w)
    {
      hide STAGES;
      var x := workers[w];
      var stage := STAGES[x.entered];
      runs := runs[x.run := runs[x.run].(status := Running, stage := stage)];
      stages := stages + [(x.run, stage)];
      workers := workers[w := Working(x.run, x.entered + 1, x.written)];
    }

    /** Writes the snapshot, or finds the one an earlier attempt wrote. */
    method Snapshot(w: nat)
      requires Place(w).Working? && Place(w).run in runs
      modifies store, `workers
      ensures State() == Written(old(State()), w)
    {
      var x := workers[w];
      var ref := store.WriteSnapshot(TENANT, x.run, runs[x.run].payload.population.records, None);
      workers := workers[w := Working(x.run, x.entered, true)];
    }

    /** The main transaction rolls back, and with it goes the lock. */
    method Halt(w: nat, reason: Halt)
      requires Place(w).Working?
      modifies `workers
      ensures State() == Move(old(State()), w, Recording(old(Place(w)).run, reason))
    {
      workers := workers[w := Recording(workers[w].run, reason)];
    }

    /** Records the failure, whatever the status of the run is by then. */
    method Record(w: nat)
      requires Place(w).Recording? && Place(w).run in runs
      modifies `workers, `runs
      ensures State() == Recorded(old(State()), w)
    {
      var x := workers[w];
      runs := runs[x.run := runs[x.run].(status := Stopped(x.halt))];
      workers := workers[w := Idle];
    }

    /** A lost worker takes its open transaction and its lock with it. */
    method Crash(w: nat)
      modifies `workers
      ensures State() == Move(old(State()), w, Idle)
    {
      workers := workers[w := Idle];
    }

    method RecordSnapshot(w: nat)
      requires Place(w).Working? && Place(w).run in runs
      modifies `watermarks, `snapshots
      ensures var run := Place(w).run; var p := runs[run].payload.population;
        State() == old(State()).(watermarks := old(watermarks)[p.source := Some(run)],
                                 snapshots := old(snapshots)[run := RefOf(TENANT, run, p.records)])
    {
      var run := workers[w].run;
      var population := runs[run].payload.population;
      watermarks := watermarks[population.source := Some(run)];
      snapshots := snapshots[run := RefOf(TENANT, run, population.records)];
    }

    method RecordCompletion(w: nat, exceptions: nat)
      requires Place(w).Working? && Place(w).run in runs
      modifies `stages, `runs
      ensures var run := Place(w).run; var row := old(runs)[run];
        State() == old(State()).(runs :=
          old(runs)[run := row.(status := Completed, stage := "completed", exceptions := exceptions)],
                                 stages := old(stages) + [(run, "completed")])
    {
      var run := workers[w].run;
      stages := stages + [(run, "completed")];
      runs := runs[run := runs[run].(status := Completed, stage := "completed", exceptions := exceptions)];
    }

    /** What the main transaction writes beside the findings. */
    method Complete(w: nat, exceptions: nat, acknowledged: bool)
      requires Place(w).Working? && Place(w).run in runs
      modifies `watermarks, `snapshots, `stages, `runs, `workers, `commits
      ensures State() == Committed(old(State()), w, tenant.Rows(), exceptions, acknowledged)
    {
      hide RefOf;
      var run := workers[w].run;
      RecordSnapshot(w);
      RecordCompletion(w, exceptions);
      workers := workers[w := if acknowledged then Idle else Recording(run, Failed)];
      commits := commits + [run];
    }

    /** Reconciles the flagged rows, records the completion, and commits. */
    method Commit(w: nat, scope: map<string, Digest>, rows: seq<Row>, at: int, acknowledged: bool)
      requires Place(w).Working? && Place(w).run in runs
      requires Unseen(State().tables.observations, ContextOf(Place(w).run, runs[Place(w).run].payload, scope, at), rows)
      modifies this, tenant
      ensures Ledger.Reconciled(old(State()).tables, State().tables,
                                ContextOf(old(Place(w)).run, old(runs[Place(w).run]).payload, scope, at), rows)
      ensures State() == Committed(old(State()), w, State().tables, |rows|, acknowledged)
    {
      hide Ledger.Reconciled, Unseen, Committed, ValidRows;
      ghost var s := State();
      var run := workers[w].run;
      var error := tenant.ReconcileRun(ContextOf(run, runs[run].payload, scope, at), rows);
      CommittedFrom(s, w, tenant.Rows(), |rows|, acknowledged);
      Complete(w, |rows|, acknowledged);
    }
  }

  lemma {:induction false} CommittedFrom(s: System.State, w: nat, tables: Tables, rows: nat, acknowledged: bool)
    requires WorkerOf(s, w).Working? && WorkerOf(s, w).run in s.runs
    ensures Committed(s.(tables := tables), w, tables, rows, acknowledged) ==
      Committed(s, w, tables, rows, acknowledged)
    ensures Committed(s, w, tables, rows, acknowledged).tables == tables
  {
  }
}
