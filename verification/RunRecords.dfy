/** What the tables of watermarks, counts and stages say of the committed runs, over every execution. */
module RunRecords {
  import opened Common
  import opened Populations
  import opened Candidates
  import opened Ledger
  import opened FindingLaws
  import opened Analysis
  import opened AnalysisLaws
  import opened SnapshotStore
  import opened System
  import opened SystemLaws
  import opened Executions

  // ----- watermarks -----

  predicate CommittedFor(s: System.State, k: int, source: string) {
    0 <= k < |s.commits| && s.commits[k] in s.runs && SourceOf(s, s.commits[k]) == source
  }

  /** The run committed last of all the runs of the source. */
  predicate LastOf(s: System.State, k: int, source: string, run: nat) {
    CommittedFor(s, k, source) && s.commits[k] == run && forall m :: k < m < |s.commits| ==> !CommittedFor(s, m, source)
  }

  ghost predicate WatermarkIsLast(s: System.State, source: string) {
    source in s.watermarks ==>
      match s.watermarks[source]
      case None => forall k :: 0 <= k < |s.commits| ==> !CommittedFor(s, k, source)
      case Some(run) => exists k :: LastOf(s, k, source, run)
  }

  predicate CommitsThere(s: System.State) {
    forall r :: r in s.commits ==> r in s.runs
  }

  lemma {:induction false} WatermarkStays(s: System.State, t: System.State, source: string)
    requires WatermarkIsLast(s, source) && t.watermarks == s.watermarks && t.commits == s.commits && CommitsThere(s)
    requires RunsKept(s, t)
    ensures WatermarkIsLast(t, source)
  {
    forall k
      ensures CommittedFor(t, k, source) <==> CommittedFor(s, k, source)
    {
      if 0 <= k < |s.commits| {
        assert s.commits[k] in s.runs;
      }
    }
    if source in s.watermarks && s.watermarks[source].Some? {
      var k :| LastOf(s, k, source, s.watermarks[source].value);
      assert LastOf(t, k, source, t.watermarks[source].value);
    }
  }

  lemma {:induction false} CommitWatermark(s: System.State, step: System.Step, t: System.State, source: string)
    requires step.Commit? && CommitNext(s, step, t) && CommitsThere(s) && WatermarkIsLast(s, source)
    ensures WatermarkIsLast(t, source)
  {
    hide OutcomeOf, Ledger.Reconciled, RefOf, STAGES, ContextOf;
    var run, n := WorkerOf(s, step.worker).run, |s.commits|;
    forall k | 0 <= k < n
      ensures CommittedFor(t, k, source) <==> CommittedFor(s, k, source)
    {
      assert s.commits[k] in s.runs;
    }
    assert t.commits[n] == run;
    if SourceOf(s, run) == source {
      assert LastOf(t, n, source, run);
    } else {
      assert !CommittedFor(t, n, source);
      if source in s.watermarks && s.watermarks[source].Some? {
        var k :| LastOf(s, k, source, s.watermarks[source].value);
        assert LastOf(t, k, source, t.watermarks[source].value);
      }
    }
  }

  predicate Quiet(s: System.State, t: System.State) {
    && t.watermarks == s.watermarks && t.commits == s.commits && t.tables.observations == s.tables.observations
    && RunsKept(s, t)
  }

  /** What the steps other than commits leave of the tables a commit writes. */
  lemma {:induction false} QuietSteps(s: System.State, step: System.Step, t: System.State)
    requires Next(s, step, t) && !step.Commit?
    ensures Quiet(s, t)
  {
    hide WorkerNext, FindingLaws.Commits, VersionsAccepted, System.Grows, SubmitResult, SamePayloads, Quiet;
    if WorkerStep(step) {
      FrameOf(s, step, t);
    } else {
      PersonIsQuiet(s, step, t);
    }
  }

  lemma {:induction false} PersonIsQuiet(s: System.State, step: System.Step, t: System.State)
    requires Next(s, step, t) && (step.Submit? || step.Configure? || step.Human?)
    ensures Quiet(s, t)
  {
    hide WorkerNext, CommitNext, FindingLaws.Commits, VersionsAccepted, System.Grows, SubmitAfter;
    if step.Human? {
      HumanObserves(s.tables, step.op, t.tables);
    } else if step.Submit? {
      SubmitIsQuiet(s, step.population, step.receipt, step.id, step.now);
    }
  }

  lemma {:induction false} SubmitIsQuiet(s: System.State, p: Population, receipt: Option<string>, id: nat, now: int)
    requires id !in s.runs
    ensures Quiet(s, SubmitAfter(s, p, receipt, id, now))
  {
    hide SubmitResult, Enqueued, Quiet;
    NothingIsQuiet(s);
    EnqueuedIsQuiet(s, p, receipt, id, now);
  }

  lemma {:induction false} NothingIsQuiet(s: System.State)
    ensures Quiet(s, s)
  {
  }

  lemma {:induction false} EnqueuedIsQuiet(s: System.State, p: Population, receipt: Option<string>, id: nat, now: int)
    requires id !in s.runs
    ensures Quiet(s, Enqueued(s, p, receipt, id, now))
  {
    assert Enqueued(s, p, receipt, id, now).tables == s.tables;
  }

  lemma {:induction false} FrameOf(s: System.State, step: System.Step, t: System.State)
    requires WorkerStep(step) && Next(s, step, t)
    ensures Quiet(s, t)
  {
    hide WorkerNext, Addressed;
    WorkerStepFrame(s, step, t);
  }

  lemma {:induction false} CommitsAreThere(s: System.State)
    requires Inv(s)
    ensures CommitsThere(s)
  {
    hide Stored, WorkersOk, Exclusive, ReceiptsOk, TiedOut, Addressed, VersionsAccepted, TablesOk;
  }

  lemma {:induction false} WatermarkNext(s: System.State, step: System.Step, t: System.State, source: string)
    requires Inv(s) && Next(s, step, t) && WatermarkIsLast(s, source)
    ensures WatermarkIsLast(t, source)
  {
    hide Next, CommitNext, Inv, WatermarkIsLast, CommitsThere, RunsKept;
    CommitsAreThere(s);
    if step.Commit? {
      AsCommit(s, step, t);
      CommitWatermark(s, step, t, source);
    } else {
      QuietSteps(s, step, t);
      WatermarkStays(s, t, source);
    }
  }

  /**
   In every execution the watermark of a source is its last committed run, and
   is empty exactly as long as none of its runs has committed.
   */
  lemma {:induction false} WatermarksAreLast(b: seq<System.State>, steps: seq<System.Step>, n: nat, source: string)
    requires Execution(b, steps) && n < |b|
    ensures WatermarkIsLast(b[n], source)
  {
    hide Next, Inv, Initial, WatermarkIsLast;
    if n == 0 {
      NoWatermark(b[0], source);
    } else {
      WatermarksAreLast(b, steps, n - 1, source);
      ReachableInv(b, steps, n - 1);
      assert TakesStep(b, steps, n - 1);
      WatermarkNext(b[n - 1], steps[n - 1], b[n], source);
    }
  }

  lemma {:induction false} AsCommit(s: System.State, step: System.Step, t: System.State)
    requires Next(s, step, t) && step.Commit?
    ensures CommitNext(s, step, t)
  {
    hide CommitNext;
  }

  lemma {:induction false} NoWatermark(s: System.State, source: string)
    requires Initial(s)
    ensures WatermarkIsLast(s, source)
  {
    hide VersionsAccepted;
  }

  // ----- exception counts -----

  function CountRun(observations: seq<Observation>, run: nat): nat {
    if observations == [] then 0
    else CountRun(observations[..|observations| - 1], run)
         + if observations[|observations| - 1].run == run then 1 else 0
  }

  lemma {:induction false} CountRunAppend(a: seq<Observation>, b: seq<Observation>, run: nat)
    ensures CountRun(a + b, run) == CountRun(a, run) + CountRun(b, run)
  {
    if b == [] {
      assert a + b == a;
    } else {
      CountRunAppend(a, b[..|b| - 1], run);
      assert (a + b)[..|a + b| - 1] == a + b[..|b| - 1];
    }
  }

  lemma {:induction false} CountRunAll(a: seq<Observation>, run: nat, other: nat)
    requires forall i :: 0 <= i < |a| ==> a[i].run == run
    ensures CountRun(a, other) == if other == run then |a| else 0
  {
    if a != [] {
      CountRunAll(a[..|a| - 1], run, other);
    }
  }

  /** The count of a run is the number of its observations. */
  predicate Counted(s: System.State, r: nat) {
    r in s.runs ==> s.runs[r].exceptions == CountRun(s.tables.observations, r)
  }

  lemma {:induction false} CommitCounts(s: System.State, step: System.Step, t: System.State, r: nat)
    requires step.Commit? && CommitNext(s, step, t) && Counted(s, r)
    requires CountRun(s.tables.observations, WorkerOf(s, step.worker).run) == 0
    ensures Counted(t, r)
  {
    hide OutcomeOf, RefOf, STAGES, ContextOf, Observed, At, KeyOf;
    var run := WorkerOf(s, step.worker).run;
    var ctx := ContextOf(run, s.runs[run].payload, OutcomeOf(s, run).scope, step.at);
    var more := Observations(s.tables, ctx, OutcomeOf(s, run).rows);
    CommitObserves(s, step, t);
    CountRunAppend(s.tables.observations, more, r);
    CountRunAll(more, run, r);
  }

  lemma {:induction false} CommitObserves(s: System.State, step: System.Step, t: System.State)
    requires step.Commit? && CommitNext(s, step, t)
    ensures var run := WorkerOf(s, step.worker).run;
      && run in s.runs && OutcomeOf(s, run).Ready?
      && var more := Observations(s.tables, ContextOf(run, s.runs[run].payload, OutcomeOf(s, run).scope, step.at),
           OutcomeOf(s, run).rows);
         && t.tables.observations == s.tables.observations + more && |more| == |OutcomeOf(s, run).rows|
         && forall i :: 0 <= i < |more| ==> more[i].run == run
  {
    hide Analyse, RefOf, STAGES, At, KeyOf, Verdict, Consumed;
  }

  lemma {:induction false} CountsStay(s: System.State, step: System.Step, t: System.State)
    requires Next(s, step, t) && !step.Commit?
    ensures forall r :: r in t.runs ==> t.runs[r].exceptions == if r in s.runs then s.runs[r].exceptions else 0
  {
    hide OutcomeOf, FindingLaws.Commits, VersionsAccepted, System.Grows, SubmitResult, RefOf, STAGES, IsNext,
         System.Free, Pending;
  }

  lemma {:induction false} CountedStays(s: System.State, step: System.Step, t: System.State, r: nat)
    requires Next(s, step, t) && !step.Commit? && Counted(s, r)
    requires r !in s.runs ==> CountRun(s.tables.observations, r) == 0
    ensures Counted(t, r)
  {
    hide Next, CountRun, RunsKept;
    QuietSteps(s, step, t);
    CountsStay(s, step, t);
  }

  lemma {:induction false} NothingCounted(observations: seq<Observation>, r: nat)
    requires forall i :: 0 <= i < |observations| ==> observations[i].run != r
    ensures CountRun(observations, r) == 0
  {
    if observations != [] {
      NothingCounted(observations[..|observations| - 1], r);
    }
  }

  lemma {:induction false} UncommittedUncounted(s: System.State, r: nat)
    requires Inv(s) && r !in s.commits
    ensures CountRun(s.tables.observations, r) == 0
  {
    hide Stored, WorkersOk, Exclusive, ReceiptsOk, TiedOut, Addressed, VersionsAccepted, TablesOk;
    NothingCounted(s.tables.observations, r);
  }

  lemma {:induction false} CommittingUncounted(s: System.State, step: System.Step, t: System.State)
    requires Inv(s) && step.Commit? && CommitNext(s, step, t)
    ensures CountRun(s.tables.observations, WorkerOf(s, step.worker).run) == 0
  {
    hide Inv, CommitNext, CountRun, OutcomeOf, FindingLaws.Commits;
    CommitStep(s, step, t);
    UncommittedUncounted(s, WorkerOf(s, step.worker).run);
  }

  lemma {:induction false} CountedNext(s: System.State, step: System.Step, t: System.State, r: nat)
    requires Inv(s) && Next(s, step, t) && Counted(s, r)
    ensures Counted(t, r)
  {
    hide Next, CommitNext, Inv, Counted, CountRun, CommitsThere;
    if step.Commit? {
      AsCommit(s, step, t);
      CommittingUncounted(s, step, t);
      CommitCounts(s, step, t, r);
    } else {
      if r !in s.runs {
        CommitsAreThere(s);
        NotThere(s, r);
        UncommittedUncounted(s, r);
      }
      CountedStays(s, step, t, r);
    }
  }

  /**
   In every execution the exception count of a run is the number of its
   observations: none before it commits, and its flagged findings after.
   */
  lemma {:induction false} ExceptionsAreCounted(b: seq<System.State>, steps: seq<System.Step>, n: nat, r: nat)
    requires Execution(b, steps) && n < |b|
    ensures Counted(b[n], r)
  {
    hide Next, Inv, Counted, Initial;
    if n == 0 {
      NoRunYet(b[0], r);
    } else {
      ExceptionsAreCounted(b, steps, n - 1, r);
      ReachableInv(b, steps, n - 1);
      assert TakesStep(b, steps, n - 1);
      CountedNext(b[n - 1], steps[n - 1], b[n], r);
    }
  }

  lemma {:induction false} NotThere(s: System.State, r: nat)
    requires CommitsThere(s) && r !in s.runs
    ensures r !in s.commits
  {
  }

  lemma {:induction false} NoRunYet(s: System.State, r: nat)
    requires Initial(s)
    ensures Counted(s, r)
  {
    hide VersionsAccepted;
  }

  // ----- stages -----

  function StagesOf(stages: seq<(nat, string)>, run: nat): seq<string> {
    if stages == [] then []
    else StagesOf(stages[..|stages| - 1], run)
         + (if stages[|stages| - 1].0 == run then [stages[|stages| - 1].1] else [])
  }

  lemma {:induction false} StagesNext(stages: seq<(nat, string)>, run: nat, stage: string, r: nat)
    ensures StagesOf(stages + [(run, stage)], r) == StagesOf(stages, r) + (if run == r then [stage] else [])
  {
    assert (stages + [(run, stage)])[..|stages|] == stages;
  }

  predicate EndsWith(h: seq<string>, end: seq<string>) {
    |end| <= |h| && h[|h| - |end|..] == end
  }

  lemma {:induction false} EndsLonger(h: seq<string>, end: seq<string>, x: string)
    requires EndsWith(h, end)
    ensures EndsWith(h + [x], end + [x])
  {
    assert (h + [x])[|h| - |end|..] == h[|h| - |end|..] + [x];
  }

  const COMPLETE := STAGES + ["completed"]

  /** A worker has entered its stages in order, last of all on its run; a committed run ends with all of them. */
  ghost predicate InOrder(s: System.State, r: nat) {
    && (r in s.commits ==> EndsWith(StagesOf(s.stages, r), COMPLETE))
    && (forall w :: w in s.workers && s.workers[w].Working? && s.workers[w].run == r ==>
          s.workers[w].entered <= |STAGES| && EndsWith(StagesOf(s.stages, r), STAGES[..s.workers[w].entered]))
  }

  lemma {:induction false} NothingEntered(h: seq<string>)
    ensures EndsWith(h, STAGES[..0])
  {
    hide STAGES;
    assert STAGES[..0] == [];
  }

  /** While a worker is in its main transaction, nobody else is in one on the same run. */
  lemma {:induction false} OnlyOneWorks(s: System.State, w: nat, r: nat)
    requires WorkersOk(s) && Exclusive(s) && w in s.workers && s.workers[w].Working? && s.workers[w].run == r
    ensures forall v :: v in s.workers && v != w && s.workers[v].Working? ==> s.workers[v].run != r
  {
  }

  lemma {:induction false} EnterInOrder(s: System.State, step: System.Step, t: System.State, r: nat)
    requires step.Enter? && Next(s, step, t) && InOrder(s, r) && WorkersOk(s) && Exclusive(s) && Settled(s)
    ensures InOrder(t, r)
  {
    hide OutcomeOf, STAGES, COMPLETE, StagesOf, EndsWith, NoRepeats, Pending;
    var w := step.worker;
    var x := WorkerOf(s, w);
    StagesNext(s.stages, x.run, STAGES[x.entered], r);
    assert StagesOf(s.stages, r) + [] == StagesOf(s.stages, r);
    if x.run == r {
      EndsLonger(StagesOf(s.stages, r), STAGES[..x.entered], STAGES[x.entered]);
      assert STAGES[..x.entered + 1] == STAGES[..x.entered] + [STAGES[x.entered]];
      OnlyOneWorks(s, w, r);
    }
  }

  lemma {:induction false} CommitInOrder(s: System.State, step: System.Step, t: System.State, r: nat)
    requires step.Commit? && CommitNext(s, step, t) && InOrder(s, r) && WorkersOk(s) && Exclusive(s) && Settled(s)
    ensures InOrder(t, r)
  {
    hide OutcomeOf, Ledger.Reconciled, RefOf, STAGES, ContextOf, StagesOf, EndsWith, NoRepeats, Pending;
    var w := step.worker;
    var x := WorkerOf(s, w);
    StagesNext(s.stages, x.run, "completed", r);
    assert StagesOf(s.stages, r) + [] == StagesOf(s.stages, r);
    if x.run == r {
      assert STAGES[..x.entered] == STAGES;
      EndsLonger(StagesOf(s.stages, r), STAGES, "completed");
      OnlyOneWorks(s, w, r);
    }
  }

  /** The other steps enter no stage, and a worker that starts has entered none. */
  lemma {:induction false} OtherInOrder(s: System.State, step: System.Step, t: System.State, r: nat)
    requires Next(s, step, t) && !step.Enter? && !step.Commit? && InOrder(s, r)
    ensures InOrder(t, r)
  {
    hide OutcomeOf, STAGES, COMPLETE, StagesOf, EndsWith, Pending, IsNext, System.Free, SubmitResult,
         FindingLaws.Commits, VersionsAccepted, System.Grows, RefOf;
    NothingEntered(StagesOf(s.stages, r));
  }

  lemma {:induction false} InOrderNext(s: System.State, step: System.Step, t: System.State, r: nat)
    requires Inv(s) && Next(s, step, t) && InOrder(s, r)
    ensures InOrder(t, r)
  {
    hide Next, CommitNext, Inv, InOrder, WorkersOk, Exclusive, Settled;
    InvParts(s);
    if step.Commit? {
      AsCommit(s, step, t);
      CommitInOrder(s, step, t, r);
    } else if step.Enter? {
      EnterInOrder(s, step, t, r);
    } else {
      OtherInOrder(s, step, t, r);
    }
  }

  lemma {:induction false} AlwaysInOrder(b: seq<System.State>, steps: seq<System.Step>, n: nat, r: nat)
    requires Execution(b, steps) && n < |b|
    ensures InOrder(b[n], r)
  {
    hide Next, Inv, InOrder, Initial;
    if n == 0 {
      NobodyWorks(b[0], r);
    } else {
      AlwaysInOrder(b, steps, n - 1, r);
      ReachableInv(b, steps, n - 1);
      assert TakesStep(b, steps, n - 1);
      InOrderNext(b[n - 1], steps[n - 1], b[n], r);
    }
  }

  lemma {:induction false} NobodyWorks(s: System.State, r: nat)
    requires Initial(s)
    ensures InOrder(s, r)
  {
    hide VersionsAccepted;
  }

  /**
   In every execution the stage history of a committed run ends with all the
   stages in their order, whatever its earlier attempts left, and nothing comes
   after its completion.
   */
  lemma {:induction false} StagesInOrder(b: seq<System.State>, steps: seq<System.Step>, n: nat, r: nat)
    requires Execution(b, steps) && n < |b| && r in b[n].commits
    ensures EndsWith(StagesOf(b[n].stages, r),
      ["extract", "tie_out", "snapshot", "transform", "analyse", "score", "reconcile", "completed"])
  {
    hide Execution, EndsWith, StagesOf;
    AlwaysInOrder(b, steps, n, r);
    assert COMPLETE == ["extract", "tie_out", "snapshot", "transform", "analyse", "score", "reconcile", "completed"];
  }

  // ----- what a row shows -----

  /** The stage a run shows, by its history. */
  function Shown(h: seq<string>): string {
    if h == [] then "queued" else h[|h| - 1]
  }

  /** A run shows its latest stage; it is queued before its first one, and runs only after it. */
  predicate Shows(s: System.State, r: nat) {
    if r !in s.runs then StagesOf(s.stages, r) == []
    else
      && s.runs[r].stage == Shown(StagesOf(s.stages, r))
      && (s.runs[r].status.Queued? ==> StagesOf(s.stages, r) == [])
      && (s.runs[r].status.Running? ==> StagesOf(s.stages, r) != [])
  }

  /** A stage entry writes the row and the history alike. */
  lemma {:induction false} EntryShows(s: System.State, t: System.State, run: nat, stage: string, r: nat)
    requires Shows(s, r) && run in s.runs && t.stages == s.stages + [(run, stage)]
    requires run in t.runs && t.runs == s.runs[run := t.runs[run]]
    requires t.runs[run].stage == stage && !t.runs[run].status.Queued?
    ensures Shows(t, r)
  {
    hide StagesOf;
    StagesNext(s.stages, run, stage, r);
  }

  lemma {:induction false} EnterShows(s: System.State, step: System.Step, t: System.State, r: nat)
    requires step.Enter? && Next(s, step, t) && Shows(s, r)
    ensures Shows(t, r)
  {
    hide OutcomeOf, STAGES, Shows, StopsAt;
    var x := WorkerOf(s, step.worker);
    EntryShows(s, t, x.run, STAGES[x.entered], r);
  }

  lemma {:induction false} CommitShows(s: System.State, step: System.Step, t: System.State, r: nat)
    requires step.Commit? && CommitNext(s, step, t) && Shows(s, r)
    ensures Shows(t, r)
  {
    hide OutcomeOf, Ledger.Reconciled, RefOf, STAGES, ContextOf, Shows;
    EntryShows(s, t, WorkerOf(s, step.worker).run, "completed", r);
  }

  /** What the other steps leave of what a run shows: a new run is queued, a failure keeps the stage. */
  lemma {:induction false} OthersShow(s: System.State, step: System.Step, t: System.State, r: nat)
    requires Next(s, step, t) && !step.Enter? && !step.Commit? && Shows(s, r)
    ensures Shows(t, r)
  {
    hide OutcomeOf, STAGES, StagesOf, Pending, IsNext, System.Free, SubmitResult, FindingLaws.Commits,
         VersionsAccepted, System.Grows, RefOf;
  }

  lemma {:induction false} ShowsNext(s: System.State, step: System.Step, t: System.State, r: nat)
    requires Next(s, step, t) && Shows(s, r)
    ensures Shows(t, r)
  {
    hide Next, CommitNext, Shows;
    if step.Commit? {
      AsCommit(s, step, t);
      CommitShows(s, step, t, r);
    } else if step.Enter? {
      EnterShows(s, step, t, r);
    } else {
      OthersShow(s, step, t, r);
    }
  }

  /**
   In every execution a run's row shows the latest stage of its history, and
   "queued" before the first; it is queued until then, and running only after.
   */
  lemma {:induction false} RowsShowStages(b: seq<System.State>, steps: seq<System.Step>, n: nat, r: nat)
    requires Execution(b, steps) && n < |b|
    ensures Shows(b[n], r)
  {
    hide Next, Initial, Shows;
    if n == 0 {
      NothingShown(b[0], r);
    } else {
      RowsShowStages(b, steps, n - 1, r);
      assert TakesStep(b, steps, n - 1);
      ShowsNext(b[n - 1], steps[n - 1], b[n], r);
    }
  }

  lemma {:induction false} NothingShown(s: System.State, r: nat)
    requires Initial(s)
    ensures Shows(s, r)
  {
    hide VersionsAccepted;
  }
}
