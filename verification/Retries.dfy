/**
 A run that was interrupted and tried again: what may happen in between without
 changing what its commit finally writes.
 */
module Retries {
  import opened Common
  import opened Identity
  import opened ReviewCase
  import opened Populations
  import opened Reconciliation
  import opened Rules
  import opened Candidates
  import opened Ledger
  import opened FindingLaws
  import opened RunLaws
  import opened Analysis
  import opened AnalysisLaws
  import opened SnapshotStore
  import opened System
  import opened SystemLaws
  import opened Executions

  // ----- what may happen in between -----

  /** Rule versions are only ever added, and a ready outcome uses only versions that are there. */
  lemma {:induction false} OutcomeStable(x: Payload, v: Versions, w: Versions)
    requires System.Grows(v, w) && Analyse(x, v).Ready?
    ensures Analyse(x, w) == Analyse(x, v)
  {
    hide Populations.Valid, TiesOut, Generate, Score, Scope, ValidParameters, AllPriced;
    var scope := Scope(x.population.controls, x.manifest);
    var m, n := Models(scope, v), Models(scope, w);
    assert m.Keys == scope.Keys;
    forall rule | rule in scope
      ensures rule in n && n[rule] == m[rule]
    {
      assert rule in m;
    }
    assert m == n;
  }

  /** The run is still there with its frozen payload, and would still come out the same. */
  ghost predicate Carried(s: System.State, t: System.State, run: nat) {
    && run in s.runs && run in t.runs && t.runs[run].payload == s.runs[run].payload
    && System.Grows(s.versions, t.versions) && (t.versions == s.versions || OutcomeOf(s, run).Ready?)
  }

  lemma {:induction false} CarriedOutcome(s: System.State, t: System.State, run: nat)
    requires Carried(s, t, run)
    ensures OutcomeOf(t, run) == OutcomeOf(s, run)
  {
    hide Analyse;
    if t.versions != s.versions {
      OutcomeStable(s.runs[run].payload, s.versions, t.versions);
    }
  }

  lemma {:induction false} WorkerCarries(s: System.State, step: System.Step, t: System.State, run: nat)
    requires WorkerStep(step) && WorkerNext(s, step, t) && run in s.runs
    ensures run in t.runs && t.runs[run].payload == s.runs[run].payload && t.versions == s.versions
  {
    hide WorkerNext;
    WorkerStepFrame(s, step, t);
  }

  lemma {:induction false} CommitCarries(s: System.State, step: System.Step, t: System.State, run: nat)
    requires step.Commit? && CommitNext(s, step, t) && run in s.runs
    ensures run in t.runs && t.runs[run].payload == s.runs[run].payload && t.versions == s.versions
  {
    hide OutcomeOf, Reconciled, RefOf, STAGES, ContextOf;
  }

  lemma {:induction false} StepCarries(s: System.State, step: System.Step, t: System.State, run: nat)
    requires Next(s, step, t) && run in s.runs
    ensures run in t.runs && t.runs[run].payload == s.runs[run].payload && System.Grows(s.versions, t.versions)
    ensures step.Configure? || t.versions == s.versions
  {
    hide WorkerNext, CommitNext, FindingLaws.Commits, SubmitResult, VersionsAccepted;
    if WorkerStep(step) {
      WorkerCarries(s, step, t, run);
    } else if step.Commit? {
      CommitCarries(s, step, t, run);
    }
  }

  /** New settings may come only once the run's own rule versions are there. */
  ghost predicate Settings(b: seq<System.State>, steps: seq<System.Step>, run: nat)
    requires b != [] && run in b[0].runs
  {
    (forall i :: 0 <= i < |steps| ==> !steps[i].Configure?) || OutcomeOf(b[0], run).Ready?
  }

  lemma {:induction false} PathCarries(b: seq<System.State>, steps: seq<System.Step>, run: nat, n: nat)
    requires Path(b, steps) && n < |b| && run in b[0].runs && Settings(b, steps, run)
    ensures Carried(b[0], b[n], run)
  {
    hide Next, OutcomeOf;
    if n > 0 {
      PathCarries(b, steps, run, n - 1);
      assert TakesStep(b, steps, n - 1);
      StepCarries(b[n - 1], steps[n - 1], b[n], run);
    }
  }

  // ----- no other commit in between -----

  /** Attempts, halts, crashes, submissions and settings: everything but commits and people. */
  predicate Quiet(step: System.Step) {
    WorkerStep(step) || step.Submit? || step.Configure?
  }

  ghost predicate Interrupted(b: seq<System.State>, steps: seq<System.Step>, run: nat) {
    && Path(b, steps) && run in b[0].runs && Settings(b, steps, run)
    && forall i :: 0 <= i < |steps| ==> Quiet(steps[i])
  }

  lemma {:induction false} SubmitTouches(s: System.State, p: Population, receipt: Option<string>, id: nat, now: int)
    ensures var t := SubmitAfter(s, p, receipt, id, now); t.tables == s.tables && t.watermarks == s.watermarks
  {
    hide SubmitResult;
  }

  lemma {:induction false} QuietKeeps(s: System.State, step: System.Step, t: System.State)
    requires Next(s, step, t) && Quiet(step)
    ensures t.tables == s.tables && t.watermarks == s.watermarks
  {
    hide WorkerNext, CommitNext, SubmitAfter, VersionsAccepted, System.Grows, SamePayloads, Addressed;
    if WorkerStep(step) {
      WorkerStepFrame(s, step, t);
    } else if step.Submit? {
      SubmitTouches(s, step.population, step.receipt, step.id, step.now);
    }
  }

  lemma {:induction false} InterruptionsKeep(b: seq<System.State>, steps: seq<System.Step>, run: nat, n: nat)
    requires Interrupted(b, steps, run) && n < |b|
    ensures b[n].tables == b[0].tables && b[n].watermarks == b[0].watermarks
  {
    hide Next, Settings, Quiet;
    if n > 0 {
      InterruptionsKeep(b, steps, run, n - 1);
      assert TakesStep(b, steps, n - 1);
      QuietKeeps(b[n - 1], steps[n - 1], b[n]);
    }
  }

  lemma {:induction false} SlicesAgree(l: Tables, m: Tables)
    requires forall key :: At(l, key) == At(m, key)
    ensures l.findings == m.findings && l.cases == m.cases
  {
    forall key
      ensures key in l.findings <==> key in m.findings
      ensures key in l.findings ==> l.findings[key] == m.findings[key]
      ensures key in l.cases <==> key in m.cases
      ensures key in l.cases ==> l.cases[key] == m.cases[key]
    {
      hide EventsOf, CaseEventsOf;
      assert At(l, key) == At(m, key);
    }
  }

  lemma {:induction false} SameReconciliation(l: Tables, m: Tables, n: Tables, ctx: RunContext, rows: seq<Row>)
    requires Reconciled(l, m, ctx, rows) && Reconciled(l, n, ctx, rows)
    ensures m.findings == n.findings && m.cases == n.cases && m.observations == n.observations
    ensures forall key :: EventsOf(m.trail, key) == EventsOf(n.trail, key)
  {
    hide At, RunSlice;
    forall key
      ensures At(m, key) == At(n, key)
    {
      assert At(m, key) == RunSlice(l.workflows, ctx, rows, key, At(l, key));
      assert At(n, key) == RunSlice(l.workflows, ctx, rows, key, At(l, key));
    }
    SlicesAgree(m, n);
    forall key
      ensures EventsOf(m.trail, key) == EventsOf(n.trail, key)
    {
      SliceTrail(m, n, key);
    }
  }

  lemma {:induction false} SliceTrail(m: Tables, n: Tables, key: Key)
    requires At(m, key) == At(n, key)
    ensures EventsOf(m.trail, key) == EventsOf(n.trail, key)
  {
  }

  /** The run is the worker's, with the same payload and outcome in both states. */
  ghost predicate SameAttempt(s: System.State, v: nat, r: System.State, w: nat, run: nat) {
    && WorkerOf(s, v).Working? && WorkerOf(r, w).Working? && WorkerOf(s, v).run == run == WorkerOf(r, w).run
    && run in s.runs && run in r.runs && s.runs[run].payload == r.runs[run].payload
    && OutcomeOf(s, run) == OutcomeOf(r, run)
  }

  lemma {:induction false} CommitReconciles(s: System.State, v: nat, at: int, t: System.State) returns (ctx: RunContext)
    requires CommitNext(s, System.Commit(v, at, true), t)
    ensures WorkerOf(s, v).Working? && WorkerOf(s, v).run in s.runs && OutcomeOf(s, WorkerOf(s, v).run).Ready?
    ensures var run := WorkerOf(s, v).run;
      && ctx == ContextOf(run, s.runs[run].payload, OutcomeOf(s, run).scope, at)
      && Reconciled(s.tables, t.tables, ctx, OutcomeOf(s, run).rows)
      && t.watermarks == s.watermarks[SourceOf(s, run) := Some(run)]
      && run in t.snapshots && t.snapshots[run] == RefOf(TENANT, run, s.runs[run].payload.population.records)
      && (forall o :: o in s.tables.observations ==> o.run != run)
  {
    hide OutcomeOf, Reconciled, RefOf, STAGES, ContextOf;
    ctx := ContextOf(WorkerOf(s, v).run, s.runs[WorkerOf(s, v).run].payload, OutcomeOf(s, WorkerOf(s, v).run).scope,
      at);
  }

  /**
   However often a run halted or crashed on the way, whatever was submitted
   meanwhile and however the settings were changed, the commit that finally
   happens gives the same findings, cases, observations, trails, watermarks and
   snapshot reference as a commit without those interruptions at that time.
   */
  lemma {:induction false} RetryGivesTheSame(b: seq<System.State>, bs: seq<System.Step>, v: nat, t: System.State,
      c: seq<System.State>, cs: seq<System.Step>, w: nat, u: System.State, run: nat, at: int)
    requires Interrupted(b, bs, run) && Interrupted(c, cs, run) && b[0] == c[0]
    requires CommitNext(b[|bs|], System.Commit(v, at, true), t) && CommitNext(c[|cs|], System.Commit(w, at, true), u)
    requires WorkerOf(b[|bs|], v).run == run == WorkerOf(c[|cs|], w).run
    ensures t.tables.findings == u.tables.findings && t.tables.cases == u.tables.cases
    ensures t.tables.observations == u.tables.observations && t.watermarks == u.watermarks
    ensures forall key :: EventsOf(t.tables.trail, key) == EventsOf(u.tables.trail, key)
    ensures run in t.snapshots && run in u.snapshots && t.snapshots[run] == u.snapshots[run]
  {
    hide CommitNext, EventsOf, TakesStep, Reconciled, Settings, RefOf, OutcomeOf, Carried, Quiet;
    var s, r := b[|bs|], c[|cs|];
    InterruptionsKeep(b, bs, run, |bs|);
    InterruptionsKeep(c, cs, run, |cs|);
    SameFromBoth(b, bs, v, c, cs, w, run, t, u, at);
    var x := CommitReconciles(s, v, at, t);
    var y := CommitReconciles(r, w, at, u);
    SameReconciliation(s.tables, t.tables, u.tables, x, OutcomeOf(s, run).rows);
  }

  lemma {:induction false} SameFromBoth(b: seq<System.State>, bs: seq<System.Step>, v: nat, c: seq<System.State>,
      cs: seq<System.Step>, w: nat, run: nat, t: System.State, u: System.State, at: int)
    requires Path(b, bs) && Path(c, cs) && b[0] == c[0] && run in b[0].runs
    requires Settings(b, bs, run) && Settings(c, cs, run)
    requires CommitNext(b[|bs|], System.Commit(v, at, true), t) && CommitNext(c[|cs|], System.Commit(w, at, true), u)
    requires WorkerOf(b[|bs|], v).run == run == WorkerOf(c[|cs|], w).run
    ensures SameAttempt(b[|bs|], v, c[|cs|], w, run)
  {
    hide TakesStep, Settings, OutcomeOf, System.Commits, System.Grows, STAGES;
    PathCarries(b, bs, run, |bs|);
    PathCarries(c, cs, run, |cs|);
    CarriedOutcome(b[0], b[|bs|], run);
    CarriedOutcome(c[0], c[|cs|], run);
  }

  // ----- other sources in between -----

  /** The finding with this key, whenever there is one, belongs to the source. */
  ghost predicate Concerns(key: Key, source: string) {
    exists f :: Keyed(key, f) && f.source == source
  }

  lemma {:induction false} KeyTellsSource(key: Key, f: Finding, g: Finding)
    requires Keyed(key, f) && Keyed(key, g)
    ensures f.source == g.source
  {
    hide ExceptionKey, EntityID;
    var p :| AllValid(p) && f.entityId == EntityID(f.source, p);
    var q :| AllValid(q) && g.entityId == EntityID(g.source, q);
    EntityIDIsKeyPart(f.source, p);
    EntityIDIsKeyPart(g.source, q);
    ExceptionKeyInjective(f.rule, f.entity, f.entityId, f.period, g.rule, g.entity, g.entityId, g.period);
    EntityIDInjective(f.source, p, g.source, q);
  }

  lemma {:induction false} FlaggedConcerns(ctx: RunContext, rows: seq<Row>, i: nat)
    requires ValidRows(ctx, rows) && i < |rows|
    ensures Concerns(KeyOf(ctx, rows[i].candidate), ctx.source)
  {
    hide Sourced, DistinctKeys, KeyOf, Keyed;
    var none := Slice(None, [], None, []);
    SeenKeyed(KeyOf(ctx, rows[i].candidate), none, ctx, rows[i]);
    assert Seen(none, ctx, rows[i]).source == ctx.source;
  }

  /** A run leaves the findings of every other source alone. */
  lemma {:induction false} OtherSourceKept(w: seq<Workflow>, ctx: RunContext, rows: seq<Row>, key: Key, s: Slice,
      source: string)
    requires ValidRows(ctx, rows) && (s.finding.Some? ==> Keyed(key, s.finding.value))
    requires Concerns(key, source) && source != ctx.source
    ensures RunSlice(w, ctx, rows, key, s) == s
  {
    hide Keyed, Observe, Resolve, ValidRows;
    var f :| Keyed(key, f) && f.source == source;
    RowForFinds(ctx, rows, key);
    if Flagged(ctx, rows, key) {
      FlaggedIsInScope(ctx, rows, key, f);
    }
    if s.finding.Some? {
      KeyTellsSource(key, f, s.finding.value);
    }
  }

  /** The findings of the source, and the workflows, are as they were. */
  ghost predicate SameFor(l: Tables, m: Tables, source: string) {
    m.workflows == l.workflows && forall key :: Concerns(key, source) ==> At(m, key) == At(l, key)
  }

  /** The transaction is of a run of another source, or of a person on a finding of another source. */
  ghost predicate OfOthers(op: Op, source: string) {
    match op
    case Run(ctx, _) => ctx.source != source
    case Publication(_, _) => false
    case _ => !Concerns(op.key, source)
  }

  lemma {:induction false} OthersKeep(l: Tables, op: Op, m: Tables, source: string)
    requires TablesOk(l) && FindingLaws.Commits(l, op, m) && OfOthers(op, source)
    ensures SameFor(l, m, source)
  {
    hide At, Concerns, Dispose, Comment, ActOnCase, RunSlice, ValidRows, Chained, CaseReplays, StatesAgree, Keyed;
    forall key | Concerns(key, source)
      ensures At(m, key) == At(l, key)
    {
      assert SliceOk(l.workflows, key, At(l, key));
      assert CommitsTo(l, op, m, key);
      if op.Run? {
        OtherSourceKept(l.workflows, op.ctx, op.rows, key, At(l, key), source);
      }
    }
  }

  /** Everything that can happen except work on the findings of the source, and publications. */
  ghost predicate Elsewhere(s: System.State, step: System.Step, source: string) {
    match step
    case Human(op) => OfOthers(op, source)
    case Commit(w, _, _) =>
      WorkerOf(s, w).Working? && WorkerOf(s, w).run in s.runs && SourceOf(s, WorkerOf(s, w).run) != source
    case _ => true
  }

  lemma {:induction false} CommitElsewhere(s: System.State, step: System.Step, t: System.State, source: string)
    requires Inv(s) && step.Commit? && CommitNext(s, step, t) && Elsewhere(s, step, source)
    ensures SameFor(s.tables, t.tables, source)
  {
    hide Inv, Next, CommitNext, FindingLaws.Commits, SameFor, OutcomeOf;
    CommitStep(s, step, t);
    InvTables(s);
    var run := WorkerOf(s, step.worker).run;
    OthersKeep(s.tables, Run(ContextOf(run, s.runs[run].payload, OutcomeOf(s, run).scope, step.at),
      OutcomeOf(s, run).rows),
               t.tables, source);
  }

  lemma {:induction false} ElsewhereKeeps(s: System.State, step: System.Step, t: System.State, source: string)
    requires Inv(s) && Next(s, step, t) && Elsewhere(s, step, source)
    ensures SameFor(s.tables, t.tables, source)
  {
    hide Inv, CommitNext, WorkerNext, FindingLaws.Commits, Concerns, At, OfOthers, SubmitResult, VersionsAccepted;
    if step.Commit? {
      CommitElsewhere(s, step, t, source);
    } else if step.Human? {
      InvTables(s);
      OthersKeep(s.tables, step.op, t.tables, source);
    } else {
      QuietKeeps(s, step, t);
    }
  }

  ghost predicate Aside(b: seq<System.State>, steps: seq<System.Step>, run: nat) {
    && Path(b, steps) && run in b[0].runs && Settings(b, steps, run)
    && forall i :: 0 <= i < |steps| ==> Elsewhere(b[i], steps[i], SourceOf(b[0], run))
  }

  lemma {:induction false} AsideKeeps(b: seq<System.State>, steps: seq<System.Step>, run: nat, n: nat)
    requires Aside(b, steps, run) && Inv(b[0]) && n < |b|
    ensures Inv(b[n]) && SameFor(b[0].tables, b[n].tables, SourceOf(b[0], run))
  {
    hide Next, Settings, Elsewhere, Inv, At, Concerns;
    if n > 0 {
      AsideKeeps(b, steps, run, n - 1);
      assert TakesStep(b, steps, n - 1);
      StepKeeps(b[n - 1], steps[n - 1], b[n]);
      ElsewhereKeeps(b[n - 1], steps[n - 1], b[n], SourceOf(b[0], run));
    }
  }

  function ObservationsOf(all: seq<Observation>, run: nat): seq<Observation> {
    if all == [] then []
    else ObservationsOf(all[..|all| - 1], run) + (if all[|all| - 1].run == run then [all[|all| - 1]] else [])
  }

  lemma {:induction false} ObservationsNext(all: seq<Observation>, o: Observation, run: nat)
    ensures ObservationsOf(all + [o], run) == ObservationsOf(all, run) + (if o.run == run then [o] else [])
  {
    assert (all + [o])[..|all|] == all;
  }

  lemma {:induction false} NoneObserved(all: seq<Observation>, run: nat)
    requires forall i :: 0 <= i < |all| ==> all[i].run != run
    ensures ObservationsOf(all, run) == []
  {
    if all != [] {
      NoneObserved(all[..|all| - 1], run);
    }
  }

  /** What the run observed, after the observations of other runs. */
  lemma {:induction false} ObservedLast(before: seq<Observation>, own: seq<Observation>, run: nat)
    requires forall i :: 0 <= i < |before| ==> before[i].run != run
    requires forall i :: 0 <= i < |own| ==> own[i].run == run
    ensures ObservationsOf(before + own, run) == own
  {
    hide ObservationsOf;
    if own == [] {
      NoneObserved(before, run);
      assert before + own == before;
    } else {
      var front, o := own[..|own| - 1], own[|own| - 1];
      ObservedLast(before, front, run);
      assert own == front + [o] && before + own == (before + front) + [o];
      ObservationsNext(before + front, o, run);
    }
  }

  lemma {:induction false} SameForBoth(l: Tables, m: Tables, ctx: RunContext, rows: seq<Row>)
    requires ValidRows(ctx, rows) && SameFor(l, m, ctx.source)
    ensures Observations(l, ctx, rows) == Observations(m, ctx, rows)
  {
    hide At, Concerns, ValidRows, Observed;
    forall i | 0 <= i < |rows|
      ensures Observations(l, ctx, rows)[i] == Observations(m, ctx, rows)[i]
    {
      FlaggedConcerns(ctx, rows, i);
    }
  }

  lemma {:induction false} SameReconciliationFor(l: Tables, t: Tables, m: Tables, u: Tables, ctx: RunContext,
      rows: seq<Row>)
    requires Reconciled(l, t, ctx, rows) && Reconciled(m, u, ctx, rows)
    requires ValidRows(ctx, rows) && SameFor(l, m, ctx.source)
    requires (forall o :: o in l.observations ==> o.run != ctx.run)
      && forall o :: o in m.observations ==> o.run != ctx.run
    ensures SameFor(t, u, ctx.source)
      && ObservationsOf(t.observations, ctx.run) == ObservationsOf(u.observations, ctx.run)
  {
    hide At, RunSlice, Concerns, ValidRows, ObservationsOf;
    SameForBoth(l, m, ctx, rows);
    ObservedLast(l.observations, Observations(l, ctx, rows), ctx.run);
    ObservedLast(m.observations, Observations(m, ctx, rows), ctx.run);
  }

  lemma {:induction false} ReadyValid(s: System.State, run: nat, at: int)
    requires Inv(s) && run in s.runs && OutcomeOf(s, run).Ready?
    ensures var r := OutcomeOf(s, run); ValidRows(ContextOf(run, s.runs[run].payload, r.scope, at), r.rows)
  {
    hide Analyse, TablesOk, Exclusive, Stored, Settled, ReceiptsOk, TiedOut, Addressed, WorkersOk, VersionsAccepted;
    ReadyRowsValid(s.runs[run].payload, s.versions, run, at);
  }

  /**
   In between, runs of other sources may also have committed, and people may
   have worked on findings of other sources: what the run's commit writes about
   its own source is the same.
   */
  lemma {:induction false} RetryGivesTheSameForItsSource(b: seq<System.State>, bs: seq<System.Step>, v: nat,
      t: System.State, c: seq<System.State>, cs: seq<System.Step>, w: nat, u: System.State, run: nat, at: int)
    requires Aside(b, bs, run) && Aside(c, cs, run) && b[0] == c[0] && Inv(b[0])
    requires CommitNext(b[|bs|], System.Commit(v, at, true), t) && CommitNext(c[|cs|], System.Commit(w, at, true), u)
    requires WorkerOf(b[|bs|], v).run == run == WorkerOf(c[|cs|], w).run
    ensures SameFor(t.tables, u.tables, SourceOf(b[0], run))
    ensures ObservationsOf(t.tables.observations, run) == ObservationsOf(u.tables.observations, run)
    ensures run in t.snapshots && run in u.snapshots && t.snapshots[run] == u.snapshots[run]
    ensures var source := SourceOf(b[0], run);
      source in t.watermarks && source in u.watermarks && t.watermarks[source] == u.watermarks[source] == Some(run)
  {
    hide CommitNext, TakesStep, Reconciled, Settings, RefOf, OutcomeOf, Elsewhere, Inv, At, Concerns, ValidRows,
         ObservationsOf, TablesOk;
    var s, r := b[|bs|], c[|cs|];
    AsideKeeps(b, bs, run, |bs|);
    AsideKeeps(c, cs, run, |cs|);
    SameFromBoth(b, bs, v, c, cs, w, run, t, u, at);
    PathCarries(b, bs, run, |bs|);
    var x := CommitReconciles(s, v, at, t);
    var y := CommitReconciles(r, w, at, u);
    ReadyValid(s, run, at);
    SameReconciliationFor(s.tables, t.tables, r.tables, u.tables, x, OutcomeOf(s, run).rows);
  }

  // ----- publications in between -----

  /** The finding is as it was, but may have been enrolled in a workflow. */
  predicate Enrolled(s: Slice, t: Slice) {
    t == s.(review := t.review) && (s.review.Some? ==> t.review == s.review)
  }

  lemma {:induction false} PublishEnrols(s: Slice, revision: nat)
    ensures Enrolled(s, Publish(s, revision))
  {
  }

  /** A run does the same to a finding whether or not it was enrolled, but for the enrolment. */
  lemma {:induction false} SeenAlike(s: Slice, t: Slice, ctx: RunContext, row: Row)
    requires Enrolled(s, t)
    ensures Verdict(t, ctx, row.candidate) == Verdict(s, ctx, row.candidate) && Seen(t, ctx, row) == Seen(s, ctx, row)
    ensures Observed(t, ctx, row) == Observed(s, ctx, row)
  {
    hide Lifecycle.Reconcile, Consumed, KeyOf;
  }

  /** Nothing but the review case differs, and that only where there was none at the start. */
  predicate AlikeButCase(start: Slice, t: Slice, u: Slice) {
    u == t.(review := u.review) && (start.review.Some? ==> u.review == t.review)
  }

  lemma {:induction false} ObserveAlike(v: seq<Workflow>, w: seq<Workflow>, start: Slice, s: Slice, t: Slice,
      ctx: RunContext, row: Row)
    requires Enrolled(start, s) && Enrolled(start, t) && StatesAgree(s) && StatesAgree(t)
    ensures AlikeButCase(start, Observe(v, s, ctx, row), Observe(w, t, ctx, row))
  {
    hide Lifecycle.Reconcile, Consumed, KeyOf, SyncCase, NewEvent, Verdict, Seen;
    SeenAlike(start, s, ctx, row);
    SeenAlike(start, t, ctx, row);
    ObserveParts(v, s, ctx, row);
    ObserveParts(w, t, ctx, row);
  }

  /** What an observation writes, apart from enrolling. */
  lemma {:induction false} ObserveParts(w: seq<Workflow>, s: Slice, ctx: RunContext, row: Row)
    requires StatesAgree(s)
    ensures var r, state := Observe(w, s, ctx, row), Verdict(s, ctx, row.candidate);
      && r.finding == Some(Seen(s, ctx, row)) && r.caseTrail == s.caseTrail
      && r.trail == (if s.State() == state.0 then s.trail
                     else s.trail + [NewEvent(s.trail, KeyOf(ctx, row.candidate), "system", state.1,
                       "Run reconciliation",
                                              s.State(), state.0, ctx.at)])
      && (s.review.Some? ==> r.review == s.review)
  {
    hide KeyOf, NewEvent;
    ObserveShape(w, s, ctx, row);
  }

  lemma {:induction false} RunAlike(v: seq<Workflow>, w: seq<Workflow>, start: Slice, s: Slice, t: Slice,
      ctx: RunContext, rows: seq<Row>, key: Key)
    requires Enrolled(start, s) && Enrolled(start, t) && StatesAgree(s) && StatesAgree(t)
    ensures AlikeButCase(start, RunSlice(v, ctx, rows, key, s), RunSlice(w, ctx, rows, key, t))
  {
    hide Observe, NewEvent, RowFor, StatesAgree;
    if RowFor(ctx, rows, key).Some? {
      ObserveAlike(v, w, start, s, t, ctx, RowFor(ctx, rows, key).value);
    }
  }

  /** No finding of the source differs, but for enrolments. */
  ghost predicate EnrolledFor(l: Tables, m: Tables, source: string) {
    forall key :: Concerns(key, source) ==> Enrolled(At(l, key), At(m, key))
  }

  lemma {:induction false} EnrolledTwice(l: Tables, m: Tables, n: Tables, source: string)
    requires EnrolledFor(l, m, source) && EnrolledFor(m, n, source)
    ensures EnrolledFor(l, n, source)
  {
    hide At, Concerns;
    forall key | Concerns(key, source)
      ensures Enrolled(At(l, key), At(n, key))
    {
      assert Enrolled(At(l, key), At(m, key)) && Enrolled(At(m, key), At(n, key));
    }
  }

  lemma {:induction false} SameIsEnrolled(l: Tables, m: Tables, source: string)
    requires SameFor(l, m, source)
    ensures EnrolledFor(l, m, source)
  {
    hide At, Concerns;
  }

  lemma {:induction false} PublicationEnrols(l: Tables, op: Op, m: Tables, source: string)
    requires FindingLaws.Commits(l, op, m) && op.Publication?
    ensures EnrolledFor(l, m, source)
  {
    hide At, Concerns, Publish, Publishes;
    forall key | Concerns(key, source)
      ensures Enrolled(At(l, key), At(m, key))
    {
      assert CommitsTo(l, op, m, key);
      PublishEnrols(At(l, key), |l.workflows| + 1);
    }
  }

  /** Everything that can happen except work on the findings of the source. */
  ghost predicate Around(s: System.State, step: System.Step, source: string) {
    Elsewhere(s, step, source) || (step.Human? && step.op.Publication?)
  }

  lemma {:induction false} AroundKeeps(s: System.State, step: System.Step, t: System.State, source: string)
    requires Inv(s) && Next(s, step, t) && Around(s, step, source)
    ensures EnrolledFor(s.tables, t.tables, source)
  {
    hide Inv, CommitNext, WorkerNext, FindingLaws.Commits, SameFor, EnrolledFor, Elsewhere, SubmitAfter,
      VersionsAccepted;
    if Elsewhere(s, step, source) {
      ElsewhereKeeps(s, step, t, source);
      SameIsEnrolled(s.tables, t.tables, source);
    } else {
      PublicationEnrols(s.tables, step.op, t.tables, source);
    }
  }

  ghost predicate Round(b: seq<System.State>, steps: seq<System.Step>, run: nat) {
    && Path(b, steps) && run in b[0].runs && Settings(b, steps, run)
    && forall i :: 0 <= i < |steps| ==> Around(b[i], steps[i], SourceOf(b[0], run))
  }

  lemma {:induction false} RoundKeeps(b: seq<System.State>, steps: seq<System.Step>, run: nat, n: nat)
    requires Round(b, steps, run) && Inv(b[0]) && n < |b|
    ensures Inv(b[n]) && EnrolledFor(b[0].tables, b[n].tables, SourceOf(b[0], run))
  {
    hide Next, Settings, Around, Inv, At, Concerns, EnrolledFor;
    if n > 0 {
      RoundKeeps(b, steps, run, n - 1);
      assert TakesStep(b, steps, n - 1);
      StepKeeps(b[n - 1], steps[n - 1], b[n]);
      AroundKeeps(b[n - 1], steps[n - 1], b[n], SourceOf(b[0], run));
      EnrolledTwice(b[0].tables, b[n - 1].tables, b[n].tables, SourceOf(b[0], run));
    } else {
      NoneEnrolled(b[0].tables, SourceOf(b[0], run));
    }
  }

  lemma {:induction false} NoneEnrolled(l: Tables, source: string)
    ensures EnrolledFor(l, l, source)
  {
    hide At, Concerns;
  }

  /**
   The findings of the source with their trails and case histories agree, and
   so do the cases there were at the start.
   */
  ghost predicate AlikeFor(start: Tables, l: Tables, m: Tables, source: string) {
    forall key :: Concerns(key, source) ==> AlikeButCase(At(start, key), At(l, key), At(m, key))
  }

  lemma {:induction false} ObservationsAlike(start: Tables, l: Tables, m: Tables, ctx: RunContext, rows: seq<Row>)
    requires ValidRows(ctx, rows) && EnrolledFor(start, l, ctx.source) && EnrolledFor(start, m, ctx.source)
    ensures Observations(l, ctx, rows) == Observations(m, ctx, rows)
  {
    hide At, Concerns, ValidRows, Observed;
    forall i | 0 <= i < |rows|
      ensures Observations(l, ctx, rows)[i] == Observations(m, ctx, rows)[i]
    {
      var key := KeyOf(ctx, rows[i].candidate);
      FlaggedConcerns(ctx, rows, i);
      SeenAlike(At(start, key), At(l, key), ctx, rows[i]);
      SeenAlike(At(start, key), At(m, key), ctx, rows[i]);
    }
  }

  lemma {:induction false} ReconciledAlike(start: Tables, l: Tables, t: Tables, m: Tables, u: Tables, ctx: RunContext,
      rows: seq<Row>)
    requires TablesOk(l) && TablesOk(m) && Reconciled(l, t, ctx, rows) && Reconciled(m, u, ctx, rows)
    requires EnrolledFor(start, l, ctx.source) && EnrolledFor(start, m, ctx.source)
    ensures AlikeFor(start, t, u, ctx.source)
  {
    hide At, RunSlice, Concerns, Enrolled, AlikeButCase, Chained, CaseReplays, StatesAgree, Keyed, Observations;
    forall key | Concerns(key, ctx.source)
      ensures AlikeButCase(At(start, key), At(t, key), At(u, key))
    {
      assert SliceOk(l.workflows, key, At(l, key)) && SliceOk(m.workflows, key, At(m, key));
      RunAlike(l.workflows, m.workflows, At(start, key), At(l, key), At(m, key), ctx, rows, key);
    }
  }

  lemma {:induction false} ReconciledObserves(start: Tables, l: Tables, t: Tables, m: Tables, u: Tables,
      ctx: RunContext, rows: seq<Row>)
    requires Reconciled(l, t, ctx, rows) && Reconciled(m, u, ctx, rows) && ValidRows(ctx, rows)
    requires EnrolledFor(start, l, ctx.source) && EnrolledFor(start, m, ctx.source)
    requires forall o :: o in l.observations ==> o.run != ctx.run
    requires forall o :: o in m.observations ==> o.run != ctx.run
    ensures ObservationsOf(t.observations, ctx.run) == ObservationsOf(u.observations, ctx.run)
  {
    hide At, RunSlice, Concerns, Enrolled, ValidRows, ObservationsOf;
    ObservationsAlike(start, l, m, ctx, rows);
    ObservedLast(l.observations, Observations(l, ctx, rows), ctx.run);
    ObservedLast(m.observations, Observations(m, ctx, rows), ctx.run);
  }

  /**
   Workflows may have been published in between as well: the findings of the
   run's source with their trails and case histories, the run's observations,
   its watermark and its snapshot are the same, and so is every review case that
   was there at the start.  Only what was enrolled since may differ.
   */
  lemma {:induction false} RetryGivesTheSameButForEnrolment(b: seq<System.State>, bs: seq<System.Step>, v: nat,
      t: System.State, c: seq<System.State>, cs: seq<System.Step>, w: nat, u: System.State, run: nat, at: int)
    requires Round(b, bs, run) && Round(c, cs, run) && b[0] == c[0] && Inv(b[0])
    requires CommitNext(b[|bs|], System.Commit(v, at, true), t) && CommitNext(c[|cs|], System.Commit(w, at, true), u)
    requires WorkerOf(b[|bs|], v).run == run == WorkerOf(c[|cs|], w).run
    ensures AlikeFor(b[0].tables, t.tables, u.tables, SourceOf(b[0], run))
    ensures ObservationsOf(t.tables.observations, run) == ObservationsOf(u.tables.observations, run)
    ensures run in t.snapshots && run in u.snapshots && t.snapshots[run] == u.snapshots[run]
    ensures var source := SourceOf(b[0], run);
      source in t.watermarks && source in u.watermarks && t.watermarks[source] == u.watermarks[source] == Some(run)
  {
    hide CommitNext, TakesStep, Reconciled, Settings, RefOf, OutcomeOf, Around, Inv, ValidRows, ObservationsOf,
         TablesOk, EnrolledFor, AlikeFor;
    var s, r := b[|bs|], c[|cs|];
    RoundKeeps(b, bs, run, |bs|);
    RoundKeeps(c, cs, run, |cs|);
    SameFromBoth(b, bs, v, c, cs, w, run, t, u, at);
    PathCarries(b, bs, run, |bs|);
    var x := CommitReconciles(s, v, at, t);
    var y := CommitReconciles(r, w, at, u);
    ReadyValid(s, run, at);
    InvTables(s);
    InvTables(r);
    ReconciledAlike(b[0].tables, s.tables, t.tables, r.tables, u.tables, x, OutcomeOf(s, run).rows);
    ReconciledObserves(b[0].tables, s.tables, t.tables, r.tables, u.tables, x, OutcomeOf(s, run).rows);
  }
}
