/** From every observation and finding back to the submission it rests on, over every execution. */
module Provenance {
  import opened Identity
  import opened Reconciliation
  import opened Candidates
  import opened Ledger
  import opened FindingLaws
  import opened Histories
  import opened RunAnswers
  import opened Enrolment
  import opened Analysis
  import opened AnalysisLaws
  import opened Raised
  import opened System
  import opened SnapshotStore
  import opened SystemLaws
  import opened Executions
  import opened RunRecords

  /** The observation was made by a run on its own evidence: its rule version and its parameters. */
  predicate ObservedBy(x: Payload, o: Observation) {
    && o.params == x.paramsHash && o.rule in x.manifest && o.version == x.manifest[o.rule]
    && o.inputHash == OfInput(o.input)
  }

  ghost predicate Traced(s: System.State) {
    forall i :: 0 <= i < |s.tables.observations| ==> TracedAt(s, i)
  }

  predicate TracedAt(s: System.State, i: int)
    requires 0 <= i < |s.tables.observations|
  {
    var o := s.tables.observations[i];
    o.run in s.runs && ObservedBy(s.runs[o.run].payload, o)
  }

  lemma {:induction false} TracedStays(s: System.State, t: System.State)
    requires Traced(s) && RunsKept(s, t) && t.tables.observations == s.tables.observations
    ensures Traced(t)
  {
    forall i | 0 <= i < |t.tables.observations|
      ensures TracedAt(t, i)
    {
      assert TracedAt(s, i);
    }
  }

  /** What a commit adds is traced to the run that commits. */
  lemma {:induction false} NewlyTraced(l: Tables, m: Tables, run: nat, x: Payload, v: Versions, at: int, i: nat)
    requires TablesOk(l) && Analyse(x, v).Ready?
    requires FindingLaws.Commits(l, Run(ContextOf(run, x, Analyse(x, v).scope, at), Analyse(x, v).rows), m)
    requires |l.observations| <= i < |m.observations|
    ensures l.observations <= m.observations
    ensures m.observations[i].run == run && ObservedBy(x, m.observations[i])
  {
    hide TablesOk, FindingLaws.Commits, Analyse, At, KeyOf, NamedBy, RunAnswers.RunRecords;
    var r := Analyse(x, v);
    var ctx := ContextOf(run, x, r.scope, at);
    CommitCounted(l, m, ctx, r.rows);
    var k := i - |l.observations|;
    FlaggedRecords(l, m, ctx, r.rows, k);
    TestedIff(x, v, r.rows[k].candidate.rule);
  }

  lemma {:induction false} CommitCounted(l: Tables, m: Tables, ctx: RunContext, rows: seq<Row>)
    requires FindingLaws.Commits(l, Run(ctx, rows), m)
    ensures |m.observations| == |l.observations| + |rows|
  {
    hide At, KeyOf, CommitsTo;
  }

  lemma {:induction false} CommitTraced(s: System.State, step: System.Step, t: System.State)
    requires Inv(s) && step.Commit? && CommitNext(s, step, t) && Traced(s)
    ensures Traced(t)
  {
    hide Inv, TablesOk, Analyse, FindingLaws.Commits, CommitNext, ObservedBy, RunsKept, Kept;
    InvTables(s);
    CommitStep(s, step, t);
    CommitKept(s, step, t);
    RunsOfKept(s, t);
    var run := WorkerOf(s, step.worker).run;
    forall i | 0 <= i < |t.tables.observations|
      ensures TracedAt(t, i)
    {
      TracedOne(s, t, run, s.runs[run].payload, s.versions, step.at, i);
    }
  }

  lemma {:induction false} RunsOfKept(s: System.State, t: System.State)
    requires Kept(s, t)
    ensures RunsKept(s, t)
  {
  }

  lemma {:induction false} TracedOne(s: System.State, t: System.State, run: nat, x: Payload, v: Versions, at: int,
      i: nat)
    requires TablesOk(s.tables) && Analyse(x, v).Ready? && Traced(s) && RunsKept(s, t) && i < |t.tables.observations|
    requires FindingLaws.Commits(s.tables, Run(ContextOf(run, x, Analyse(x, v).scope, at), Analyse(x, v).rows),
      t.tables)
    requires run in s.runs && s.runs[run].payload == x
    ensures TracedAt(t, i)
  {
    hide TablesOk, Analyse, FindingLaws.Commits, ObservedBy;
    if i < |s.tables.observations| {
      assert TracedAt(s, i);
      ObservationsGrow(s.tables, t.tables,
        Run(ContextOf(run, x, Analyse(x, v).scope, at), Analyse(x, v).rows));
    } else {
      NewlyTraced(s.tables, t.tables, run, x, v, at, i);
    }
  }

  lemma {:induction false} ObservationsGrow(l: Tables, m: Tables, op: Op)
    requires FindingLaws.Commits(l, op, m)
    ensures l.observations <= m.observations
  {
    hide CommitsTo, At, KeyOf;
  }

  lemma {:induction false} TracedNext(s: System.State, step: System.Step, t: System.State)
    requires Inv(s) && Next(s, step, t) && Traced(s)
    ensures Traced(t)
  {
    hide Next, CommitNext, Inv, Traced;
    if step.Commit? {
      AsCommit(s, step, t);
      CommitTraced(s, step, t);
    } else {
      QuietSteps(s, step, t);
      TracedStays(s, t);
    }
  }

  lemma {:induction false} AlwaysTraced(b: seq<System.State>, steps: seq<System.Step>, n: nat)
    requires Execution(b, steps) && n < |b|
    ensures Traced(b[n])
  {
    hide Next, Inv, Initial, Traced;
    if n == 0 {
      NothingObservedYet(b[0]);
    } else {
      AlwaysTraced(b, steps, n - 1);
      ReachableInv(b, steps, n - 1);
      assert TakesStep(b, steps, n - 1);
      TracedNext(b[n - 1], steps[n - 1], b[n]);
    }
  }

  lemma {:induction false} NothingObservedYet(s: System.State)
    requires Initial(s)
    ensures Traced(s)
  {
    hide VersionsAccepted;
  }

  /**
   In every execution every observation was made by a run that was submitted,
   under the parameters, and for a rule and in the version of the manifest, that
   the submission froze; and that run has committed on totals that tie out.
   */
  lemma {:induction false} ObservationsAreTraced(b: seq<System.State>, steps: seq<System.Step>, n: nat, i: nat)
    requires Execution(b, steps) && n < |b| && i < |b[n].tables.observations|
    ensures var o := b[n].tables.observations[i];
      && o.run in b[n].runs && ObservedBy(b[n].runs[o.run].payload, o)
      && o.run in b[n].commits && TiesOut(b[n].runs[o.run].payload.population, [])
  {
    hide Execution, Inv, TiesOut;
    AlwaysTraced(b, steps, n);
    assert TracedAt(b[n], i);
    ReachableInv(b, steps, n);
    ObservedCommitted(b[n], i);
    InvTies(b[n], b[n].tables.observations[i].run);
  }

  lemma {:induction false} ObservedCommitted(s: System.State, i: nat)
    requires Inv(s) && i < |s.tables.observations|
    ensures s.tables.observations[i].run in s.commits
  {
    hide Stored, WorkersOk, Exclusive, ReceiptsOk, TiedOut, Addressed, VersionsAccepted, TablesOk;
    assert s.tables.observations[i] in s.tables.observations;
  }

  /**
   In every execution every finding was first seen by a submitted run whose
   population ties out: its row records that run, the parameters the submission
   froze, and the version of the finding's rule in the submission's manifest.
   */
  lemma {:induction false} FindingsAreTraced(b: seq<System.State>, steps: seq<System.Step>, n: nat, key: Key)
    requires Execution(b, steps) && n < |b| && key in b[n].tables.findings
    ensures var f := b[n].tables.findings[key];
      && f.origin.snapshot in b[n].runs
      && var x := b[n].runs[f.origin.snapshot].payload;
         && f.origin.params == x.paramsHash && f.rule in x.manifest && f.origin.version == x.manifest[f.rule]
         && f.origin.snapshot in b[n].commits && TiesOut(x.population, [])
  {
    hide Execution, Behaviour, TiesOut;
    PathLength(b, steps);
    FindingsBehave(b, steps);
    assert TablesOver(b)[n] == b[n].tables;
    EveryFindingWasObserved(TablesOver(b), n, key);
    var i :| 0 <= i < |b[n].tables.observations|
      && FirstSeen(b[n].tables.findings[key], key, b[n].tables.observations[i]);
    ObservationsAreTraced(b, steps, n, i);
  }

  lemma {:induction false} PathLength(b: seq<System.State>, steps: seq<System.Step>)
    requires Execution(b, steps)
    ensures |b| == |steps| + 1
  {
    hide Initial;
  }
}
