/**
 Executions of the whole system: any number of workers, any interleaving with
 submissions, people and configuration, and crashes at any point.
 */
module Executions {
  import opened Common
  import opened Populations
  import opened Reconciliation
  import opened Ledger
  import opened FindingLaws
  import opened Histories
  import opened Analysis
  import opened AnalysisLaws
  import opened SnapshotStore
  import opened System
  import opened SystemLaws

  ghost predicate TakesStep(b: seq<System.State>, steps: seq<System.Step>, i: int)
    requires 0 <= i < |steps| < |b|
  {
    Next(b[i], steps[i], b[i + 1])
  }

  /** Consecutive states, each reached from the one before by one step. */
  ghost predicate Path(b: seq<System.State>, steps: seq<System.Step>) {
    |b| == |steps| + 1 && forall i :: 0 <= i < |steps| ==> TakesStep(b, steps, i)
  }

  ghost predicate Execution(b: seq<System.State>, steps: seq<System.Step>) {
    Path(b, steps) && Initial(b[0])
  }

  lemma {:induction false} ExecutionGrows(b: seq<System.State>, steps: seq<System.Step>, step: System.Step,
      t: System.State)
    requires Execution(b, steps) && Next(b[|b| - 1], step, t)
    ensures Execution(b + [t], steps + [step])
  {
    hide Next, Initial;
    var c, more := b + [t], steps + [step];
    forall i | 0 <= i < |more|
      ensures TakesStep(c, more, i)
    {
      if i < |steps| { assert TakesStep(b, steps, i); }
    }
  }

  lemma {:induction false} InitialInv(s: System.State)
    requires Initial(s)
    ensures Inv(s)
  {
    hide SliceOk;
    EmptyOk();
  }

  lemma {:induction false} ReachableInv(b: seq<System.State>, steps: seq<System.Step>, n: nat)
    requires Execution(b, steps) && n < |b|
    ensures Inv(b[n])
  {
    hide Inv, Next;
    if n == 0 {
      InitialInv(b[0]);
    } else {
      ReachableInv(b, steps, n - 1);
      assert TakesStep(b, steps, n - 1);
      StepKeeps(b[n - 1], steps[n - 1], b[n]);
    }
  }

  // ----- what no step undoes -----

  predicate RunsKept(s: System.State, t: System.State) {
    forall r :: r in s.runs ==>
      r in t.runs && t.runs[r].payload == s.runs[r].payload && t.runs[r].receipt == s.runs[r].receipt
  }

  predicate FilesKept(s: System.State, t: System.State) {
    forall ref :: ref in s.files ==> ref in t.files && t.files[ref] == s.files[ref]
  }

  ghost predicate Kept(s: System.State, t: System.State) {
    && s.commits <= t.commits && RunsKept(s, t) && FilesKept(s, t)
    && (forall x :: x in s.receipts ==> x in t.receipts && t.receipts[x] == s.receipts[x])
    && (forall r :: r in s.snapshots ==> r in t.snapshots && t.snapshots[r] == s.snapshots[r])
  }

  lemma {:induction false} EnqueuedKept(s: System.State, p: Population, receipt: Option<string>, id: nat, now: int)
    requires id !in s.runs && (receipt.Some? ==> receipt.value !in s.receipts)
    ensures Kept(s, Enqueued(s, p, receipt, id, now)) && Enqueued(s, p, receipt, id, now).tables == s.tables
  {
  }

  lemma {:induction false} SubmitKept(s: System.State, p: Population, receipt: Option<string>, id: nat, now: int)
    requires id !in s.runs
    ensures Kept(s, SubmitAfter(s, p, receipt, id, now))
    ensures SubmitAfter(s, p, receipt, id, now).tables == s.tables
  {
    hide SubmitResult, Enqueued, Kept;
    KeptReflexive(s, s);
    if receipt.None? || receipt.value !in s.receipts {
      EnqueuedKept(s, p, receipt, id, now);
    }
  }

  lemma {:induction false} KeptReflexive(s: System.State, t: System.State)
    requires t.commits == s.commits && t.runs == s.runs && t.files == s.files && t.receipts == s.receipts
      && t.snapshots == s.snapshots
    ensures Kept(s, t)
  {
  }

  lemma {:induction false} OrdinaryStepKeeps(s: System.State, step: System.Step, t: System.State)
    requires Next(s, step, t) && (step.Submit? || step.Configure? || step.Human?)
    ensures Kept(s, t) && Changes(s.tables, t.tables)
  {
    hide WorkerNext, CommitNext, FindingLaws.Commits, SubmitResult, SubmitAfter, Kept, VersionsAccepted;
    if step.Submit? {
      SubmitKept(s, step.population, step.receipt, step.id, step.now);
    } else {
      KeptReflexive(s, t);
    }
  }

  lemma {:induction false} CommitKept(s: System.State, step: System.Step, t: System.State)
    requires Inv(s) && step.Commit? && CommitNext(s, step, t)
    ensures Kept(s, t) && Changes(s.tables, t.tables)
  {
    hide Inv, Analyse, FindingLaws.Commits, Reconciled, ContextOf;
    CommitStep(s, step, t);
  }

  lemma {:induction false} StepKeepsRecord(s: System.State, step: System.Step, t: System.State)
    requires Inv(s) && Next(s, step, t)
    ensures Kept(s, t) && Changes(s.tables, t.tables)
  {
    hide Inv, CommitNext, WorkerNext, Changes, SubmitAfter;
    if WorkerStep(step) {
      WorkerStepFrame(s, step, t);
      NoChange(s.tables);
    } else if step.Commit? {
      CommitKept(s, step, t);
    } else {
      OrdinaryStepKeeps(s, step, t);
    }
  }

  lemma {:induction false} NoChange(l: Tables)
    ensures Changes(l, l)
  {
  }

  lemma {:induction false} PathKeeps(b: seq<System.State>, steps: seq<System.Step>, i: nat, j: nat)
    requires Execution(b, steps) && i <= j < |b|
    ensures Kept(b[i], b[j])
  {
    hide Next, Inv;
    if i < j {
      PathKeeps(b, steps, i, j - 1);
      ReachableInv(b, steps, j - 1);
      assert TakesStep(b, steps, j - 1);
      StepKeepsRecord(b[j - 1], steps[j - 1], b[j]);
    }
  }

  // ----- at most once -----

  function CommittedRun(s: System.State, step: System.Step): nat
    requires step.Commit? && WorkerOf(s, step.worker).Working?
  {
    WorkerOf(s, step.worker).run
  }

  /**
   Each run's effects commit at most once, and the population they rest on
   tied out, whatever the workers, the interleaving and the crashes.
   */
  lemma {:induction false} CommitsAtMostOnce(b: seq<System.State>, steps: seq<System.Step>, i: nat, j: nat)
    requires Execution(b, steps) && i < j < |steps| && steps[i].Commit? && steps[j].Commit?
    ensures WorkerOf(b[i], steps[i].worker).Working? && WorkerOf(b[j], steps[j].worker).Working?
    ensures CommittedRun(b[i], steps[i]) != CommittedRun(b[j], steps[j])
    ensures var run := CommittedRun(b[i], steps[i]);
      run in b[j].runs && TiesOut(b[j].runs[run].payload.population, [])
  {
    hide Inv, OutcomeOf, FindingLaws.Commits, TiesOut, CommitNext, Kept, Initial;
    assert TakesStep(b, steps, i) && TakesStep(b, steps, j);
    ReachableInv(b, steps, i);
    ReachableInv(b, steps, j);
    CommitStep(b[i], steps[i], b[i + 1]);
    CommitStep(b[j], steps[j], b[j + 1]);
    PathKeeps(b, steps, i + 1, j);
    KeptCommits(b[i + 1], b[j]);
    assert b[i + 1].commits[|b[i].commits|] == CommittedRun(b[i], steps[i]);
    InvTies(b[j], CommittedRun(b[i], steps[i]));
  }

  lemma {:induction false} KeptCommits(s: System.State, t: System.State)
    requires Kept(s, t)
    ensures s.commits <= t.commits
  {
  }

  /** After an accepted submission the receipt's entry is the answer. */
  lemma {:induction false} SubmitEntersReceipt(s: System.State, p: Population, x: string, id: nat, now: int)
    requires SubmitResult(s, p, Some(x), id).Ok?
    ensures var t := SubmitAfter(s, p, Some(x), id, now);
      x in t.receipts && SubmitResult(s, p, Some(x), id) == Ok(t.receipts[x])
  {
    hide Populations.Valid;
  }

  lemma {:induction false} KnownReceiptAnswers(s: System.State, p: Population, x: string, id: nat)
    requires x in s.receipts && SubmitResult(s, p, Some(x), id).Ok?
    ensures SubmitResult(s, p, Some(x), id) == Ok(s.receipts[x])
  {
    hide Populations.Valid;
  }

  lemma {:induction false} ReceiptHasOneRun(s: System.State, x: string)
    requires Inv(s) && x in s.receipts
    ensures forall q :: q in s.runs ==> (s.runs[q].receipt == Some(x) <==> q == s.receipts[x])
    ensures s.receipts[x] in s.runs
  {
    hide TablesOk, TiedOut, Stored, Settled, Exclusive, WorkersOk, Addressed, VersionsAccepted;
  }

  /** A receipt always answers with the id of its one run, the only one that bears it. */
  lemma {:induction false} ReceiptAnswersOneRun(b: seq<System.State>, steps: seq<System.Step>, i: nat, j: nat,
      x: string)
    requires Execution(b, steps) && i < j < |steps| && steps[i].Submit? && steps[j].Submit?
    requires steps[i].receipt == Some(x) && steps[j].receipt == Some(x)
    requires SubmitResult(b[i], steps[i].population, Some(x), steps[i].id).Ok?
    requires SubmitResult(b[j], steps[j].population, Some(x), steps[j].id).Ok?
    ensures SubmitResult(b[i], steps[i].population, Some(x), steps[i].id) ==
            SubmitResult(b[j], steps[j].population, Some(x), steps[j].id)
    ensures forall q :: q in b[j].runs ==>
      (b[j].runs[q].receipt == Some(x) <==> SubmitResult(b[i], steps[i].population, Some(x), steps[i].id) == Ok(q))
  {
    hide Inv, SubmitResult, SubmitAfter, FilesKept, RunsKept, WorkerNext, CommitNext;
    assert TakesStep(b, steps, i);
    SubmitEntersReceipt(b[i], steps[i].population, x, steps[i].id, steps[i].now);
    PathKeeps(b, steps, i + 1, j);
    KnownReceiptAnswers(b[j], steps[j].population, x, steps[j].id);
    ReachableInv(b, steps, j);
    ReceiptHasOneRun(b[j], x);
  }

  /** A landed file is applied at most once: no two commits belong to the same receipt. */
  lemma {:induction false} LandedAtMostOnce(b: seq<System.State>, steps: seq<System.Step>, i: nat, j: nat)
    requires Execution(b, steps) && i < j < |steps| && steps[i].Commit? && steps[j].Commit?
    ensures WorkerOf(b[i], steps[i].worker).Working? && WorkerOf(b[j], steps[j].worker).Working?
    ensures var r, q := CommittedRun(b[i], steps[i]), CommittedRun(b[j], steps[j]);
      r in b[j].runs && q in b[j].runs && (b[j].runs[r].receipt.Some? ==> b[j].runs[r].receipt != b[j].runs[q].receipt)
  {
    hide Analyse, FindingLaws.Commits, Reconciled, TiesOut, TablesOk, Exclusive, Stored, Addressed, VersionsAccepted,
         Settled;
    assert TakesStep(b, steps, i) && TakesStep(b, steps, j);
    ReachableInv(b, steps, j);
    CommitsAtMostOnce(b, steps, i, j);
  }

  lemma {:induction false} SnapshotStored(s: System.State, run: nat)
    requires Inv(s) && run in s.snapshots
    ensures Addressed(s.files) && run in s.runs && s.snapshots[run] in s.files
    ensures s.snapshots[run] == RefOf(TENANT, run, s.runs[run].payload.population.records)
  {
    hide TiesOut, TablesOk, Exclusive, VersionsAccepted, Addressed, RefOf;
  }

  /**
   A completed run's snapshot can be read for ever after, by its tenant and
   nobody else, and is exactly the population it was computed from.
   */
  lemma {:induction false} SnapshotsReplay(b: seq<System.State>, steps: seq<System.Step>, i: nat, j: nat, run: nat,
      reader: string)
    requires Execution(b, steps) && i <= j < |b| && run in b[i].snapshots
    ensures run in b[j].snapshots && b[j].snapshots[run] == b[i].snapshots[run] && run in b[i].runs
    ensures b[j].snapshots[run] in b[j].files
    ensures b[j].files[b[j].snapshots[run]] == Encoded(b[i].runs[run].payload.population.records)
    ensures Read(b[j].files, reader, b[j].snapshots[run], b[j].snapshots[run].hash) ==
      if reader == TENANT then Some(Encoded(b[i].runs[run].payload.population.records)) else None
  {
    hide Inv, Addressed, Next;
    ReachableInv(b, steps, i);
    ReachableInv(b, steps, j);
    PathKeeps(b, steps, i, j);
    SnapshotStored(b[i], run);
    SnapshotStored(b[j], run);
    SnapshotReads(b[j].files, reader, TENANT, run, b[i].runs[run].payload.population.records);
    SnapshotReads(b[j].files, TENANT, TENANT, run, b[i].runs[run].payload.population.records);
  }

  // ----- the findings over time -----

  function TablesOver(b: seq<System.State>): seq<Tables> {
    seq(|b|, i requires 0 <= i < |b| => b[i].tables)
  }

  /** Everything proved of histories of transactions holds of every execution. */
  lemma {:induction false} FindingsBehave(b: seq<System.State>, steps: seq<System.Step>)
    requires Execution(b, steps)
    ensures Behaviour(TablesOver(b))
  {
    hide Next, Inv;
    var c := TablesOver(b);
    forall i | 0 <= i < |c| - 1
      ensures StepAt(c, i)
    {
      ReachableInv(b, steps, i);
      assert TakesStep(b, steps, i);
      StepKeepsRecord(b[i], steps[i], b[i + 1]);
    }
  }

  // ----- halts, crashes and retries -----

  /** Steps of workers that commit nothing: stages, snapshots, halts, failure records and crashes. */
  ghost predicate Uncommitted(b: seq<System.State>, steps: seq<System.Step>) {
    Path(b, steps) && forall i :: 0 <= i < |steps| ==> WorkerStep(steps[i])
  }

  /**
   A run that halts or crashes leaves findings, trail, observations, cases,
   watermarks and snapshots records as they were, and loses no file.
   */
  lemma {:induction false} HaltsLeaveNoTrace(b: seq<System.State>, steps: seq<System.Step>, n: nat)
    requires Uncommitted(b, steps) && n < |b|
    ensures b[n].tables == b[0].tables && b[n].watermarks == b[0].watermarks && b[n].snapshots == b[0].snapshots
    ensures b[n].commits == b[0].commits && b[n].versions == b[0].versions && b[n].receipts == b[0].receipts
    ensures SamePayloads(b[0], b[n]) && FilesKept(b[0], b[n])
  {
    hide WorkerNext, CommitNext, SubmitAfter;
    if n > 0 {
      HaltsLeaveNoTrace(b, steps, n - 1);
      assert TakesStep(b, steps, n - 1);
      WorkerStepFrame(b[n - 1], steps[n - 1], b[n]);
    }
  }
}
