/** Which findings are in review, in which workflow, and where every finding comes from. */
module Enrolment {
  import opened Common
  import opened Identity
  import opened Lifecycle
  import opened ReviewCase
  import opened Candidates
  import opened Ledger
  import opened FindingLaws
  import opened RunLaws
  import opened Histories
  import opened RunAnswers
  import opened Decisions

  // ----- cases -----

  /** An active finding has a case, once there is a workflow. */
  predicate Enrolled(w: seq<Workflow>, s: Slice) {
    w != [] && s.State() in {Open, InReview, Reopened} ==> s.review.Some?
  }

  lemma {:induction false} PersonEnrols(w: seq<Workflow>, op: Op, key: Key, s: Slice)
    requires (op.Disposal? || op.Remark? || op.Publication?) && Enrolled(w, s)
    ensures Enrolled(WorkflowsAfter(w, op), SliceAfter(w, op, key, s))
  {
    hide Dispose, Comment, NewEvent;
    if op.Disposal? {
      DisposeIff(s, op);
    } else if op.Remark? {
      CommentIff(s, op.key, op.actor, op.body, op.now);
    }
  }

  lemma {:induction false} CallEnrols(w: seq<Workflow>, s: Slice, key: Key, call: Call, now: int)
    requires Enrolled(w, s)
    ensures Enrolled(w, OrSame(ActOnCase(w, s, key, call, now), s))
  {
    hide Act, NewEvent, NoteOk;
  }

  lemma {:induction false} RunEnrols(w: seq<Workflow>, s: Slice, key: Key, ctx: RunContext, rows: seq<Row>)
    requires StatesAgree(s) && Enrolled(w, s)
    ensures Enrolled(w, RunSlice(w, ctx, rows, key, s))
  {
    hide NewEvent, Consumed, RowFor, ExceptionKey;
    if RowFor(ctx, rows, key).Some? {
      ObserveShape(w, s, ctx, RowFor(ctx, rows, key).value);
    }
  }

  lemma {:induction false} CommitEnrols(l: Tables, op: Op, m: Tables, key: Key)
    requires TablesOk(l) && FindingLaws.Commits(l, op, m) && Enrolled(l.workflows, At(l, key))
    ensures Enrolled(m.workflows, At(m, key))
  {
    hide At, Chained, CaseReplays, Keyed, RunSlice, ActOnCase, Dispose, Comment, Publish, Enrolled;
    var s := At(l, key);
    assert SliceOk(l.workflows, key, s) && CommitsTo(l, op, m, key);
    match op {
      case Run(ctx, rows) => RunEnrols(l.workflows, s, key, ctx, rows);
      case CaseCall(k, call, now) => CallEnrols(l.workflows, s, key, call, now);
      case _ => PersonEnrols(l.workflows, op, key, s);
    }
  }

  lemma {:induction false} AlwaysEnrolled(b: seq<Tables>, n: nat, key: Key)
    requires Behaviour(b) && n < |b|
    ensures Enrolled(b[n].workflows, At(b[n], key))
  {
    hide TablesOk, FindingLaws.Commits, At, Enrolled;
    if n == 0 {
      NoWorkflow(key);
    } else {
      AlwaysEnrolled(b, n - 1, key);
      AlwaysOk(b, n - 1);
      assert StepAt(b, n - 1);
      if b[n] != b[n - 1] {
        var op :| FindingLaws.Commits(b[n - 1], op, b[n]);
        CommitEnrols(b[n - 1], op, b[n], key);
      }
    }
  }

  lemma {:induction false} NoWorkflow(key: Key)
    ensures Enrolled(EMPTY.workflows, At(EMPTY, key))
  {
  }

  /** In every reachable state with a workflow, every active finding has a case. */
  lemma {:induction false} ActiveHaveCases(b: seq<Tables>, n: nat, key: Key)
    requires Behaviour(b) && n < |b| && b[n].workflows != [] && key in b[n].findings
    requires b[n].findings[key].state in {Open, InReview, Reopened}
    ensures key in b[n].cases
  {
    hide EventsOf, CaseEventsOf;
    AlwaysEnrolled(b, n, key);
  }

  /** A new case is in the latest workflow, at its first step, unassigned; it comes from a run or a publication. */
  predicate CaseChange(w: seq<Workflow>, op: Op, s: Slice, t: Slice) {
    if t.review == s.review then true
    else if s.review.None? then
      && (op.Run? || op.Publication?) && w != []
      && t.review == Some(Case(|w|, 0, Ongoing, "", "", 1))
      && t.caseTrail == s.caseTrail
    else op.CaseCall?
  }

  lemma {:induction false} CaseChanges(w: seq<Workflow>, op: Op, key: Key, s: Slice)
    requires StatesAgree(s)
    ensures CaseChange(WorkflowsAfter(w, op), op, s, SliceAfter(w, op, key, s))
  {
    hide NewEvent, Consumed, RowFor, ExceptionKey, Act, Dispose, Comment, NoteOk;
    if op.Disposal? {
      DisposeIff(s, op);
    } else if op.Remark? {
      CommentIff(s, op.key, op.actor, op.body, op.now);
    } else if op.Run? && RowFor(op.ctx, op.rows, key).Some? {
      ObserveShape(w, s, op.ctx, RowFor(op.ctx, op.rows, key).value);
    }
  }

  /**
   A transaction that adds a case adds it in the latest workflow, at the first
   step and with an empty history; a case that is there changes by calls only.
   */
  lemma {:induction false} NewCasesAreLatest(l: Tables, op: Op, m: Tables, key: Key)
    requires TablesOk(l) && FindingLaws.Commits(l, op, m)
    ensures CaseChange(m.workflows, op, At(l, key), At(m, key))
  {
    hide At, Chained, CaseReplays, Keyed, SliceAfter, StatesAgree, CaseChange;
    assert SliceOk(l.workflows, key, At(l, key)) && CommitsTo(l, op, m, key);
    CaseChanges(l.workflows, op, key, At(l, key));
  }

  /** After a run, every finding it flagged has a case, once there is a workflow. */
  lemma {:induction false} FlaggedHaveCases(l: Tables, m: Tables, ctx: RunContext, rows: seq<Row>, i: nat)
    requires TablesOk(l) && FindingLaws.Commits(l, Run(ctx, rows), m) && i < |rows| && l.workflows != []
    ensures KeyOf(ctx, rows[i].candidate) in m.cases
  {
    hide TablesOk, FindingLaws.Commits, Observe, StatesAgree, KeyOf, EventsOf, CaseEventsOf;
    FlaggedAt(l, m, ctx, rows, i);
    ObserveShape(l.workflows, At(l, KeyOf(ctx, rows[i].candidate)), ctx, rows[i]);
  }

  /** Published workflows are never rewritten, and a case stays in the one it was opened in. */
  lemma {:induction false} PinnedForEver(b: seq<Tables>, i: nat, j: nat, key: Key)
    requires Behaviour(b) && i <= j < |b|
    ensures b[i].workflows <= b[j].workflows
    ensures key in b[i].cases ==> key in b[j].cases && b[j].cases[key].workflow == b[i].cases[key].workflow
  {
    hide TablesOk, FindingLaws.Commits, EventsOf, CaseEventsOf;
    if i < j {
      PinnedForEver(b, i, j - 1, key);
      AlwaysOk(b, j - 1);
      StepEvolves(b, j - 1, key);
      assert StepAt(b, j - 1);
      if b[j] != b[j - 1] {
        var op :| FindingLaws.Commits(b[j - 1], op, b[j]);
        WorkflowsGrow(b[j - 1], op, b[j]);
      }
    }
  }

  lemma {:induction false} WorkflowsGrow(l: Tables, op: Op, m: Tables)
    requires FindingLaws.Commits(l, op, m)
    ensures l.workflows <= m.workflows
    ensures m.workflows != l.workflows ==>
      op.Publication? && m.workflows == l.workflows + [op.workflow] && Valid(op.workflow)
      && op.expected == |l.workflows|
  {
    hide CommitsTo, Valid;
  }

  // ----- where findings come from -----

  /** An observation that found the finding for the first time, on the evidence its row records. */
  predicate FirstSeen(f: Finding, key: Key, o: Observation) {
    && o.key == key && o.verdict == "new" && o.rule == f.rule
    && o.run == f.origin.snapshot && o.version == f.origin.version && o.params == f.origin.params
    && o.inputHash == f.origin.inputHash && o.inputHash == OfInput(o.input)
  }

  ghost predicate Sighted(l: Tables, key: Key) {
    key in l.findings ==> exists i :: 0 <= i < |l.observations| && FirstSeen(l.findings[key], key, l.observations[i])
  }

  lemma {:induction false} RunSights(l: Tables, m: Tables, ctx: RunContext, rows: seq<Row>, key: Key)
    requires TablesOk(l) && FindingLaws.Commits(l, Run(ctx, rows), m) && key in m.findings && key !in l.findings
    ensures Sighted(m, key)
  {
    hide TablesOk, FindingLaws.Commits, At, KeyOf, Consumed, RunAnswers.RunRecords, NamedBy;
    if !Flagged(ctx, rows, key) {
      UnflaggedAnswers(l, m, ctx, rows, key);
      assert false;
    }
    var i :| 0 <= i < |rows| && KeyOf(ctx, rows[i].candidate) == key;
    FlaggedRow(l, m, ctx, rows, i);
    FlaggedRecords(l, m, ctx, rows, i);
    NewIsNamed(l, key, m.observations[|l.observations| + i].verdict, m.findings[key].state,
      OfInput(Consumed(rows[i].candidate.input)));
    assert FirstSeen(m.findings[key], key, m.observations[|l.observations| + i]);
  }

  lemma {:induction false} NewIsNamed(l: Tables, key: Key, text: string, after: State, hash: Digest)
    requires key !in l.findings && NamedBy(text, At(l, key).finding, after, hash)
    ensures text == "new"
  {
  }

  lemma {:induction false} OnlyRunsAdd(w: seq<Workflow>, op: Op, key: Key, s: Slice)
    requires !op.Run? && s.finding.None?
    ensures SliceAfter(w, op, key, s).finding.None?
  {
  }

  lemma {:induction false} OriginKept(l: Tables, op: Op, m: Tables, key: Key)
    requires TablesOk(l) && FindingLaws.Commits(l, op, m)
    ensures key in l.findings ==> key in m.findings && Succeeds(l.findings[key], m.findings[key])
    ensures l.observations <= m.observations
    ensures key !in l.findings && key in m.findings ==> op.Run?
  {
    hide TablesOk, EventsOf, CaseEventsOf, SliceAfter;
    CommitEvolves(l, op, m, key);
    assert CommitsTo(l, op, m, key);
    if !op.Run? && key !in l.findings {
      OnlyRunsAdd(l.workflows, op, key, At(l, key));
    }
  }

  /**
   In every reachable state, every finding was first seen by an observation
   under its key, by the run, rule version and parameters and on the input that
   its row records.
   */
  lemma {:induction false} EveryFindingWasObserved(b: seq<Tables>, n: nat, key: Key)
    requires Behaviour(b) && n < |b|
    ensures Sighted(b[n], key)
  {
    hide TablesOk, FindingLaws.Commits, FirstSeen;
    if n > 0 {
      EveryFindingWasObserved(b, n - 1, key);
      AlwaysOk(b, n - 1);
      assert StepAt(b, n - 1);
      if b[n] != b[n - 1] {
        var op :| FindingLaws.Commits(b[n - 1], op, b[n]);
        SightedStays(b[n - 1], op, b[n], key);
      }
    }
  }

  lemma {:induction false} SightedStays(l: Tables, op: Op, m: Tables, key: Key)
    requires TablesOk(l) && FindingLaws.Commits(l, op, m) && Sighted(l, key)
    ensures Sighted(m, key)
  {
    hide TablesOk, FindingLaws.Commits;
    OriginKept(l, op, m, key);
    if key in l.findings {
      var i :| 0 <= i < |l.observations| && FirstSeen(l.findings[key], key, l.observations[i]);
      assert FirstSeen(m.findings[key], key, m.observations[i]);
    } else if key in m.findings {
      RunSights(l, m, op.ctx, op.rows, key);
    }
  }
}
