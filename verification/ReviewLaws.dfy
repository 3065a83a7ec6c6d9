/** Who may do what on a review case, said by the case's history alone. */
module ReviewLaws {
  import opened Common
  import opened Strings
  import opened Lifecycle
  import opened ReviewCase
  import opened Ledger
  import opened FindingLaws
  import opened Histories
  import opened Decisions

  /** The person the current step is assigned to, or the empty string. */
  function AssignedTo(h: seq<CaseEvent>): string {
    if h == [] || Opens(h[|h| - 1]) || Is(h[|h| - 1], Advance) || Is(h[|h| - 1], Return) then ""
    else if Is(h[|h| - 1], Assign) then h[|h| - 1].call.assignee
    else AssignedTo(h[..|h| - 1])
  }

  /** The author of the latest advance since the latest opening, or the empty string. */
  function LatestAdvancer(h: seq<CaseEvent>): string {
    if h == [] || Opens(h[|h| - 1]) then ""
    else if Is(h[|h| - 1], Advance) then h[|h| - 1].call.actor
    else LatestAdvancer(h[..|h| - 1])
  }

  /** What the history says of the case row. */
  predicate RowSays(w: Workflow, c: Case, h: seq<CaseEvent>) {
    && c.assignee == AssignedTo(h) && c.lastActor == LatestAdvancer(h) && c.revision == 1 + |h|
    && (c.status == Closed <==> Position(h) == |w.steps|)
    && c.step == (if Position(h) == |w.steps| then |w.steps| - 1 else Position(h))
    && 0 <= Position(h) <= |w.steps|
  }

  lemma {:induction false} EventSays(w: Workflow, c: Case, h: seq<CaseEvent>, e: CaseEvent)
    requires Valid(w) && RowSays(w, c, h) && After(w, c, e).Some?
    ensures RowSays(w, After(w, c, e).value, h + [e])
  {
    hide NoteOk, ValidStep, TrimSpace;
    PositionStep(h, e);
    assert (h + [e])[..|h|] == h;
  }

  /** The whole case row is what its history says. */
  lemma {:induction false} RowOfHistory(w: Workflow, revision: nat, h: seq<CaseEvent>)
    requires Valid(w) && Replay(w, revision, h).Some?
    ensures RowSays(w, Replay(w, revision, h).value, h) && Replay(w, revision, h).value.workflow == revision
  {
    hide Act, RowSays, Valid;
    if h == [] {
      NothingSaid(w, revision);
    } else {
      var g, e := h[..|h| - 1], h[|h| - 1];
      RowOfHistory(w, revision, g);
      EventSays(w, Replay(w, revision, g).value, g, e);
      assert g + [e] == h;
      Accounting(w, revision, h);
    }
  }

  lemma {:induction false} NothingSaid(w: Workflow, revision: nat)
    requires Valid(w)
    ensures RowSays(w, Opened(revision), [])
  {
  }

  /** The step the case is at; only its role, and its assignee if it has one, may move it. */
  predicate MayMove(w: Workflow, h: seq<CaseEvent>, a: Call)
    requires 0 <= Position(h) < |w.steps|
  {
    w.steps[Position(h)].role in a.roles && AssignedTo(h) in {"", a.actor}
  }

  /** The calls that are accepted after a history. */
  predicate MayCall(w: Workflow, h: seq<CaseEvent>, a: Call)
    requires 0 <= Position(h) <= |w.steps|
  {
    && 3 <= |TrimSpace(a.note)| && |a.note| <= 4000
    && a.revision == 1 + |h|
    && if a.kind == Kind.Reopen then Position(h) == |w.steps| && "audit_manager" in a.roles
       else
         && Position(h) < |w.steps|
         && match a.kind
            case Assign =>
              && ("audit_manager" in a.roles || (MayMove(w, h, a) && a.assignee == a.actor))
              && (a.assignee == "" || a.qualified)
            case Return => MayMove(w, h, a) && Position(h) > 0
            case Advance =>
              && MayMove(w, h, a)
              && (w.steps[Position(h)].differentActor ==> LatestAdvancer(h) != a.actor)
              && (Position(h) == |w.steps| - 1 ==> a.resolution in {"accepted", "dismissed"})
            case _ => false
  }

  /** The state a call gives the finding. */
  function Gives(w: Workflow, h: seq<CaseEvent>, a: Call): string {
    if a.kind == Kind.Reopen then "in_review"
    else if a.kind == Advance && Position(h) == |w.steps| - 1 then a.resolution
    else ""
  }

  lemma {:induction false} ActIff(w: Workflow, c: Case, h: seq<CaseEvent>, a: Call)
    requires Valid(w) && RowSays(w, c, h)
    ensures Act(w, c, a).Ok? <==> MayCall(w, h, a)
    ensures Act(w, c, a).Ok? ==> var m := Act(w, c, a).value;
      (m.finding.Some? <==> Gives(w, h, a) != "") && (m.finding.Some? ==> Label(m.finding.value) == Gives(w, h, a))
  {
    hide TrimSpace, ValidStep, AssignedTo, LatestAdvancer, Position;
  }

  /**
   A call is accepted exactly when its note and revision are in order and: the
   manager reopens a closed case; or, on an open one, the manager, or a holder
   of the step's role for himself, assigns a qualified person; or a holder of
   the role, who is the assignee if there is one, returns the case from a step
   after the first, or advances it, not as the same person where the step asks
   for a different one, and with a resolution at the last step.
   */
  lemma {:induction false} AcceptedIff(w: Workflow, revision: nat, h: seq<CaseEvent>, a: Call)
    requires Valid(w) && Replay(w, revision, h).Some?
    ensures 0 <= Position(h) <= |w.steps|
    ensures Replay(w, revision, h + [ByUser(a)]).Some? <==> MayCall(w, h, a)
  {
    hide Act, MayCall, Valid;
    RowOfHistory(w, revision, h);
    ActIff(w, Replay(w, revision, h).value, h, a);
    ReplayStep(w, revision, h, ByUser(a));
  }

  // ----- on the tables -----

  lemma {:induction false} CaseOf(l: Tables, key: Key)
    requires TablesOk(l) && key in l.cases
    ensures var c, h := l.cases[key], CaseEventsOf(l.caseTrail, key);
      && key in l.findings && 1 <= c.workflow <= |l.workflows| && Valid(l.workflows[c.workflow - 1])
      && Replay(l.workflows[c.workflow - 1], c.workflow, h) == Some(c)
      && RowSays(l.workflows[c.workflow - 1], c, h)
  {
    hide Chained, Keyed, EventsOf, CaseEventsOf, RowSays, Valid;
    assert SliceOk(l.workflows, key, At(l, key));
    var c := l.cases[key];
    RowOfHistory(l.workflows[c.workflow - 1], c.workflow, CaseEventsOf(l.caseTrail, key));
  }

  /** What an accepted call leaves of the finding. */
  predicate Settled(before: Finding, after: Finding, g: seq<Event>, t: seq<Event>, a: Call, gives: string, now: int) {
    if gives == "" then after == before && t == g
    else
      && Label(after.state) == gives
      && after == before.(state := after.state, revision := before.revision + 1,
                          expiry := if a.kind == Kind.Reopen then before.expiry else None)
      && Adds(g, t, a.actor, if a.kind == Kind.Reopen then "workflow.reopen" else "workflow.close", a.note,
              before.state, after.state, now)
  }

  lemma {:induction false} ActSettles(w: seq<Workflow>, s: Slice, h: seq<CaseEvent>, key: Key, a: Call, now: int)
    requires s.finding.Some? && s.review.Some? && 1 <= s.review.value.workflow <= |w| && s.caseTrail == h
    requires Valid(w[s.review.value.workflow - 1]) && RowSays(w[s.review.value.workflow - 1], s.review.value, h)
    ensures var r, v := ActOnCase(w, s, key, a, now), w[s.review.value.workflow - 1];
      && (r.Ok? <==> MayCall(v, h, a))
      && (r.Ok? ==>
           && r.value.caseTrail == h + [ByUser(a)] && r.value.review.Some? && r.value.finding.Some?
           && Settled(s.finding.value, r.value.finding.value, s.trail, r.value.trail, a, Gives(v, h, a), now))
  {
    hide Act, RowSays, Position, HeadHash, TrimSpace, Valid;
    ActIff(w[s.review.value.workflow - 1], s.review.value, h, a);
    KindKnown(w[s.review.value.workflow - 1], s.review.value, a);
  }

  lemma {:induction false} KindKnown(w: Workflow, c: Case, a: Call)
    ensures Act(w, c, a).Ok? ==> NoteOk(a.note)
  {
  }

  /**
   A call on a case takes effect exactly when the history of the case admits
   it: the history grows by the call; the closing call gives the finding the
   state it names and clears its expiry, the reopening call puts it back in
   review, each with one trail row; other calls leave the finding alone.
   A call that is not admitted changes nothing.
   */
  lemma {:induction false} CallSucceedsIff(l: Tables, op: Op, m: Tables)
    requires TablesOk(l) && op.CaseCall? && FindingLaws.Commits(l, op, m)
    ensures op.key !in l.cases ==> At(m, op.key) == At(l, op.key)
    ensures op.key in l.cases ==>
      var c, h := l.cases[op.key], CaseEventsOf(l.caseTrail, op.key);
      && 1 <= c.workflow <= |l.workflows| && 0 <= Position(h) <= |l.workflows[c.workflow - 1].steps|
      && var w := l.workflows[c.workflow - 1];
         if MayCall(w, h, op.call) then
           && CaseEventsOf(m.caseTrail, op.key) == h + [ByUser(op.call)]
           && op.key in m.cases && op.key in l.findings && op.key in m.findings
           && Settled(l.findings[op.key], m.findings[op.key], EventsOf(l.trail, op.key), EventsOf(m.trail, op.key),
                op.call, Gives(w, h, op.call), op.now)
         else At(m, op.key) == At(l, op.key)
    ensures forall key :: key != op.key ==> At(m, key) == At(l, key)
  {
    hide TablesOk, ActOnCase, EventsOf, CaseEventsOf, Settled, MayCall, Replay, Valid, RowSays;
    assert CommitsTo(l, op, m, op.key);
    if op.key in l.cases {
      CaseOf(l, op.key);
      SaysPosition(l.workflows[l.cases[op.key].workflow - 1], l.cases[op.key], CaseEventsOf(l.caseTrail, op.key));
      ActSettles(l.workflows, At(l, op.key), CaseEventsOf(l.caseTrail, op.key), op.key, op.call, op.now);
    } else {
      NoCaseNoCall(l.workflows, At(l, op.key), op.key, op.call, op.now);
    }
    forall key | key != op.key
      ensures At(m, key) == At(l, key)
    {
      assert CommitsTo(l, op, m, key);
    }
  }

  lemma {:induction false} SaysPosition(w: Workflow, c: Case, h: seq<CaseEvent>)
    requires RowSays(w, c, h)
    ensures 0 <= Position(h) <= |w.steps|
  {
  }

  lemma {:induction false} NoCaseNoCall(w: seq<Workflow>, s: Slice, key: Key, a: Call, now: int)
    requires s.review.None?
    ensures ActOnCase(w, s, key, a, now).Err?
  {
  }

  /** In every reachable state, every case row is what the case's history says. */
  lemma {:induction false} CaseRowsSay(b: seq<Tables>, n: nat, key: Key)
    requires Behaviour(b) && n < |b| && key in b[n].cases
    ensures var c, h := b[n].cases[key], CaseEventsOf(b[n].caseTrail, key);
      1 <= c.workflow <= |b[n].workflows| && RowSays(b[n].workflows[c.workflow - 1], c, h)
  {
    hide TablesOk, CaseEventsOf, RowSays, Replay;
    AlwaysOk(b, n);
    CaseOf(b[n], key);
  }
}
