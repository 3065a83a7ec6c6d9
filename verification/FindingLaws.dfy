/**
 What every transaction on the findings keeps, and what holds over whole
 histories of transactions.
 */
module FindingLaws {
  import opened Common
  import opened Identity
  import opened Lifecycle
  import opened ReviewCase
  import opened Candidates
  import opened Ledger

  // ----- transactions -----

  datatype Op =
    | Disposal(key: Key, actor: string, reason: string, to: State, expected: int, expiry: Option<int>, now: int)
    | Remark(key: Key, actor: string, body: string, now: int)
    | CaseCall(key: Key, call: Call, now: int)
    | Publication(workflow: Workflow, expected: int)
    | Run(ctx: RunContext, rows: seq<Row>)

  function OrSame(r: Result<Slice, ReviewCase.Error>, s: Slice): Slice {
    match r case Ok(t) => t case Err(_) => s
  }

  predicate Publishes(w: seq<Workflow>, op: Op)
    requires op.Publication?
  {
    Valid(op.workflow) && op.expected == |w|
  }

  /** What a transaction does to the finding `key`; a rejected call changes nothing. */
  function SliceAfter(w: seq<Workflow>, op: Op, key: Key, s: Slice): Slice {
    match op
    case Disposal(k, actor, reason, to, expected, expiry, now) =>
      if k == key then OrSame(Dispose(s, k, actor, reason, to, expected, expiry, now), s) else s
    case Remark(k, actor, body, now) =>
      if k == key then OrSame(Comment(s, k, actor, body, now), s) else s
    case CaseCall(k, call, now) =>
      if k == key then OrSame(ActOnCase(w, s, k, call, now), s) else s
    case Publication(_, _) =>
      if Publishes(w, op) then Publish(s, |w| + 1) else s
    case Run(ctx, rows) => RunSlice(w, ctx, rows, key, s)
  }

  function WorkflowsAfter(w: seq<Workflow>, op: Op): seq<Workflow> {
    if op.Publication? && Publishes(w, op) then w + [op.workflow] else w
  }

  /** Candidates name their rule, entity and source in identity-safe text. */
  ghost predicate Sourced(entityId: string, source: string) {
    exists ids :: AllValid(ids) && entityId == EntityID(source, ids)
  }

  ghost predicate ValidRows(ctx: RunContext, rows: seq<Row>) {
    && ValidID(ctx.source) && ValidID(ctx.period)
    && DistinctKeys(ctx, rows)
    && forall i :: 0 <= i < |rows| ==>
         var c := rows[i].candidate;
         c.rule in ctx.scope && KeyPart(c.rule) && KeyPart(c.entity) && Sourced(c.entityId, ctx.source)
  }

  predicate CommitsTo(l: Tables, op: Op, m: Tables, key: Key) {
    At(m, key) == SliceAfter(l.workflows, op, key, At(l, key))
  }

  /** One committed transaction, from `l` to `m`. */
  ghost predicate Commits(l: Tables, op: Op, m: Tables) {
    && m.workflows == WorkflowsAfter(l.workflows, op)
    && l.trail <= m.trail && l.caseTrail <= m.caseTrail
    && m.observations == l.observations + (if op.Run? then Observations(l, op.ctx, op.rows) else [])
    && (op.Run? ==> ValidRows(op.ctx, op.rows))
    && forall key :: CommitsTo(l, op, m, key)
  }

  // ----- invariants -----

  /** Row `i` continues from the state and the hash that the row before it left. */
  predicate Linked(key: Key, h: seq<Event>, i: int)
    requires 0 <= i < |h|
  {
    && h[i].key == key && h[i].id == i
    && h[i].from == LastState(h[..i])
    && h[i].previous == HeadHash(h[..i])
    && h[i].hash == Hashed(h[i])
  }

  /** The trail replays, from the empty state and the empty hash on. */
  predicate Chained(key: Key, h: seq<Event>) {
    forall i :: 0 <= i < |h| ==> Linked(key, h, i)
  }

  /** The case row is the replay of the case history under the workflow it is pinned to. */
  predicate CaseReplays(w: seq<Workflow>, review: Option<Case>, h: seq<CaseEvent>) {
    match review
    case None => h == []
    case Some(c) => 1 <= c.workflow <= |w| && Replay(w[c.workflow - 1], c.workflow, h) == Some(c)
  }

  predicate StatesAgree(s: Slice) {
    && (s.finding.None? ==> s.review.None?)
    && (s.finding.Some? ==> s.State() != Absent)
    && (s.review.Some? && s.review.value.status == Closed ==> s.State() in {Accepted, Dismissed})
    && (s.State() == Suppressed ==> s.finding.value.expiry.Some?)
  }

  ghost predicate Keyed(key: Key, f: Finding) {
    && ValidID(f.source) && Sourced(f.entityId, f.source)
    && KeyPart(f.rule) && KeyPart(f.entity) && KeyPart(f.period)
    && key == ExceptionKey(f.rule, f.entity, f.entityId, f.period)
  }

  ghost predicate SliceOk(w: seq<Workflow>, key: Key, s: Slice) {
    && Chained(key, s.trail) && LastState(s.trail) == s.State()
    && CaseReplays(w, s.review, s.caseTrail)
    && StatesAgree(s)
    && (s.finding.Some? ==> Keyed(key, s.finding.value))
  }

  ghost predicate TablesOk(l: Tables) {
    && (forall i :: 0 <= i < |l.workflows| ==> Valid(l.workflows[i]))
    && forall key :: SliceOk(l.workflows, key, At(l, key))
  }

  lemma {:induction false} LogKeeps(s: Slice, key: Key, actor: string, action: string, reason: string, from: State,
      to: State, at: int)
    requires Chained(key, s.trail) && LastState(s.trail) == from
    ensures var t := Log(s, key, actor, action, reason, from, to, at);
      Chained(key, t.trail) && LastState(t.trail) == to
  {
    var t := Log(s, key, actor, action, reason, from, to, at);
    forall i | 0 <= i < |t.trail|
      ensures Linked(key, t.trail, i)
    {
      assert t.trail[..i] == s.trail[..i];
      if i < |s.trail| {
        assert Linked(key, s.trail, i);
      } else {
        assert s.trail[..i] == s.trail;
      }
    }
  }

  lemma {:induction false} DisposeKeeps(w: seq<Workflow>, s: Slice, op: Op)
    requires op.Disposal? && SliceOk(w, op.key, s)
    ensures SliceOk(w, op.key, SliceAfter(w, op, op.key, s))
  {
    hide Linked, Sourced, ExceptionKey, CaseReplays;
    if Dispose(s, op.key, op.actor, op.reason, op.to, op.expected, op.expiry, op.now).Ok? {
      var f := s.finding.value;
      var t := s.(finding := Some(f.(state := op.to, expiry := op.expiry, revision := f.revision + 1)));
      LogKeeps(t, op.key, op.actor, "disposition", op.reason, f.state, op.to, op.now);
    }
  }

  lemma {:induction false} CommentKeeps(w: seq<Workflow>, s: Slice, op: Op)
    requires op.Remark? && SliceOk(w, op.key, s)
    ensures SliceOk(w, op.key, SliceAfter(w, op, op.key, s))
  {
    hide Linked, Sourced, ExceptionKey, CaseReplays;
    LogKeeps(s, op.key, op.actor, "comment", op.body, s.State(), s.State(), op.now);
  }

  lemma {:induction false} ActKeepsCase(w: seq<Workflow>, s: Slice, call: Call, m: Move)
    requires CaseReplays(w, s.review, s.caseTrail) && s.review.Some?
    requires Act(w[s.review.value.workflow - 1], s.review.value, call) == Ok(m)
    ensures CaseReplays(w, Some(m.after), s.caseTrail + [ByUser(call)])
    ensures m.after.status == Closed <==> m.finding.Some? && call.kind != ReviewCase.Reopen
    ensures m.finding.Some? && call.kind != ReviewCase.Reopen ==> m.finding.value in {Accepted, Dismissed}
    ensures m.finding.Some? && call.kind == ReviewCase.Reopen ==> m.finding.value == InReview
    ensures m.finding.None? ==> s.review.value.status == Ongoing
  {
    var c := s.review.value;
    ReplayStep(w[c.workflow - 1], c.workflow, s.caseTrail, ByUser(call));
  }

  lemma {:induction false} ActKeeps(w: seq<Workflow>, s: Slice, op: Op)
    requires op.CaseCall? && SliceOk(w, op.key, s)
    ensures SliceOk(w, op.key, SliceAfter(w, op, op.key, s))
  {
    hide Linked, Sourced, ExceptionKey, Act, CaseReplays;
    if ActOnCase(w, s, op.key, op.call, op.now).Ok? {
      var f, c := s.finding.value, s.review.value;
      var m := Act(w[c.workflow - 1], c, op.call).value;
      ActKeepsCase(w, s, op.call, m);
      if m.finding.Some? {
        var reopening := op.call.kind == ReviewCase.Reopen;
        var t := s.(review := Some(m.after), caseTrail := s.caseTrail + [ByUser(op.call)],
                    finding := Some(f.(state := m.finding.value, expiry := if reopening then f.expiry else None,
                                       revision := f.revision + 1)));
        LogKeeps(t, op.key, op.call.actor, if reopening then "workflow.reopen" else "workflow.close",
                 op.call.note, f.state, m.finding.value, op.now);
      }
    }
  }

  lemma {:induction false} PublishKeeps(w: seq<Workflow>, key: Key, s: Slice, op: Op)
    requires op.Publication? && SliceOk(w, key, s)
    ensures SliceOk(WorkflowsAfter(w, op), key, SliceAfter(w, op, key, s))
  {
    hide Linked, Sourced, ExceptionKey;
  }

  /** The system's reopening of a case never fires. */
  lemma {:induction false} SyncNeverReopens(w: seq<Workflow>, s: Slice, ctx: RunContext, c: Candidate)
    requires StatesAgree(s) && Verdict(s, ctx, c).0 == Reopened
    ensures s.review.Some? ==> s.review.value.status == Ongoing
  {
  }

  lemma {:induction false} SyncKeeps(w: seq<Workflow>, s: Slice, state: State)
    requires CaseReplays(w, s.review, s.caseTrail) && s.State() == state
    requires state == Reopened && s.review.Some? ==> s.review.value.status == Ongoing
    ensures CaseReplays(w, SyncCase(w, s, state).review, s.caseTrail)
    ensures SyncCase(w, s, state) == s.(review := SyncCase(w, s, state).review)
    ensures s.review.Some? ==> SyncCase(w, s, state).review == s.review
    ensures s.review.None? && SyncCase(w, s, state).review.Some? ==>
      SyncCase(w, s, state).review.value.status == Ongoing
  {
  }

  lemma {:induction false} SyncGrows(w: seq<Workflow>, s: Slice, state: State)
    ensures Grows(s, SyncCase(w, s, state)) && SyncCase(w, s, state).trail == s.trail
  {
  }

  predicate Identified(ctx: RunContext, c: Candidate) {
    ValidID(ctx.source) && ValidID(ctx.period) && KeyPart(c.rule) && KeyPart(c.entity)
  }

  lemma {:induction false} SeenKeyed(key: Key, s: Slice, ctx: RunContext, row: Row)
    requires key == KeyOf(ctx, row.candidate) && (s.finding.Some? ==> Keyed(key, s.finding.value))
    requires Identified(ctx, row.candidate) && Sourced(row.candidate.entityId, ctx.source)
    ensures Keyed(key, Seen(s, ctx, row))
  {
  }

  lemma {:induction false} ObserveKeeps(w: seq<Workflow>, key: Key, s: Slice, ctx: RunContext, row: Row)
    requires SliceOk(w, key, s) && key == KeyOf(ctx, row.candidate)
    requires Identified(ctx, row.candidate) && Sourced(row.candidate.entityId, ctx.source)
    ensures SliceOk(w, key, Observe(w, s, ctx, row))
    ensures Observe(w, s, ctx, row).caseTrail == s.caseTrail
  {
    hide Linked, Sourced, ExceptionKey, CaseReplays, SyncCase;
    var (state, verdict) := Verdict(s, ctx, row.candidate);
    var t := s.(finding := Some(Seen(s, ctx, row)));
    LogKeeps(t, key, "system", verdict, "Run reconciliation", s.State(), state, ctx.at);
    SeenKeyed(key, s, ctx, row);
    if state == Reopened {
      SyncNeverReopens(w, s, ctx, row.candidate);
    }
    SyncKeeps(w, if s.State() == state then t
                 else Log(t, key, "system", verdict, "Run reconciliation", s.State(), state, ctx.at), state);
  }

  lemma {:induction false} ResolveKeeps(w: seq<Workflow>, key: Key, s: Slice, ctx: RunContext)
    requires SliceOk(w, key, s) && s.finding.Some? && Tested(ctx, s.finding.value)
    ensures SliceOk(w, key, Resolve(s, key, ctx))
  {
    hide Linked, Sourced, ExceptionKey, CaseReplays;
    var f := s.finding.value;
    LogKeeps(s, key, "system", "resolved_in_source", "No longer present in the tested population", f.state, Resolved,
      ctx.at);
  }

  lemma {:induction false} RowForFinds(ctx: RunContext, rows: seq<Row>, key: Key)
    ensures RowFor(ctx, rows, key).Some? ==>
      exists i :: 0 <= i < |rows| && rows[i] == RowFor(ctx, rows, key).value && KeyOf(ctx, rows[i].candidate) == key
    ensures RowFor(ctx, rows, key).None? ==> forall i :: 0 <= i < |rows| ==> KeyOf(ctx, rows[i].candidate) != key
  {
    if rows != [] && KeyOf(ctx, rows[|rows| - 1].candidate) != key {
      var front := rows[..|rows| - 1];
      RowForFinds(ctx, front, key);
      assert forall i :: 0 <= i < |front| ==> front[i] == rows[i];
    }
  }

  lemma {:induction false} RunKeeps(w: seq<Workflow>, key: Key, s: Slice, op: Op)
    requires op.Run? && ValidRows(op.ctx, op.rows) && SliceOk(w, key, s)
    ensures SliceOk(w, key, SliceAfter(w, op, key, s))
  {
    hide Observe, Resolve, SliceOk;
    RowForFinds(op.ctx, op.rows, key);
    match RowFor(op.ctx, op.rows, key) {
      case Some(row) => ObserveKeeps(w, key, s, op.ctx, row);
      case None => if s.finding.Some? && Tested(op.ctx, s.finding.value) { ResolveKeeps(w, key, s, op.ctx); }
    }
  }

  /** Every transaction keeps every finding's trail, case history and states in agreement. */
  lemma {:induction false} CommitKeepsOk(l: Tables, op: Op, m: Tables)
    requires TablesOk(l) && Commits(l, op, m)
    ensures TablesOk(m)
  {
    hide SliceOk, At, Dispose, Comment, ActOnCase, Publish, RunSlice;
    forall key
      ensures SliceOk(m.workflows, key, At(m, key))
    {
      var s := At(l, key);
      assert SliceOk(l.workflows, key, s) && CommitsTo(l, op, m, key);
      match op {
        case Disposal(k, _, _, _, _, _, _) => if k == key { DisposeKeeps(l.workflows, s, op); }
        case Remark(k, _, _, _) => if k == key { CommentKeeps(l.workflows, s, op); }
        case CaseCall(k, _, _) => if k == key { ActKeeps(l.workflows, s, op); }
        case Publication(_, _) => PublishKeeps(l.workflows, key, s, op);
        case Run(_, _) => RunKeeps(l.workflows, key, s, op);
      }
    }
  }

  /** Writing one finding's new slice back commits the transaction that computed it. */
  lemma {:induction false} PutCommits(l: Tables, op: Op, key: Key, t: Slice)
    requires (op.Disposal? || op.Remark? || op.CaseCall?) && op.key == key
    requires SliceAfter(l.workflows, op, key, At(l, key)) == t
    requires Grows(At(l, key), t)
    requires forall i :: |At(l, key).trail| <= i < |t.trail| ==> t.trail[i].key == key
    ensures Commits(l, op, Put(l, key, t))
  {
    hide Dispose, Comment, ActOnCase, EventsOf, CaseEventsOf;
    forall other
      ensures CommitsTo(l, op, Put(l, key, t), other)
    {
      hide At, Put;
      PutAt(l, key, t, other);
    }
  }

  lemma {:induction false} RejectionCommits(l: Tables, op: Op)
    requires op.Disposal? || op.Remark? || op.CaseCall?
    ensures SliceAfter(l.workflows, op, op.key, At(l, op.key)) == At(l, op.key) ==> Commits(l, op, l)
  {
    hide Dispose, Comment, ActOnCase, At;
    if SliceAfter(l.workflows, op, op.key, At(l, op.key)) == At(l, op.key) {
      forall other
        ensures CommitsTo(l, op, l, other)
      {
      }
    }
  }

  lemma {:induction false} ReconciledCommits(l: Tables, m: Tables, ctx: RunContext, rows: seq<Row>)
    requires Reconciled(l, m, ctx, rows) && ValidRows(ctx, rows)
    ensures Commits(l, Run(ctx, rows), m)
  {
    hide At, RunSlice;
    forall key
      ensures CommitsTo(l, Run(ctx, rows), m, key)
    {
      assert At(m, key) == RunSlice(l.workflows, ctx, rows, key, At(l, key));
    }
  }
}
