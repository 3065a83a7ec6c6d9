/** Who decides a finding, and by which steps: what the rows of a trail can say. */
module Decisions {
  import opened Common
  import opened Strings
  import opened Identity
  import opened Lifecycle
  import opened ReviewCase
  import opened Candidates
  import opened Ledger
  import opened FindingLaws
  import opened RunLaws
  import opened Histories

  // ----- dispositions -----

  /** The moves of a person on a finding without a case. */
  predicate Allowed(from: State, to: State) {
    (from in {Open, Reopened} && to == InReview) || (from == InReview && to in {Accepted, Dismissed, Suppressed})
  }

  /** The row that a transaction adds to a trail. */
  predicate Adds(g: seq<Event>, h: seq<Event>, actor: string, action: string, reason: string, from: State, to: State,
      at: int)
  {
    && |h| == |g| + 1 && g <= h
    && var e := h[|g|];
       e.actor == actor && e.action == action && e.reason == reason && e.from == from && e.to == to && e.at == at
  }

  /** What a disposition asks of the finding and of the request. */
  predicate Disposable(s: Slice, op: Op)
    requires op.Disposal?
  {
    && s.finding.Some? && s.review.None? && s.finding.value.revision == op.expected
    && Allowed(s.finding.value.state, op.to)
    && 1 <= |TrimSpace(op.reason)| <= 2000
    && (if op.to == Suppressed then op.expiry.Some? && op.expiry.value > op.now else op.expiry.None?)
  }

  lemma {:induction false} DisposeIff(s: Slice, op: Op)
    requires op.Disposal?
    ensures var r := Dispose(s, op.key, op.actor, op.reason, op.to, op.expected, op.expiry, op.now);
      && (r.Ok? <==> Disposable(s, op))
      && (r == Err(NotFound) <==> s.finding.None?)
      && (r == Err(Conflict) <==> s.finding.Some? && (s.finding.value.revision != op.expected || s.review.Some?))
      && (r.Ok? ==>
           && r.value == s.(trail := r.value.trail, finding :=
                Some(s.finding.value.(state := op.to, expiry := op.expiry, revision := op.expected + 1)))
           && Adds(s.trail, r.value.trail, op.actor, "disposition", op.reason, s.State(), op.to, op.now))
  {
    hide TrimSpace, HeadHash;
  }

  /**
   A disposition takes effect exactly when the finding exists in the expected
   revision, has no case, and the move, the reason and the expiry are admissible;
   then the finding has the new state, expiry and revision, and a trail row
   says who moved it and why.  Otherwise nothing of it changes.
   */
  lemma {:induction false} DispositionSucceedsIff(l: Tables, op: Op, m: Tables)
    requires op.Disposal? && FindingLaws.Commits(l, op, m)
    ensures if Disposable(At(l, op.key), op) then
        && op.key in l.findings && op.key in m.findings
        && m.findings[op.key] ==
           l.findings[op.key].(state := op.to, expiry := op.expiry, revision := op.expected + 1)
        && Adds(EventsOf(l.trail, op.key), EventsOf(m.trail, op.key), op.actor, "disposition", op.reason,
             l.findings[op.key].state, op.to, op.now)
      else At(m, op.key) == At(l, op.key)
    ensures forall key :: key != op.key ==> At(m, key) == At(l, key)
  {
    hide Dispose, Disposable, Adds, EventsOf, CaseEventsOf;
    assert CommitsTo(l, op, m, op.key);
    DisposeIff(At(l, op.key), op);
    forall key | key != op.key
      ensures At(m, key) == At(l, key)
    {
      assert CommitsTo(l, op, m, key);
    }
  }

  /** A comment is a trail row that leaves the state; it takes some text and an existing finding. */
  lemma {:induction false} CommentIff(s: Slice, key: Key, actor: string, body: string, now: int)
    ensures var r := Comment(s, key, actor, body, now);
      && (r.Ok? <==> s.finding.Some? && 1 <= |TrimSpace(body)| && |body| <= 4000)
      && (r.Ok? ==>
           r.value == s.(trail := r.value.trail)
           && Adds(s.trail, r.value.trail, actor, "comment", body, s.State(), s.State(), now))
  {
    hide TrimSpace, HeadHash;
  }

  // ----- the rows of a trail -----

  /** What a row may say, by its action. */
  predicate MayRecord(e: Event) {
    if e.action == "disposition" then Allowed(e.from, e.to)
    else if e.action == "comment" then e.from == e.to
    else if e.action == "workflow.close" then e.to in {Accepted, Dismissed}
    else if e.action == "workflow.reopen" then e.from in {Accepted, Dismissed} && e.to == InReview
    else
      && e.actor == "system"
      && (if e.action == "new" then e.from == Absent && e.to == Open
          else if e.action == "reopened" then e.from in {Suppressed, Resolved} && e.to == Reopened
          else if e.action == "reopened_changed" then e.from == Suppressed && e.to == Reopened
          else e.action == "resolved_in_source" && e.from in {Open, InReview, Reopened} && e.to == Resolved)
  }

  predicate AllMayRecord(h: seq<Event>) {
    forall i :: 0 <= i < |h| ==> MayRecord(h[i])
  }

  /** At most one row is added, and it is one of those. */
  predicate Records(g: seq<Event>, h: seq<Event>) {
    h == g || (|h| == |g| + 1 && g <= h && MayRecord(h[|g|]))
  }

  lemma {:induction false} PersonRecords(w: seq<Workflow>, s: Slice, op: Op, key: Key)
    requires op.Disposal? || op.Remark? || op.Publication?
    ensures Records(s.trail, SliceAfter(w, op, key, s).trail)
  {
    hide Dispose, Comment;
    if op.Disposal? {
      DisposeIff(s, op);
    } else if op.Remark? {
      CommentIff(s, op.key, op.actor, op.body, op.now);
    }
  }

  lemma {:induction false} CaseRecords(w: seq<Workflow>, s: Slice, key: Key, call: Call, now: int)
    requires SliceOk(w, key, s)
    ensures Records(s.trail, OrSame(ActOnCase(w, s, key, call, now), s).trail)
  {
    hide Act, Replay, Chained, Keyed, HeadHash, NoteOk;
    if ActOnCase(w, s, key, call, now).Ok? {
      var c := s.review.value;
      ReopensClosed(w[c.workflow - 1], c, call);
      ActKeepsCase(w, s, call, Act(w[c.workflow - 1], c, call).value);
    }
  }

  lemma {:induction false} ReopensClosed(w: Workflow, c: Case, call: Call)
    requires Act(w, c, call).Ok?
    ensures call.kind == ReviewCase.Reopen ==> c.status == Closed && Act(w, c, call).value.finding == Some(InReview)
  {
    hide NoteOk;
  }

  lemma {:induction false} RunRecords(w: seq<Workflow>, s: Slice, key: Key, ctx: RunContext, rows: seq<Row>)
    requires StatesAgree(s)
    ensures Records(s.trail, RunSlice(w, ctx, rows, key, s).trail)
  {
    hide HeadHash, Consumed, RowFor, ExceptionKey;
    if RowFor(ctx, rows, key).Some? {
      ObserveShape(w, s, ctx, RowFor(ctx, rows, key).value);
    }
  }

  lemma {:induction false} CommitRecords(l: Tables, op: Op, m: Tables, key: Key)
    requires TablesOk(l) && FindingLaws.Commits(l, op, m)
    ensures Records(EventsOf(l.trail, key), EventsOf(m.trail, key))
  {
    hide SliceAfter, EventsOf, CaseEventsOf, Records, Chained, CaseReplays, Keyed;
    var s := At(l, key);
    assert SliceOk(l.workflows, key, s) && CommitsTo(l, op, m, key);
    match op {
      case Run(ctx, rows) =>
        RunRecords(l.workflows, s, key, ctx, rows);
        SliceAfterRun(l.workflows, op, key, s);
      case CaseCall(k, call, now) =>
        CaseRecords(l.workflows, s, key, call, now);
        SliceAfterCall(l.workflows, op, key, s);
      case _ => PersonRecords(l.workflows, s, op, key);
    }
  }

  lemma {:induction false} SliceAfterRun(w: seq<Workflow>, op: Op, key: Key, s: Slice)
    requires op.Run?
    ensures SliceAfter(w, op, key, s) == RunSlice(w, op.ctx, op.rows, key, s)
  {
    hide RunSlice;
  }

  lemma {:induction false} SliceAfterCall(w: seq<Workflow>, op: Op, key: Key, s: Slice)
    requires op.CaseCall? && Records(s.trail, OrSame(ActOnCase(w, s, key, op.call, op.now), s).trail)
    ensures Records(s.trail, SliceAfter(w, op, key, s).trail)
  {
    hide ActOnCase;
  }

  /** In every reachable state, every row of a trail is one of those. */
  lemma {:induction false} TrailRowsAllowed(b: seq<Tables>, n: nat, key: Key)
    requires Behaviour(b) && n < |b|
    ensures AllMayRecord(EventsOf(b[n].trail, key))
  {
    hide TablesOk, FindingLaws.Commits, EventsOf, MayRecord;
    if n == 0 {
      NoEvents(key);
    } else {
      TrailRowsAllowed(b, n - 1, key);
      AlwaysOk(b, n - 1);
      assert StepAt(b, n - 1);
      if b[n] != b[n - 1] {
        var op :| FindingLaws.Commits(b[n - 1], op, b[n]);
        CommitRecords(b[n - 1], op, b[n], key);
      }
    }
  }

  // ----- decisions -----

  /** Row `k` is the last that changed the state: it left `to`, and every later row keeps it. */
  predicate LastChange(h: seq<Event>, k: nat, to: State) {
    && k < |h| && h[k].from != to && h[k].to == to
    && forall i :: k < i < |h| ==> h[i].from == to && h[i].to == to
  }

  lemma {:induction false} LastChangeFound(key: Key, h: seq<Event>) returns (k: nat)
    requires Chained(key, h) && LastState(h) != Absent
    ensures LastChange(h, k, LastState(h))
  {
    hide Hashed;
    var n, to := |h| - 1, LastState(h);
    assert Linked(key, h, n);
    if h[n].from != to {
      k := n;
    } else {
      ChainedPrefix(key, h);
      k := LastChangeFound(key, h[..n]);
      assert forall i :: 0 <= i < n ==> h[..n][i] == h[i];
    }
  }

  lemma {:induction false} TrailOf(b: seq<Tables>, n: nat, key: Key)
    requires Behaviour(b) && n < |b|
    ensures var h := EventsOf(b[n].trail, key);
      Chained(key, h) && AllMayRecord(h)
      && LastState(h) == (if key in b[n].findings then b[n].findings[key].state else Absent)
      && (key in b[n].findings ==> b[n].findings[key].state != Absent)
  {
    hide Chained, CaseReplays, Keyed, EventsOf, CaseEventsOf, AllMayRecord;
    AlwaysOk(b, n);
    TrailRowsAllowed(b, n, key);
    assert SliceOk(b[n].workflows, key, At(b[n], key));
  }

  /**
   No run decides a finding: the last row of the trail that changed the state
   of an accepted, dismissed or suppressed finding is a person's disposition
   or the closing of its case, and only a disposition suppresses.
   */
  lemma {:induction false} PeopleDecide(b: seq<Tables>, n: nat, key: Key) returns (k: nat)
    requires Behaviour(b) && n < |b| && key in b[n].findings
    requires b[n].findings[key].state in {Accepted, Dismissed, Suppressed}
    ensures var h := EventsOf(b[n].trail, key);
      && LastChange(h, k, b[n].findings[key].state)
      && h[k].action in {"disposition", "workflow.close"}
      && (b[n].findings[key].state == Suppressed ==> h[k].action == "disposition")
  {
    hide Chained, EventsOf;
    TrailOf(b, n, key);
    var h := EventsOf(b[n].trail, key);
    k := LastChangeFound(key, h);
    assert MayRecord(h[k]);
  }

  /**
   A disposition that decides a finding comes after a review: an earlier row
   put the finding in review, by a disposition or by reopening its case, and
   the rows in between leave it there.
   */
  lemma {:induction false} DecidedInReview(b: seq<Tables>, n: nat, key: Key, i: nat) returns (k: nat)
    requires Behaviour(b) && n < |b| && i < |EventsOf(b[n].trail, key)|
    requires var e := EventsOf(b[n].trail, key)[i];
      e.action == "disposition" && e.to in {Accepted, Dismissed, Suppressed}
    ensures var h := EventsOf(b[n].trail, key);
      && h[i].from == InReview && k < i
      && LastChange(h[..i], k, InReview)
      && h[k].action in {"disposition", "workflow.reopen"}
  {
    hide EventsOf, Hashed, HeadHash;
    TrailOf(b, n, key);
    var h := EventsOf(b[n].trail, key);
    assert MayRecord(h[i]) && Linked(key, h, i);
    PrefixChained(key, h, i);
    k := LastChangeFound(key, h[..i]);
    assert MayRecord(h[k]);
  }

  lemma {:induction false} PrefixChained(key: Key, h: seq<Event>, i: nat)
    requires Chained(key, h) && i <= |h|
    ensures Chained(key, h[..i])
  {
    hide Linked;
    var g := h[..i];
    forall j | 0 <= j < i
      ensures Linked(key, g, j)
    {
      assert Linked(key, h, j);
      SameLink(key, h, i, j);
    }
  }

  lemma {:induction false} SameLink(key: Key, h: seq<Event>, i: nat, j: nat)
    requires j < i <= |h|
    ensures Linked(key, h[..i], j) <==> Linked(key, h, j)
  {
    hide Hashed, HeadHash, LastState;
    assert h[..i][..j] == h[..j];
  }

  // ----- the closing of a case -----

  /** A closed case's finding has the state that the last call of its history named. */
  predicate ClosedAsNamed(s: Slice) {
    s.review.Some? && s.review.value.status == Closed ==>
      && s.caseTrail != [] && s.caseTrail[|s.caseTrail| - 1].ByUser?
      && Label(s.State()) == s.caseTrail[|s.caseTrail| - 1].call.resolution
  }

  lemma {:induction false} ActNames(w: Workflow, c: Case, call: Call)
    requires Act(w, c, call).Ok?
    ensures var m := Act(w, c, call).value;
      m.after.status == Closed ==> m.finding.Some? && Label(m.finding.value) == call.resolution
  {
    hide NoteOk;
  }

  lemma {:induction false} CallNames(w: seq<Workflow>, s: Slice, key: Key, call: Call, now: int)
    requires ClosedAsNamed(s)
    ensures ClosedAsNamed(OrSame(ActOnCase(w, s, key, call, now), s))
  {
    hide Act, NewEvent, NoteOk;
    if ActOnCase(w, s, key, call, now).Ok? {
      ActNames(w[s.review.value.workflow - 1], s.review.value, call);
    }
  }

  lemma {:induction false} RunNames(w: seq<Workflow>, s: Slice, key: Key, ctx: RunContext, rows: seq<Row>)
    requires StatesAgree(s) && ClosedAsNamed(s)
    ensures ClosedAsNamed(RunSlice(w, ctx, rows, key, s))
  {
    hide NewEvent, Consumed, RowFor, ExceptionKey;
    if RowFor(ctx, rows, key).Some? {
      ObserveShape(w, s, ctx, RowFor(ctx, rows, key).value);
    }
  }

  lemma {:induction false} CommitNames(l: Tables, op: Op, m: Tables, key: Key)
    requires TablesOk(l) && FindingLaws.Commits(l, op, m) && ClosedAsNamed(At(l, key))
    ensures ClosedAsNamed(At(m, key))
  {
    hide At, Chained, CaseReplays, Keyed, RunSlice, ActOnCase, NewEvent;
    var s := At(l, key);
    assert SliceOk(l.workflows, key, s) && CommitsTo(l, op, m, key);
    match op {
      case Run(ctx, rows) => RunNames(l.workflows, s, key, ctx, rows);
      case CaseCall(k, call, now) => CallNames(l.workflows, s, key, call, now);
      case _ =>
    }
  }

  lemma {:induction false} AlwaysAsNamed(b: seq<Tables>, n: nat, key: Key)
    requires Behaviour(b) && n < |b|
    ensures ClosedAsNamed(At(b[n], key))
  {
    hide TablesOk, FindingLaws.Commits, EventsOf, CaseEventsOf, ClosedAsNamed;
    if n == 0 {
      NothingClosed(key);
    } else {
      AlwaysAsNamed(b, n - 1, key);
      AlwaysOk(b, n - 1);
      assert StepAt(b, n - 1);
      if b[n] != b[n - 1] {
        var op :| FindingLaws.Commits(b[n - 1], op, b[n]);
        CommitNames(b[n - 1], op, b[n], key);
      }
    }
  }

  lemma {:induction false} NothingClosed(key: Key)
    ensures ClosedAsNamed(At(EMPTY, key))
  {
  }

  /**
   In every reachable state the finding of a closed case is in the state that
   the call which closed the case named as its resolution, whatever runs,
   comments and dispositions have come since.
   */
  lemma {:induction false} ClosedCaseNamesState(b: seq<Tables>, n: nat, key: Key)
    requires Behaviour(b) && n < |b| && key in b[n].cases && b[n].cases[key].status == Closed
    ensures var h := CaseEventsOf(b[n].caseTrail, key);
      && key in b[n].findings && h != [] && h[|h| - 1].ByUser?
      && Label(b[n].findings[key].state) == h[|h| - 1].call.resolution
      && b[n].findings[key].state in {Accepted, Dismissed}
  {
    hide Chained, CaseReplays, Keyed, EventsOf, CaseEventsOf;
    AlwaysAsNamed(b, n, key);
    AlwaysOk(b, n);
    assert SliceOk(b[n].workflows, key, At(b[n], key));
  }
}
