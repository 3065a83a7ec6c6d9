/** What a completed run establishes, and what holds over every history of transactions. */
module RunLaws {
  import opened Common
  import opened Identity
  import opened Lifecycle
  import opened ReviewCase
  import opened Candidates
  import opened Ledger
  import opened FindingLaws

  // ----- reconciliation -----

  predicate Flagged(ctx: RunContext, rows: seq<Row>, key: Key) {
    exists i :: 0 <= i < |rows| && KeyOf(ctx, rows[i].candidate) == key
  }

  predicate InScope(ctx: RunContext, f: Finding) {
    f.source == ctx.source && f.period == ctx.period && f.rule in ctx.scope
  }

  /** A finding that carries a flagged key belongs to the source, period and rules the run tested. */
  lemma {:induction false} FlaggedIsInScope(ctx: RunContext, rows: seq<Row>, key: Key, f: Finding)
    requires ValidRows(ctx, rows) && Keyed(key, f) && Flagged(ctx, rows, key)
    ensures InScope(ctx, f)
  {
    hide ExceptionKey, EntityID;
    var i :| 0 <= i < |rows| && KeyOf(ctx, rows[i].candidate) == key;
    var c := rows[i].candidate;
    var p :| AllValid(p) && f.entityId == EntityID(f.source, p);
    var q :| AllValid(q) && c.entityId == EntityID(ctx.source, q);
    EntityIDIsKeyPart(f.source, p);
    EntityIDIsKeyPart(ctx.source, q);
    ExceptionKeyInjective(f.rule, f.entity, f.entityId, f.period, c.rule, c.entity, c.entityId, ctx.period);
    EntityIDInjective(f.source, p, ctx.source, q);
  }

  /** An observed finding, when the reopening of closed cases does not apply. */
  lemma {:induction false} ObserveShape(w: seq<Workflow>, s: Slice, ctx: RunContext, row: Row)
    requires StatesAgree(s)
    ensures var t, state := Observe(w, s, ctx, row), Verdict(s, ctx, row.candidate).0;
      && t.finding == Some(Seen(s, ctx, row)) && t.State() == state && t.caseTrail == s.caseTrail
      && t.review == (if s.review.None? && w != [] then Some(Opened(|w|)) else s.review)
      && s.trail <= t.trail && (state == s.State() ==> t.trail == s.trail)
  {
    var (state, verdict) := Verdict(s, ctx, row.candidate);
    if state == Reopened {
      SyncNeverReopens(w, s, ctx, row.candidate);
    }
  }

  /** What a run leaves of one finding. */
  predicate Outcome(ctx: RunContext, flagged: bool, s: Slice, t: Slice) {
    && (t.finding.Some? <==> s.finding.Some? || flagged)
    && (t.finding.Some? && InScope(ctx, t.finding.value) && Active(t.State()) ==> flagged)
    && (flagged ==> t.State() != Resolved)
    && (s.State() in {Accepted, Dismissed} ==> t.State() == s.State())
    && (s.finding.Some? && !InScope(ctx, s.finding.value) ==> t == s)
  }

  lemma {:induction false} FlaggedOutcome(w: seq<Workflow>, ctx: RunContext, s: Slice, row: Row)
    requires StatesAgree(s) && (s.finding.Some? ==> InScope(ctx, s.finding.value))
    ensures Outcome(ctx, true, s, Observe(w, s, ctx, row))
  {
    ObserveShape(w, s, ctx, row);
  }

  lemma {:induction false} RunOutcome(w: seq<Workflow>, ctx: RunContext, rows: seq<Row>, key: Key, s: Slice)
    requires ValidRows(ctx, rows) && SliceOk(w, key, s)
    ensures Outcome(ctx, Flagged(ctx, rows, key), s, RunSlice(w, ctx, rows, key, s))
  {
    RowForFinds(ctx, rows, key);
    if RowFor(ctx, rows, key).Some? {
      assert Flagged(ctx, rows, key);
      if s.finding.Some? {
        FlaggedIsInScope(ctx, rows, key, s.finding.value);
      }
      FlaggedOutcome(w, ctx, s, RowFor(ctx, rows, key).value);
    } else {
      assert !Flagged(ctx, rows, key);
    }
  }

  /**
   After a run: the active findings it was responsible for are flagged ones;
   every flagged key has a finding that is not resolved; decisions of auditors
   stand; nothing outside its source, period and rules was touched.
   */
  lemma {:induction false} RunReconciles(l: Tables, m: Tables, ctx: RunContext, rows: seq<Row>)
    requires TablesOk(l) && Commits(l, Run(ctx, rows), m)
    ensures forall key :: key in m.findings && InScope(ctx, m.findings[key]) && Active(m.findings[key].state)
                      ==> Flagged(ctx, rows, key)
    ensures forall key :: Flagged(ctx, rows, key) ==> key in m.findings && m.findings[key].state != Resolved
    ensures forall key :: key in l.findings && l.findings[key].state in {Accepted, Dismissed}
                      ==> key in m.findings && m.findings[key].state == l.findings[key].state
    ensures forall key :: key in l.findings && !InScope(ctx, l.findings[key]) ==> At(m, key) == At(l, key)
    ensures forall key :: key in m.findings <==> key in l.findings || Flagged(ctx, rows, key)
  {
    hide RunSlice;
    forall key
      ensures (key in m.findings && InScope(ctx, m.findings[key]) && Active(m.findings[key].state))
                ==> Flagged(ctx, rows, key)
      ensures Flagged(ctx, rows, key) ==> key in m.findings && m.findings[key].state != Resolved
      ensures (key in l.findings && l.findings[key].state in {Accepted, Dismissed})
                ==> key in m.findings && m.findings[key].state == l.findings[key].state
      ensures key in l.findings && !InScope(ctx, l.findings[key]) ==> At(m, key) == At(l, key)
      ensures key in m.findings <==> key in l.findings || Flagged(ctx, rows, key)
    {
      assert SliceOk(l.workflows, key, At(l, key));
      RunOutcome(l.workflows, ctx, rows, key, At(l, key));
      assert CommitsTo(l, Run(ctx, rows), m, key);
    }
  }

  /** Each flagged row is observed exactly once, so the exception count is the number of findings observed. */
  lemma {:induction false} ObservedOncePerFinding(l: Tables, ctx: RunContext, rows: seq<Row>)
    requires ValidRows(ctx, rows)
    ensures |Observations(l, ctx, rows)| == |rows|
    ensures |set o | o in Observations(l, ctx, rows) :: o.key| == |rows|
  {
    var all := Observations(l, ctx, rows);
    assert forall i :: 0 <= i < |all| ==> all[i].key == KeyOf(ctx, rows[i].candidate);
    DistinctCount(all);
  }

  lemma {:induction false} DistinctCount(all: seq<Observation>)
    requires forall i, j :: 0 <= i < j < |all| ==> all[i].key != all[j].key
    ensures |set o | o in all :: o.key| == |all|
  {
    if all != [] {
      var n := |all| - 1;
      DistinctCount(all[..n]);
      assert all == all[..n] + [all[n]];
      assert (set o | o in all :: o.key) == (set o | o in all[..n] :: o.key) + {all[n].key};
      assert all[n].key !in (set o | o in all[..n] :: o.key);
    }
  }

  // ----- running the same population again -----

  /** Two runs flagged the key alike and consumed the same source fields for it. */
  predicate SameEvidence(a: Option<Row>, b: Option<Row>) {
    match (a, b)
    case (None, None) => true
    case (Some(x), Some(y)) => Consumed(x.candidate.input) == Consumed(y.candidate.input)
    case _ => false
  }

  lemma {:induction false} ReobserveSlice(w: seq<Workflow>, s: Slice, c1: RunContext, x: Row, c2: RunContext, y: Row)
    requires StatesAgree(s) && Consumed(x.candidate.input) == Consumed(y.candidate.input)
    requires var t := Observe(w, s, c1, x); t.State() == Suppressed ==> !Expired(t.finding.value.expiry, c2.at)
    ensures var t := Observe(w, s, c1, x);
      var u := Observe(w, t, c2, y);
      t.finding.Some? && u.finding.Some? && u == t.(finding := u.finding) && u.State() == t.State()
  {
    ObserveShape(w, s, c1, x);
    var t := Observe(w, s, c1, x);
    assert t.State() !in {Absent, Resolved};
    assert Verdict(t, c2, y.candidate).0 == t.State();
    assert StatesAgree(t);
    ObserveShape(w, t, c2, y);
  }

  /** What a run leaves of a finding that it did not flag, the next one leaves alone. */
  lemma {:induction false} UnflaggedStays(key: Key, s: Slice, c1: RunContext, c2: RunContext)
    requires s.finding.Some? && Tested(c1, s.finding.value)
    ensures var t := Resolve(s, key, c1); t.finding.Some? && !Tested(c2, t.finding.value)
  {
    hide NewEvent;
  }

  lemma {:induction false} RerunSlice(w: seq<Workflow>, key: Key, s: Slice, c1: RunContext, r1: seq<Row>,
      c2: RunContext, r2: seq<Row>)
    requires SliceOk(w, key, s)
    requires c1.source == c2.source && c1.period == c2.period && c1.scope.Keys == c2.scope.Keys
    requires SameEvidence(RowFor(c1, r1, key), RowFor(c2, r2, key))
    requires var t := RunSlice(w, c1, r1, key, s);
      t.State() == Suppressed ==> !Expired(t.finding.value.expiry, c2.at)
    ensures var t := RunSlice(w, c1, r1, key, s);
      var u := RunSlice(w, c2, r2, key, t);
      (u.finding.Some? <==> t.finding.Some?) && u == t.(finding := u.finding) && u.State() == t.State()
  {
    hide Observe, Resolve, Chained, CaseReplays, Keyed, RowFor, Consumed;
    if RowFor(c1, r1, key).Some? {
      ReobserveSlice(w, s, c1, RowFor(c1, r1, key).value, c2, RowFor(c2, r2, key).value);
    } else if s.finding.Some? && Tested(c1, s.finding.value) {
      UnflaggedStays(key, s, c1, c2);
    }
  }

  lemma {:induction false} SameEvents(a: seq<Event>, b: seq<Event>)
    requires a <= b && forall key :: EventsOf(a, key) == EventsOf(b, key)
    ensures a == b
  {
    if |a| < |b| {
      MoreEvents(a, b);
    }
  }

  lemma {:induction false} MoreEvents(a: seq<Event>, b: seq<Event>)
    requires a <= b && |a| < |b|
    ensures EventsOf(b, b[|a|].key) != EventsOf(a, b[|a|].key)
  {
    var e, rest := b[|a|], b[|a| + 1..];
    EventsOfAppend(a + [e], rest, e.key);
    EventsOfAppend(a, [e], e.key);
    EventsOfOwn([e], e.key, e.key);
    assert b == a + [e] + rest;
    assert |EventsOf(b, e.key)| > |EventsOf(a, e.key)|;
  }

  /** Nothing but details of the finding's row differs. */
  predicate SameButFinding(s: Slice, t: Slice) {
    t == s.(finding := t.finding) && t.State() == s.State() && (t.finding.Some? <==> s.finding.Some?)
  }

  lemma {:induction false} RerunAt(l: Tables, m: Tables, n: Tables, c1: RunContext, r1: seq<Row>, c2: RunContext,
      r2: seq<Row>, key: Key)
    requires TablesOk(l) && Commits(l, Run(c1, r1), m) && Commits(m, Run(c2, r2), n)
    requires c1.source == c2.source && c1.period == c2.period && c1.scope.Keys == c2.scope.Keys
    requires SameEvidence(RowFor(c1, r1, key), RowFor(c2, r2, key))
    requires key in m.findings && m.findings[key].state == Suppressed ==> !Expired(m.findings[key].expiry, c2.at)
    ensures SameButFinding(At(m, key), At(n, key))
  {
    hide RunSlice, EventsOf, CaseEventsOf, SliceOk, SameEvidence, RowFor, ValidRows;
    assert SliceOk(l.workflows, key, At(l, key));
    assert CommitsTo(l, Run(c1, r1), m, key);
    assert CommitsTo(m, Run(c2, r2), n, key);
    RerunSlice(l.workflows, key, At(l, key), c1, r1, c2, r2);
  }

  lemma {:induction false} RunExtendsTrail(l: Tables, m: Tables, op: Op)
    requires Commits(l, op, m)
    ensures l.trail <= m.trail
  {
  }

  /**
   Processing the same population again before a suppression expires changes no
   finding's state, appends no event, and leaves every case as it is.
   */
  lemma {:induction false} RerunChangesNothing(l: Tables, m: Tables, n: Tables, c1: RunContext, r1: seq<Row>,
      c2: RunContext, r2: seq<Row>)
    requires TablesOk(l) && Commits(l, Run(c1, r1), m) && Commits(m, Run(c2, r2), n)
    requires c1.source == c2.source && c1.period == c2.period && c1.scope.Keys == c2.scope.Keys
    requires forall key :: SameEvidence(RowFor(c1, r1, key), RowFor(c2, r2, key))
    requires forall key :: key in m.findings && m.findings[key].state == Suppressed
                       ==> !Expired(m.findings[key].expiry, c2.at)
    ensures n.trail == m.trail && n.cases == m.cases
    ensures n.findings.Keys == m.findings.Keys
    ensures forall key :: key in m.findings ==> n.findings[key].state == m.findings[key].state
  {
    hide At, RunSlice, Commits, SliceOk, SameEvidence, SameButFinding;
    forall key
      ensures SameButFinding(At(m, key), At(n, key))
    {
      RerunAt(l, m, n, c1, r1, c2, r2, key);
    }
    RunExtendsTrail(m, n, Run(c2, r2));
    SameProjections(m, n);
  }

  /** Tables that agree finding by finding, but for details of the finding rows. */
  lemma {:induction false} SameProjections(m: Tables, n: Tables)
    requires m.trail <= n.trail
    requires forall key :: SameButFinding(At(m, key), At(n, key))
    ensures n.trail == m.trail && n.cases == m.cases && n.findings.Keys == m.findings.Keys
    ensures forall key :: key in m.findings ==> n.findings[key].state == m.findings[key].state
  {
    hide EventsOf, CaseEventsOf;
    forall key
      ensures EventsOf(m.trail, key) == EventsOf(n.trail, key)
      ensures key in n.findings <==> key in m.findings
      ensures key in m.findings ==> n.findings[key].state == m.findings[key].state
      ensures key in n.cases <==> key in m.cases
      ensures key in m.cases ==> n.cases[key] == m.cases[key]
    {
      assert SameButFinding(At(m, key), At(n, key));
    }
    SameEvents(m.trail, n.trail);
  }

  // ----- suppression -----

  predicate DifferAt<K, V(==)>(a: map<K, V>, b: map<K, V>, k: K) {
    if k in a then k !in b || a[k] != b[k] else k in b
  }

  lemma {:induction false} DifferentMaps<K, V>(a: map<K, V>, b: map<K, V>)
    ensures a != b <==> exists k :: DifferAt(a, b, k)
  {
    if forall k :: !DifferAt(a, b, k) {
      assert a.Keys == b.Keys by {
        forall k
          ensures k in a <==> k in b
        {
          assert !DifferAt(a, b, k);
        }
      }
      forall k | k in a
        ensures a[k] == b[k]
      {
        assert !DifferAt(a, b, k);
      }
      assert a == b;
    }
  }

  /** The consumed fields differ exactly when some field that policy does not decide differs. */
  lemma {:induction false} ConsumedDiffers(a: map<string, Value>, b: map<string, Value>)
    ensures Consumed(a) != Consumed(b) <==> exists k ::
      k !in {"materiality", "qualifies", "weekend"} && DifferAt(a, b, k)
  {
    forall k
      ensures DifferAt(Consumed(a), Consumed(b), k) <==> k !in POLICY && DifferAt(a, b, k)
    {
    }
    DifferentMaps(Consumed(a), Consumed(b));
  }

  /**
   A suppressed finding that is flagged again reopens exactly when the
   suppression has expired or a source field changed; a change of materiality,
   of the weekend policy or of the qualification alone never reopens it.
   */
  lemma {:induction false} SuppressionReopensIff(w: seq<Workflow>, s: Slice, ctx: RunContext, row: Row,
      before: map<string, Value>)
    requires s.State() == Suppressed && s.finding.value.consumed == OfInput(Consumed(before))
    ensures Observe(w, s, ctx, row).State() in {Suppressed, Reopened}
    ensures Observe(w, s, ctx, row).State() == Reopened <==>
      (s.finding.value.expiry.None? || s.finding.value.expiry.value <= ctx.at)
      || exists k :: k !in {"materiality", "qualifies", "weekend"} && DifferAt(before, row.candidate.input, k)
  {
    ConsumedDiffers(before, row.candidate.input);
  }

  // ----- what a transaction never undoes -----

  /** Every change of a finding's row raises its revision, and what identifies it stays. */
  predicate Succeeds(f: Finding, g: Finding) {
    && g == f.(state := g.state, severity := g.severity, owner := g.owner, consumed := g.consumed, expiry := g.expiry,
               lastSeen := g.lastSeen, revision := g.revision)
    && (g == f || f.revision < g.revision)
  }

  predicate Evolves(s: Slice, t: Slice) {
    && s.trail <= t.trail && s.caseTrail <= t.caseTrail
    && (s.finding.Some? ==> t.finding.Some? && Succeeds(s.finding.value, t.finding.value))
    && (t.finding.None? ==> t.trail == s.trail)
    && (s.review.Some? ==> t.review.Some? && t.review.value.workflow == s.review.value.workflow)
    && (BySystem in t.caseTrail ==> BySystem in s.caseTrail)
    && (s.State() == Suppressed && t.State() == Suppressed ==>
          t.finding.value.expiry == s.finding.value.expiry && t.finding.value.consumed == s.finding.value.consumed)
  }

  lemma {:induction false} EditEvolves(w: seq<Workflow>, key: Key, s: Slice, op: Op)
    requires SliceOk(w, key, s)
    ensures Evolves(s, s)
    ensures op.Disposal? ==>
      Evolves(s, OrSame(Dispose(s, op.key, op.actor, op.reason, op.to, op.expected, op.expiry, op.now), s))
    ensures op.Remark? ==> Evolves(s, OrSame(Comment(s, op.key, op.actor, op.body, op.now), s))
    ensures Evolves(s, Publish(s, |w| + 1))
  {
  }

  lemma {:induction false} ActEvolves(w: seq<Workflow>, key: Key, s: Slice, call: Call, now: int)
    requires SliceOk(w, key, s)
    ensures Evolves(s, OrSame(ActOnCase(w, s, key, call, now), s))
  {
    hide NoteOk, NewEvent, Chained, Keyed, Replay;
    if ActOnCase(w, s, key, call, now).Ok? {
      var c := s.review.value;
      ActKeepsCase(w, s, call, Act(w[c.workflow - 1], c, call).value);
    }
  }

  lemma {:induction false} RunEvolves(w: seq<Workflow>, key: Key, s: Slice, ctx: RunContext, rows: seq<Row>)
    requires SliceOk(w, key, s)
    ensures Evolves(s, RunSlice(w, ctx, rows, key, s))
  {
    if RowFor(ctx, rows, key).Some? {
      ObserveShape(w, s, ctx, RowFor(ctx, rows, key).value);
    }
  }

  lemma {:induction false} CommitEvolves(l: Tables, op: Op, m: Tables, key: Key)
    requires TablesOk(l) && Commits(l, op, m)
    ensures Evolves(At(l, key), At(m, key))
  {
    hide RunSlice, ActOnCase, Dispose, Comment, Publish, At, SliceOk, Evolves;
    var s := At(l, key);
    assert SliceOk(l.workflows, key, s);
    assert CommitsTo(l, op, m, key);
    EditEvolves(l.workflows, key, s, op);
    if op.CaseCall? && op.key == key {
      ActEvolves(l.workflows, op.key, s, op.call, op.now);
    } else if op.Run? {
      RunEvolves(l.workflows, key, s, op.ctx, op.rows);
    }
  }
}
