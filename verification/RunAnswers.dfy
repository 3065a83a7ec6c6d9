/** What a committed run answers for every finding, read off the tables before and after it. */
module RunAnswers {
  import opened Common
  import opened Identity
  import opened Lifecycle
  import opened ReviewCase
  import opened Candidates
  import opened Ledger
  import opened FindingLaws
  import opened RunLaws

  lemma {:induction false} RowForIs(ctx: RunContext, rows: seq<Row>, i: nat)
    requires DistinctKeys(ctx, rows) && i < |rows|
    ensures RowFor(ctx, rows, KeyOf(ctx, rows[i].candidate)) == Some(rows[i])
  {
    hide KeyOf;
    RowForFinds(ctx, rows, KeyOf(ctx, rows[i].candidate));
  }

  lemma {:induction false} RunAt(l: Tables, m: Tables, ctx: RunContext, rows: seq<Row>, key: Key)
    requires TablesOk(l) && FindingLaws.Commits(l, Run(ctx, rows), m)
    ensures At(m, key) == RunSlice(l.workflows, ctx, rows, key, At(l, key)) && StatesAgree(At(l, key))
    ensures DistinctKeys(ctx, rows)
  {
    hide At, RunSlice, Chained, CaseReplays, StatesAgree, Keyed;
    assert CommitsTo(l, Run(ctx, rows), m, key);
    assert SliceOk(l.workflows, key, At(l, key));
  }

  lemma {:induction false} FlaggedAt(l: Tables, m: Tables, ctx: RunContext, rows: seq<Row>, i: nat)
    requires TablesOk(l) && FindingLaws.Commits(l, Run(ctx, rows), m) && i < |rows|
    ensures var key := KeyOf(ctx, rows[i].candidate);
      At(m, key) == Observe(l.workflows, At(l, key), ctx, rows[i]) && StatesAgree(At(l, key))
  {
    hide At, Observe, Resolve, TablesOk, FindingLaws.Commits, StatesAgree, DistinctKeys, KeyOf, RowFor;
    RunAt(l, m, ctx, rows, KeyOf(ctx, rows[i].candidate));
    RowForIs(ctx, rows, i);
  }

  /** The state in which a run leaves a flagged finding. */
  predicate Answered(before: Option<Finding>, after: Finding, hash: Digest, at: int) {
    match before
    case None => after.state == Open
    case Some(f) =>
      && (f.state == Resolved ==> after.state == Reopened)
      && (f.state in {Open, InReview, Reopened, Accepted, Dismissed} ==> after.state == f.state)
      && (f.state == Suppressed ==>
           f.expiry.Some? && after.state == if f.expiry.value > at && f.consumed == hash then Suppressed else Reopened)
  }

  lemma {:induction false} ObserveAnswers(w: seq<Workflow>, s: Slice, ctx: RunContext, row: Row)
    requires StatesAgree(s)
    ensures var t := Observe(w, s, ctx, row);
      t.finding.Some? && Answered(s.finding, t.finding.value, OfInput(Consumed(row.candidate.input)), ctx.at)
  {
    hide Consumed, NewEvent, SyncCase, KeyOf;
    ObserveShape(w, s, ctx, row);
  }

  /**
   A flagged finding that is new is open; one that was resolved is reopened;
   open, reviewed and decided ones stay as they are; a suppressed one stays
   suppressed until it expires or the consumed fields change, and is reopened then.
   */
  lemma {:induction false} FlaggedAnswers(l: Tables, m: Tables, ctx: RunContext, rows: seq<Row>, i: nat)
    requires TablesOk(l) && FindingLaws.Commits(l, Run(ctx, rows), m) && i < |rows|
    ensures var c := rows[i].candidate; var key := KeyOf(ctx, c);
      && key in m.findings
      && Answered(At(l, key).finding, m.findings[key], OfInput(Consumed(c.input)), ctx.at)
  {
    hide TablesOk, FindingLaws.Commits, Observe, StatesAgree, Consumed, EventsOf, CaseEventsOf, KeyOf;
    FlaggedAt(l, m, ctx, rows, i);
    ObserveAnswers(l.workflows, At(l, KeyOf(ctx, rows[i].candidate)), ctx, rows[i]);
  }

  /** The row of a new finding, and what a run rewrites in the row of a known one. */
  lemma {:induction false} FlaggedRow(l: Tables, m: Tables, ctx: RunContext, rows: seq<Row>, i: nat)
    requires TablesOk(l) && FindingLaws.Commits(l, Run(ctx, rows), m) && i < |rows|
    ensures var c, d := rows[i].candidate, rows[i].decision; var key := KeyOf(ctx, c);
      && key in m.findings && c.rule in ctx.scope
      && var f := m.findings[key];
         && (key !in l.findings ==>
              f == Finding(ctx.source, ctx.period, c.rule, c.entity, c.entityId,
                Evidence(ctx.scope[c.rule], ctx.params, ctx.run, OfInput(c.input), ctx.at), Open, d.severity, d.owner,
                OfInput(Consumed(c.input)), None, ctx.at, 1))
         && (key in l.findings ==>
              f == l.findings[key].(state := f.state, severity := d.severity, owner := d.owner,
                consumed := OfInput(Consumed(c.input)), lastSeen := ctx.at, revision := l.findings[key].revision + 1))
  {
    hide TablesOk, Observe, StatesAgree, Consumed, EventsOf, CaseEventsOf, KeyOf;
    FlaggedAt(l, m, ctx, rows, i);
    var s := At(l, KeyOf(ctx, rows[i].candidate));
    ObserveShape(l.workflows, s, ctx, rows[i]);
    ObserveAnswers(l.workflows, s, ctx, rows[i]);
  }

  /** How the run names what it did to a flagged finding. */
  predicate NamedBy(text: string, before: Option<Finding>, after: State, hash: Digest) {
    match before
    case None => text == "new"
    case Some(f) =>
      if after == f.state then text == (if f.state == Suppressed then "suppressed" else "still_open")
      else if f.state == Suppressed && f.consumed != hash then text == "reopened_changed"
      else text == "reopened"
  }

  /** The trail row of a run, if the finding's state changed. */
  predicate RunRecords(g: seq<Event>, h: seq<Event>, text: string, reason: string, from: State, to: State, at: int) {
    if from == to then h == g
    else
      && |h| == |g| + 1 && g <= h
      && var e := h[|g|];
         e.actor == "system" && e.action == text && e.reason == reason && e.from == from && e.to == to && e.at == at
  }

  lemma {:induction false} ObserveRecords(w: seq<Workflow>, s: Slice, ctx: RunContext, row: Row)
    requires StatesAgree(s)
    ensures var t, hash := Observe(w, s, ctx, row), OfInput(Consumed(row.candidate.input));
      && t.finding.Some?
      && NamedBy(Observed(s, ctx, row).verdict, s.finding, t.State(), hash)
      && RunRecords(s.trail, t.trail, Observed(s, ctx, row).verdict, "Run reconciliation", s.State(), t.State(), ctx.at)
  {
    hide Consumed, KeyOf;
    ObserveShape(w, s, ctx, row);
  }

  /**
   A run observes every flagged row: the observation holds what was tested, by
   which version and parameters, what was decided and what became of the
   finding; the trail has one row more exactly when the state changed.
   */
  lemma {:induction false} FlaggedRecords(l: Tables, m: Tables, ctx: RunContext, rows: seq<Row>, i: nat)
    requires TablesOk(l) && FindingLaws.Commits(l, Run(ctx, rows), m) && i < |rows|
    ensures |m.observations| == |l.observations| + |rows| && l.observations <= m.observations
    ensures var c := rows[i].candidate; var key := KeyOf(ctx, c);
      var o, before := m.observations[|l.observations| + i], At(l, key).finding;
      && c.rule in ctx.scope && key in m.findings
      && o == Observation(key, ctx.run, c.rule, ctx.scope[c.rule], ctx.params, OfInput(c.input), c.input,
           rows[i].decision, o.verdict)
      && NamedBy(o.verdict, before, m.findings[key].state, OfInput(Consumed(c.input)))
      && RunRecords(EventsOf(l.trail, key), EventsOf(m.trail, key), o.verdict, "Run reconciliation",
           if before.None? then Absent else before.value.state, m.findings[key].state, ctx.at)
  {
    hide TablesOk, Observe, StatesAgree, Consumed, EventsOf, CaseEventsOf, KeyOf, Verdict;
    FlaggedAt(l, m, ctx, rows, i);
    ObserveRecords(l.workflows, At(l, KeyOf(ctx, rows[i].candidate)), ctx, rows[i]);
    assert m.observations[|l.observations| + i] == Observed(At(l, KeyOf(ctx, rows[i].candidate)), ctx, rows[i]);
  }

  /**
   A finding that is not flagged is resolved, with a trail row, if it is active
   and of a source, period and rule the run tested; otherwise nothing of it changes.
   */
  lemma {:induction false} UnflaggedAnswers(l: Tables, m: Tables, ctx: RunContext, rows: seq<Row>, key: Key)
    requires TablesOk(l) && FindingLaws.Commits(l, Run(ctx, rows), m) && !Flagged(ctx, rows, key)
    ensures key in m.findings <==> key in l.findings
    ensures key in l.findings ==> var f := l.findings[key];
      if f.source == ctx.source && f.period == ctx.period && f.rule in ctx.scope
         && f.state in {Open, InReview, Reopened} then
        && m.findings[key] == f.(state := Resolved, revision := f.revision + 1)
        && RunRecords(EventsOf(l.trail, key), EventsOf(m.trail, key), "resolved_in_source",
             "No longer present in the tested population", f.state, Resolved, ctx.at)
        && At(m, key).review == At(l, key).review && At(m, key).caseTrail == At(l, key).caseTrail
      else At(m, key) == At(l, key)
  {
    hide TablesOk, FindingLaws.Commits, Observe, StatesAgree, EventsOf, CaseEventsOf, KeyOf;
    RunAt(l, m, ctx, rows, key);
    RowForFinds(ctx, rows, key);
  }
}
