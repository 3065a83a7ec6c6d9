/**
 The tables of one tenant, updated in place by the transactions of
 internal/storage.  Each method is a transaction or a helper inside one, and is
 proved against the functions on single findings in `Ledger`.
 */
module TenantStore {
  import opened Common
  import opened Strings
  import opened Identity
  import opened Lifecycle
  import opened ReviewCase
  import opened Candidates
  import opened Ledger
  import opened FindingLaws

  // ----- the two phases of a reconciliation -----

  /** What resolving the unseen findings of some tested rules does to one finding. */
  function AbsentAfter(ctx: RunContext, rules: set<string>, seen: set<Key>, key: Key, s: Slice): Slice {
    if s.finding.Some? && Tested(ctx, s.finding.value) && s.finding.value.rule in rules && key !in seen
    then Resolve(s, key, ctx) else s
  }

  function ObservedSlice(w: seq<Workflow>, ctx: RunContext, rows: seq<Row>, key: Key, s: Slice): Slice {
    match RowFor(ctx, rows, key)
    case Some(row) => Observe(w, s, ctx, row)
    case None => s
  }

  /** The rows have been observed, and nothing else has happened. */
  ghost predicate AllObserved(l: Tables, m: Tables, ctx: RunContext, rows: seq<Row>) {
    && m.workflows == l.workflows
    && l.trail <= m.trail && l.caseTrail <= m.caseTrail
    && m.observations == l.observations + Observations(l, ctx, rows)
    && forall key :: At(m, key) == ObservedSlice(l.workflows, ctx, rows, key, At(l, key))
  }

  predicate HasObservation(observations: seq<Observation>, run: nat, key: Key) {
    exists o :: o in observations && o.run == run && o.key == key
  }

  /** No finding is flagged twice, and none of the flagged ones was observed by the run before. */
  predicate Unseen(observations: seq<Observation>, ctx: RunContext, rows: seq<Row>) {
    && DistinctKeys(ctx, rows)
    && forall i :: 0 <= i < |rows| ==> !HasObservation(observations, ctx.run, KeyOf(ctx, rows[i].candidate))
  }

  lemma {:induction false} NothingObserved(l: Tables, ctx: RunContext)
    ensures Unseen(l.observations, ctx, []) && AllObserved(l, l, ctx, [])
  {
  }

  lemma {:induction false} ObservationKeys(l: Tables, ctx: RunContext, rows: seq<Row>)
    ensures |Observations(l, ctx, rows)| == |rows|
    ensures forall j :: 0 <= j < |rows| ==>
      Observations(l, ctx, rows)[j].run == ctx.run && Observations(l, ctx, rows)[j].key == KeyOf(ctx, rows[j].candidate)
  {
    hide At, KeyOf, Verdict;
  }

  lemma {:induction false} HasObservationNext(l: Tables, m: Tables, ctx: RunContext, rows: seq<Row>, key: Key)
    requires m.observations == l.observations + Observations(l, ctx, rows)
    ensures HasObservation(m.observations, ctx.run, key) <==>
      HasObservation(l.observations, ctx.run, key)
        || exists j :: 0 <= j < |rows| && KeyOf(ctx, rows[j].candidate) == key
  {
    hide At, KeyOf, Verdict, Observations;
    ObservationKeys(l, ctx, rows);
    var more := Observations(l, ctx, rows);
    if j :| 0 <= j < |rows| && KeyOf(ctx, rows[j].candidate) == key {
      assert more[j] in m.observations && more[j].key == key;
    }
    if o :| o in l.observations && o.run == ctx.run && o.key == key {
      assert o in m.observations;
    }
  }

  lemma {:induction false} UnseenNext(l: Tables, m: Tables, ctx: RunContext, rows: seq<Row>, i: nat)
    requires i < |rows| && AllObserved(l, m, ctx, rows[..i]) && Unseen(l.observations, ctx, rows[..i])
    ensures HasObservation(m.observations, ctx.run, KeyOf(ctx, rows[i].candidate)) <==>
      !Unseen(l.observations, ctx, rows[..i + 1])
    ensures !Unseen(l.observations, ctx, rows[..i + 1]) ==> !Unseen(l.observations, ctx, rows)
  {
    hide At, KeyOf, Verdict, Observations, HasObservation;
    HasObservationNext(l, m, ctx, rows[..i], KeyOf(ctx, rows[i].candidate));
    assert forall j :: 0 <= j < i ==> rows[..i][j] == rows[j] == rows[..i + 1][j];
    assert rows[..i + 1][i] == rows[i];
  }

  lemma {:induction false} ObserveGrows(w: seq<Workflow>, s: Slice, ctx: RunContext, row: Row)
    ensures var t := Observe(w, s, ctx, row);
      Grows(s, t) && forall i :: |s.trail| <= i < |t.trail| ==> t.trail[i].key == KeyOf(ctx, row.candidate)
  {
    hide NewEvent, ExceptionKey;
  }

  lemma {:induction false} RowForLast(ctx: RunContext, rows: seq<Row>, row: Row, key: Key)
    ensures RowFor(ctx, rows + [row], key) ==
      if KeyOf(ctx, row.candidate) == key then Some(row) else RowFor(ctx, rows, key)
  {
    assert (rows + [row])[..|rows + [row]| - 1] == rows;
  }

  lemma {:induction false} ObserveNext(l: Tables, m: Tables, n: Tables, ctx: RunContext, rows: seq<Row>, row: Row)
    requires AllObserved(l, m, ctx, rows)
    requires Unseen(l.observations, ctx, rows + [row])
    requires var key := KeyOf(ctx, row.candidate); var t := Observe(m.workflows, At(m, key), ctx, row);
      Grows(At(m, key), t)
      && n == Put(m, key, t).(observations := m.observations + [Observed(At(m, key), ctx, row)])
    ensures AllObserved(l, n, ctx, rows + [row])
  {
    hide EventsOf, CaseEventsOf, Observe, KeyOf;
    var key := KeyOf(ctx, row.candidate);
    var t := Observe(m.workflows, At(m, key), ctx, row);
    ObserveGrows(m.workflows, At(m, key), ctx, row);
    RowForFinds(ctx, rows, key);
    assert forall i :: 0 <= i < |rows| ==> (rows + [row])[i] == rows[i];
    assert (rows + [row])[|rows|] == row;
    forall other
      ensures At(n, other) == ObservedSlice(l.workflows, ctx, rows + [row], other, At(l, other))
    {
      hide Put, Grows;
      PutAt(m, key, t, other);
      RowForLast(ctx, rows, row, other);
      assert At(n, other) == At(Put(m, key, t), other);
      assert At(m, other) == ObservedSlice(l.workflows, ctx, rows, other, At(l, other));
    }
    assert Observations(l, ctx, rows + [row]) == Observations(l, ctx, rows) + [Observed(At(l, key), ctx, row)];
  }

  lemma {:induction false} RunAssembled(l: Tables, m: Tables, n: Tables, ctx: RunContext, rows: seq<Row>,
      seen: set<Key>)
    requires AllObserved(l, m, ctx, rows) && seen == set j | 0 <= j < |rows| :: KeyOf(ctx, rows[j].candidate)
    requires n.workflows == m.workflows && n.caseTrail == m.caseTrail && n.observations == m.observations
    requires m.trail <= n.trail
    requires forall key :: At(n, key) == AbsentAfter(ctx, ctx.scope.Keys, seen, key, At(m, key))
    ensures Reconciled(l, n, ctx, rows)
  {
    hide At, Observe, Resolve, KeyOf;
    forall key
      ensures At(n, key) == RunSlice(l.workflows, ctx, rows, key, At(l, key))
    {
      RowForFinds(ctx, rows, key);
      assert At(m, key) == ObservedSlice(l.workflows, ctx, rows, key, At(l, key));
      assert At(n, key) == AbsentAfter(ctx, ctx.scope.Keys, seen, key, At(m, key));
    }
  }

  /** The event that observing a row adds, if the state changes. */
  function ObserveEvents(l: Tables, ctx: RunContext, row: Row): seq<Event> {
    var key := KeyOf(ctx, row.candidate);
    var s := At(l, key);
    var (state, verdict) := Verdict(s, ctx, row.candidate);
    if s.State() == state then []
    else [NewEvent(EventsOf(l.trail, key), key, "system", verdict, "Run reconciliation", s.State(), state, ctx.at)]
  }

  /** The tables between the upsert and the case of an observed row. */
  function ObservedRows(l: Tables, ctx: RunContext, row: Row, observations: seq<Observation>): Tables {
    var key := KeyOf(ctx, row.candidate);
    l.(findings := l.findings[key := Seen(At(l, key), ctx, row)], trail := l.trail + ObserveEvents(l, ctx, row),
       observations := observations)
  }

  lemma {:induction false} ObservePuts(l: Tables, ctx: RunContext, row: Row, observations: seq<Observation>)
    ensures var key := KeyOf(ctx, row.candidate);
      var s, m := At(l, key), ObservedRows(l, ctx, row, observations);
      var t := Observe(l.workflows, s, ctx, row);
      && At(m, key).finding.Some? && t == SyncCase(l.workflows, At(m, key), Verdict(s, ctx, row.candidate).0)
      && Grows(s, t) && (Grows(At(m, key), t) ==> Put(m, key, t) == Put(l, key, t).(observations := observations))
  {
    hide EventsOf, CaseEventsOf, Put, Grows, Seen, SyncCase, NewEvent, ExceptionKey, Verdict;
    var key := KeyOf(ctx, row.candidate);
    var s := At(l, key);
    var events, state := ObserveEvents(l, ctx, row), Verdict(s, ctx, row.candidate).0;
    var u := s.(finding := Some(Seen(s, ctx, row)), trail := s.trail + events);
    assert s.trail + [] == s.trail;
    assert Observe(l.workflows, s, ctx, row) == SyncCase(l.workflows, u, state);
    PutAppends(l, key, u, events, []);
    var m := Put(l, key, u);
    assert m.(observations := observations) == ObservedRows(l, ctx, row, observations);
    SyncGrows(l.workflows, u, state);
    PutTwice(l, key, u, SyncCase(l.workflows, u, state));
    PutKeepsObservations(m, key, u, observations);
    PutKeepsObservations(m, key, SyncCase(l.workflows, u, state), observations);
  }

  datatype Account = Account(roles: set<string>, enabled: bool)

  /** The person has an enabled account with the role of the case's step. */
  predicate HoldsRole(w: Workflow, c: Case, users: map<string, Account>, person: string) {
    c.step < |w.steps| && person in users && users[person].enabled && w.steps[c.step].role in users[person].roles
  }

  lemma {:induction false} AssignsQualified(w: Workflow, c: Case, call: Call)
    requires Act(w, c, call).Ok?
    ensures call.kind == Assign && call.assignee != "" ==> call.qualified
  {
    hide NoteOk;
  }

  class Tenant {
    var findings: map<Key, Finding>
    var trail: seq<Event>
    var cases: map<Key, Case>
    var caseTrail: seq<CaseEntry>
    var workflows: seq<Workflow>
    var observations: seq<Observation>
    var users: map<string, Account>

    constructor ()
      ensures Rows() == EMPTY
    {
      findings, trail, cases, caseTrail, workflows, observations := map[], [], map[], [], [], [];
      users := map[];
    }

    function Rows(): Tables
      reads this
    {
      Tables(findings, trail, cases, caseTrail, workflows, observations)
    }

    /** Appends a trail row that continues the finding's latest one. */
    method LogEvent(key: Key, actor: string, action: string, reason: string, from: State, to: State, at: int)
      modifies `trail
      ensures trail == old(trail) + [NewEvent(EventsOf(old(trail), key), key, actor, action, reason, from, to, at)]
    {
      var latest := EventsOf(trail, key);
      var previous := HeadHash(latest);
      var e := Event(key, |latest|, actor, action, reason, from, to, at, previous, Blank);
      trail := trail + [e.(hash := Hashed(e))];
    }

    method Dispose(key: Key, actor: string, reason: string, to: State, revision: int, expiry: Option<int>, now: int)
      returns (error: Option<Error>)
      modifies this
      ensures match Ledger.Dispose(old(At(Rows(), key)), key, actor, reason, to, revision, expiry, now)
        case Ok(t) => error.None? && Grows(old(At(Rows(), key)), t) && Rows() == Put(old(Rows()), key, t)
        case Err(e) => error == Some(e) && Rows() == old(Rows())
      ensures Commits(old(Rows()), Disposal(key, actor, reason, to, revision, expiry, now), Rows())
    {
      hide EventsOf, CaseEventsOf, Put, Commits, NewEvent;
      ghost var l, op := Rows(), Disposal(key, actor, reason, to, revision, expiry, now);
      RejectionCommits(l, op);
      if key !in findings { return Some(NotFound); }
      var f := findings[key];
      if f.revision != revision { return Some(Conflict); }
      if key in cases { return Some(Conflict); }
      if !Transition(f.state, to, TrimSpace(reason), expiry, now) { return Some(Invalid); }
      findings := findings[key := f.(state := to, expiry := expiry, revision := f.revision + 1)];
      LogEvent(key, actor, "disposition", reason, f.state, to, now);
      ghost var t := Ledger.Dispose(At(l, key), key, actor, reason, to, revision, expiry, now).value;
      PutAppends(l, key, t, trail[|l.trail|..], []);
      PutCommits(l, op, key, t);
      return None;
    }

    method Comment(key: Key, actor: string, body: string, now: int) returns (error: Option<Error>)
      modifies this
      ensures match Ledger.Comment(old(At(Rows(), key)), key, actor, body, now)
        case Ok(t) => error.None? && Grows(old(At(Rows(), key)), t) && Rows() == Put(old(Rows()), key, t)
        case Err(e) => error == Some(e) && Rows() == old(Rows())
      ensures Commits(old(Rows()), Remark(key, actor, body, now), Rows())
    {
      hide EventsOf, CaseEventsOf, Put, Commits, NewEvent;
      ghost var l, op := Rows(), Remark(key, actor, body, now);
      RejectionCommits(l, op);
      if |TrimSpace(body)| < 1 || |body| > 4000 { return Some(Invalid); }
      if key !in findings { return Some(NotFound); }
      LogEvent(key, actor, "comment", body, findings[key].state, findings[key].state, now);
      ghost var t := Ledger.Comment(At(l, key), key, actor, body, now).value;
      PutAppends(l, key, t, trail[|l.trail|..], []);
      PutCommits(l, op, key, t);
      return None;
    }

    /** The directory's answer about the assignee of the case's current step. */
    predicate Qualified(key: Key, assignee: string)
      reads this
    {
      && key in cases && 1 <= cases[key].workflow <= |workflows|
      && HoldsRole(workflows[cases[key].workflow - 1], cases[key], users, assignee)
    }

    /** The switch of `ActOnCase` on the row it has locked, working on local copies of its columns. */
    static method Decide(w: Workflow, row: Case, call: Call, qualified: bool)
      returns (after: Case, to: Option<State>, error: Option<Error>)
      requires call.qualified == qualified
      ensures match Act(w, row, call)
        case Ok(m) => error.None? && after == m.after && to == m.finding
        case Err(e) => error == Some(e)
    {
      after, to := row, None;
      if |TrimSpace(call.note)| < 3 || |call.note| > 4000 { error := Some(Invalid); return; }
      var index, status, assignee, lastActor := row.step, row.status, row.assignee, row.lastActor;
      if row.revision != call.revision { error := Some(Conflict); return; }
      if index >= |w.steps| { error := Some(Invalid); return; }
      var step := w.steps[index];
      var manager := MANAGER in call.roles;
      error := Some(Invalid);
      if call.kind == ReviewCase.Reopen {
        if status != Closed || !manager { return; }
        index, status, assignee, lastActor := 0, Ongoing, "", "";
        to := Some(InReview);
      } else {
        if status != Ongoing { return; }
        match call.kind {
          case Assign =>
            if !manager && step.role !in call.roles { return; }
            if !manager && (call.assignee != call.actor || (assignee != "" && assignee != call.actor)) { return; }
            if call.assignee != "" && !qualified { return; }
            assignee := call.assignee;
          case Advance =>
            if step.role !in call.roles || (assignee != "" && assignee != call.actor) { return; }
            if step.differentActor && lastActor == call.actor { return; }
            lastActor := call.actor;
            assignee := "";
            if index == |w.steps| - 1 {
              if call.resolution != "accepted" && call.resolution != "dismissed" { return; }
              status := Closed;
              to := Some(if call.resolution == "accepted" then Accepted else Dismissed);
            } else {
              index := index + 1;
            }
          case Return =>
            if step.role !in call.roles || (assignee != "" && assignee != call.actor) { return; }
            if index == 0 { return; }
            index := index - 1;
            assignee := "";
          case _ =>
            return;
        }
      }
      after := Case(row.workflow, index, status, assignee, lastActor, row.revision + 1);
      error := None;
    }

    /** Closing a case clears the expiry of its finding; reopening it does not. */
    method MoveFinding(key: Key, call: Call, to: State, now: int)
      requires key in findings
      modifies `findings, `trail
      ensures var f, reopening := old(findings)[key], call.kind == ReviewCase.Reopen;
        && findings == old(findings)[key :=
           f.(state := to, expiry := if reopening then f.expiry else None, revision := f.revision + 1)]
        && trail == old(trail) + [NewEvent(EventsOf(old(trail), key), key, call.actor,
                                           if reopening then "workflow.reopen" else "workflow.close",
                                           call.note, f.state, to, now)]
    {
      hide EventsOf, NewEvent;
      var f := findings[key];
      if call.kind == ReviewCase.Reopen {
        findings := findings[key := f.(state := to, revision := f.revision + 1)];
        LogEvent(key, call.actor, "workflow.reopen", call.note, f.state, to, now);
      } else {
        findings := findings[key := f.(state := to, expiry := None, revision := f.revision + 1)];
        LogEvent(key, call.actor, "workflow.close", call.note, f.state, to, now);
      }
    }

    /** Writes back what an accepted call makes of the case, and of the finding. */
    method Settle(key: Key, call: Call, now: int, after: Case, to: Option<State>)
      requires key in findings && key in cases && 1 <= cases[key].workflow <= |workflows| && NoteOk(call.note)
      requires Act(workflows[cases[key].workflow - 1], cases[key], call) == Ok(Move(after, to))
      modifies this
      ensures users == old(users)
      ensures Ledger.ActOnCase(old(workflows), old(At(Rows(), key)), key, call, now).Ok?
      ensures var t := Ledger.ActOnCase(old(workflows), old(At(Rows(), key)), key, call, now).value;
        Grows(old(At(Rows(), key)), t) && Rows() == Put(old(Rows()), key, t)
        && forall i :: |old(At(Rows(), key)).trail| <= i < |t.trail| ==> t.trail[i].key == key
    {
      hide Act, EventsOf, CaseEventsOf, Put, Grows, NewEvent, NoteOk;
      ghost var l := Rows();
      if to.Some? {
        MoveFinding(key, call, to.value, now);
      }
      cases := cases[key := after];
      caseTrail := caseTrail + [CaseEntry(key, ByUser(call))];
      ghost var t := Ledger.ActOnCase(l.workflows, At(l, key), key, call, now).value;
      PutAppends(l, key, t, trail[|l.trail|..], [ByUser(call)]);
    }

    method ActOnCase(key: Key, call: Call, now: int) returns (error: Option<Error>)
      requires call.qualified == Qualified(key, call.assignee)
      modifies this
      ensures match Ledger.ActOnCase(old(workflows), old(At(Rows(), key)), key, call, now)
        case Ok(t) => error.None? && Grows(old(At(Rows(), key)), t) && Rows() == Put(old(Rows()), key, t)
        case Err(e) => error == Some(e) && Rows() == old(Rows())
      ensures Commits(old(Rows()), CaseCall(key, call, now), Rows())
      ensures users == old(users)
      ensures error.None? && call.kind == Assign && call.assignee != "" ==>
        key in old(cases) && 1 <= old(cases)[key].workflow <= |old(workflows)|
        && var steps := old(workflows)[old(cases)[key].workflow - 1].steps;
           old(cases)[key].step < |steps| && call.assignee in users && users[call.assignee].enabled
           && steps[old(cases)[key].step].role in users[call.assignee].roles
    {
      hide Act, EventsOf, CaseEventsOf, Put, Grows, Commits, TrimSpace;
      ghost var l, op := Rows(), CaseCall(key, call, now);
      RejectionCommits(l, op);
      if |TrimSpace(call.note)| < 3 || |call.note| > 4000 { return Some(Invalid); }
      if key !in findings || key !in cases { return Some(NotFound); }
      var row := cases[key];
      if !(1 <= row.workflow <= |workflows|) { return Some(NotFound); }
      var after, to, refusal := Decide(workflows[row.workflow - 1], row, call, Qualified(key, call.assignee));
      if refusal.Some? { return refusal; }
      AssignsQualified(workflows[row.workflow - 1], row, call);
      Settle(key, call, now, after, to);
      PutCommits(l, op, key, Ledger.ActOnCase(l.workflows, At(l, key), key, call, now).value);
      return None;
    }

    /** Publishes the next workflow revision and enrols the active findings without a case. */
    method SaveWorkflow(w: Workflow, revision: int) returns (error: Option<Error>)
      modifies this
      ensures error ==
        if !Valid(w) then Some(Invalid) else if revision != |old(workflows)| then Some(Conflict) else None
      ensures Commits(old(Rows()), Publication(w, revision), Rows())
    {
      var ok := Validate(w);
      var current := |workflows|;
      ghost var l := Rows();
      if ok && current == revision {
        workflows := workflows + [w];
        cases := cases + (map key | key in findings && Active(findings[key].state) && key !in cases
                          :: Opened(current + 1));
        error := None;
      } else {
        error := if ok then Some(Conflict) else Some(Invalid);
      }
      forall key
        ensures CommitsTo(l, Publication(w, revision), Rows(), key)
      {
      }
    }

    /** Enrols a flagged finding, and reopens its closed case if the finding was reopened. */
    method SyncCase(key: Key, state: State)
      requires key in findings
      modifies `cases, `caseTrail
      ensures var s := old(At(Rows(), key));
        Grows(s, Ledger.SyncCase(workflows, s, state))
          && Rows() == Put(old(Rows()), key, Ledger.SyncCase(workflows, s, state))
    {
      hide EventsOf, CaseEventsOf, Put, Grows;
      ghost var l := Rows();
      ghost var t := Ledger.SyncCase(workflows, At(l, key), state);
      if key !in cases && |workflows| > 0 {
        cases := cases[key := Opened(|workflows|)];
      }
      if state == Reopened && key in cases && cases[key].status == Closed {
        cases := cases[key := SystemReopen(cases[key])];
        caseTrail := caseTrail + [CaseEntry(key, BySystem)];
        PutAppends(l, key, t, [], [BySystem]);
      } else {
        PutAppends(l, key, t, [], []);
      }
    }

    /** Inserts or updates the row of a flagged candidate. */
    method Upsert(ctx: RunContext, row: Row, state: State)
      requires state == Verdict(At(Rows(), KeyOf(ctx, row.candidate)), ctx, row.candidate).0
      modifies `findings
      ensures var key := KeyOf(ctx, row.candidate);
        findings == old(findings)[key := Seen(old(At(Rows(), key)), ctx, row)]
    {
      var key, c, d := KeyOf(ctx, row.candidate), row.candidate, row.decision;
      var consumed := OfInput(Consumed(c.input));
      if key !in findings {
        findings := findings[key := Finding(ctx.source, ctx.period, c.rule, c.entity, c.entityId,
                                            Evidence(VersionOf(ctx, c), ctx.params, ctx.run, OfInput(c.input), ctx.at),
                                            state, d.severity, d.owner, consumed, None, ctx.at, 1)];
      } else {
        var f := findings[key];
        findings := findings[key := f.(state := state, lastSeen := ctx.at, consumed := consumed,
                                       revision := f.revision + 1, severity := d.severity, owner := d.owner)];
      }
    }

    /** Records one flagged candidate; fails when this run has already observed its finding. */
    method Observe(ctx: RunContext, row: Row) returns (key: Key, error: bool)
      modifies this
      ensures key == KeyOf(ctx, row.candidate)
      ensures error <==> HasObservation(old(observations), ctx.run, key)
      ensures !error ==> var s := old(At(Rows(), key)); var t := Ledger.Observe(old(workflows), s, ctx, row);
        Grows(s, t)
        && Rows() == Put(old(Rows()), key, t).(observations := old(observations) + [Observed(s, ctx, row)])
      ensures workflows == old(workflows) && users == old(users)
    {
      hide At, Put, Grows, Seen, Ledger.SyncCase, NewEvent, KeyOf, Ledger.Observe, Reconcile, Verdict;
      key := KeyOf(ctx, row.candidate);
      ghost var l, s := Rows(), At(Rows(), key);
      var oldState, state, verdict := Classify(ctx, row);
      Upsert(ctx, row, state);
      error := HasObservation(observations, ctx.run, key);
      if error { return; }
      var c := row.candidate;
      observations := observations + [Observation(key, ctx.run, c.rule, VersionOf(ctx, c), ctx.params,
                                                  OfInput(c.input), c.input, row.decision, verdict)];
      if oldState != state {
        LogEvent(key, "system", verdict, "Run reconciliation", oldState, state, ctx.at);
      }
      assert observations == l.observations + [Observed(s, ctx, row)];
      assert trail == l.trail + ObserveEvents(l, ctx, row);
      assert Rows() == ObservedRows(l, ctx, row, observations);
      ObservePuts(l, ctx, row, observations);
      SyncCase(key, state);
    }

    /** The state of the finding's row, and what `Reconcile` makes of it. */
    method Classify(ctx: RunContext, row: Row) returns (oldState: State, state: State, verdict: string)
      ensures var s := At(Rows(), KeyOf(ctx, row.candidate));
        oldState == s.State() && (state, verdict) == Verdict(s, ctx, row.candidate)
    {
      hide EventsOf, CaseEventsOf, Reconcile, ExceptionKey;
      var key := KeyOf(ctx, row.candidate);
      var oldHash, expiry := Blank, None;
      oldState := Absent;
      if key in findings {
        oldState, oldHash, expiry := findings[key].state, findings[key].consumed, findings[key].expiry;
      }
      var r := Reconcile(oldState, true, oldHash, OfInput(Consumed(row.candidate.input)), expiry, ctx.at);
      state, verdict := r.0, r.1;
    }

    method ResolveOne(ctx: RunContext, key: Key)
      requires key in findings
      modifies `findings, `trail
      ensures old(trail) <= trail
      ensures forall other :: At(Rows(), other) ==
                (if other == key then Resolve(old(At(Rows(), key)), key, ctx) else old(At(Rows(), other)))
    {
      hide EventsOf, CaseEventsOf, NewEvent, Put;
      ghost var l := Rows();
      var f := findings[key];
      var (state, verdict) := Reconcile(f.state, false, f.consumed, Blank, f.expiry, ctx.at);
      findings := findings[key := f.(state := state, revision := f.revision + 1)];
      LogEvent(key, "system", verdict, "No longer present in the tested population", f.state, state, ctx.at);
      ghost var t := Resolve(At(l, key), key, ctx);
      PutAppends(l, key, t, trail[|l.trail|..], []);
      forall other
        ensures At(Rows(), other) == if other == key then t else At(l, other)
      {
        PutAt(l, key, t, other);
      }
    }

    /** Resolves the active findings of one tested rule that this run did not see. */
    method ResolveAbsent(ctx: RunContext, rule: string, seen: set<Key>)
      modifies `findings, `trail
      ensures old(trail) <= trail
      ensures forall key :: At(Rows(), key) == AbsentAfter(ctx, {rule}, seen, key, old(At(Rows(), key)))
    {
      hide EventsOf, CaseEventsOf, Resolve;
      ghost var l := Rows();
      var absent := set key | key in findings && Tested(ctx, findings[key]) && findings[key].rule == rule
        && key !in seen;
      ghost var all := absent;
      while absent != {}
        invariant absent <= all
        invariant l.trail <= trail
        invariant forall key ::
          At(Rows(), key) == if key in all && key !in absent then Resolve(At(l, key), key, ctx) else At(l, key)
      {
        var key :| key in absent;
        ghost var before := Rows();
        assert At(before, key) == At(l, key);
        ResolveOne(ctx, key);
        absent := absent - {key};
      }
    }

    /** Observes the flagged rows in turn; stops at a finding this run has observed before. */
    method ObserveAll(ctx: RunContext, rows: seq<Row>) returns (seen: set<Key>, error: bool)
      modifies this
      ensures workflows == old(workflows) && users == old(users)
      ensures error <==> !Unseen(old(observations), ctx, rows)
      ensures !error ==> seen == set j | 0 <= j < |rows| :: KeyOf(ctx, rows[j].candidate)
      ensures !error ==> AllObserved(old(Rows()), Rows(), ctx, rows)
    {
      hide EventsOf, CaseEventsOf, Put, Ledger.Observe, At, AllObserved, Unseen, HasObservation, Grows;
      ghost var l := Rows();
      seen, error := {}, false;
      NothingObserved(l, ctx);
      assert rows[..0] == [];
      for i := 0 to |rows|
        invariant !error && workflows == l.workflows && users == old(users)
        invariant seen == set j | 0 <= j < i :: KeyOf(ctx, rows[j].candidate)
        invariant Unseen(l.observations, ctx, rows[..i])
        invariant AllObserved(l, Rows(), ctx, rows[..i])
      {
        ghost var m := Rows();
        UnseenNext(l, m, ctx, rows, i);
        var key;
        key, error := Observe(ctx, rows[i]);
        if error { return; }
        seen := seen + {key};
        assert rows[..i + 1] == rows[..i] + [rows[i]];
        ObserveNext(l, m, Rows(), ctx, rows[..i], rows[i]);
      }
      assert rows[..|rows|] == rows;
    }

    /**
     The reconciling part of a run's transaction.  Observing a finding twice
     violates the table's unique constraint; the transaction then rolls back.
     */
    method ReconcileRun(ctx: RunContext, rows: seq<Row>) returns (error: bool)
      modifies this
      ensures error <==> !Unseen(old(observations), ctx, rows)
      ensures error ==> Rows() == old(Rows())
      ensures !error ==> Reconciled(old(Rows()), Rows(), ctx, rows)
      ensures !error && ValidRows(ctx, rows) ==> Commits(old(Rows()), Run(ctx, rows), Rows())
    {
      hide EventsOf, CaseEventsOf, At, AllObserved, Reconciled, Unseen;
      ghost var l := Rows();
      var saved := (findings, trail, cases, caseTrail, observations);
      var seen;
      seen, error := ObserveAll(ctx, rows);
      if error {
        findings, trail, cases, caseTrail, observations := saved.0, saved.1, saved.2, saved.3, saved.4;
        return;
      }
      ghost var m := Rows();
      var rules, done := ctx.scope.Keys, {};
      while rules != {}
        invariant done + rules == ctx.scope.Keys
        invariant workflows == m.workflows && cases == m.cases && caseTrail == m.caseTrail
          && observations == m.observations
        invariant m.trail <= trail
        invariant forall key :: At(Rows(), key) == AbsentAfter(ctx, done, seen, key, At(m, key))
      {
        var rule :| rule in rules;
        ResolveAbsent(ctx, rule, seen);
        rules, done := rules - {rule}, done + {rule};
      }
      assert done == ctx.scope.Keys;
      RunAssembled(l, m, Rows(), ctx, rows, seen);
      if ValidRows(ctx, rows) {
        ReconciledCommits(l, Rows(), ctx, rows);
      }
    }
  }
}
