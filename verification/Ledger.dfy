/**
 Findings, their hash-chained trail and their review cases, and what every
 transaction does to them (internal/storage/pipeline.go, exceptions.go and
 workflows.go).  A transaction is described finding by finding: `At` cuts the
 tables down to one finding, and each operation is a function on such slices.
 How the trail rows of different findings interleave is left open.
 */
module Ledger {
  import opened Common
  import opened Strings
  import opened Identity
  import opened Lifecycle
  import opened ReviewCase
  import opened Rules
  import opened Candidates

  type Key = Digest

  /** What the row recorded when the finding was first seen. */
  datatype Evidence = Evidence(version: Digest, params: Digest, snapshot: nat, inputHash: Digest, seen: int)

  datatype Finding = Finding(source: string, period: string, rule: string, entity: string, entityId: string,
                             origin: Evidence, state: State, severity: string, owner: string, consumed: Digest,
                             expiry: Option<int>, lastSeen: int, revision: int)

  /** A row of `exception_event`; `id` numbers the event within its finding. */
  datatype Event = Event(key: Key, id: nat, actor: string, action: string, reason: string,
                         from: State, to: State, at: int, previous: Digest, hash: Digest)

  datatype CaseEntry = CaseEntry(key: Key, event: CaseEvent)

  datatype Observation = Observation(key: Key, run: nat, rule: string, version: Digest, params: Digest,
                                     inputHash: Digest, input: map<string, Value>, decision: Decision, verdict: string)

  datatype Tables = Tables(findings: map<Key, Finding>, trail: seq<Event>, cases: map<Key, Case>,
                           caseTrail: seq<CaseEntry>, workflows: seq<Workflow>, observations: seq<Observation>)

  const EMPTY := Tables(map[], [], map[], [], [], [])

  // ----- one finding at a time -----

  function EventsOf(trail: seq<Event>, key: Key): seq<Event> {
    if trail == [] then []
    else EventsOf(trail[..|trail| - 1], key) + (if trail[|trail| - 1].key == key then [trail[|trail| - 1]] else [])
  }

  function CaseEventsOf(trail: seq<CaseEntry>, key: Key): seq<CaseEvent> {
    if trail == [] then []
    else CaseEventsOf(trail[..|trail| - 1], key)
         + (if trail[|trail| - 1].key == key then [trail[|trail| - 1].event] else [])
  }

  datatype Slice = Slice(finding: Option<Finding>, trail: seq<Event>, review: Option<Case>, caseTrail: seq<CaseEvent>) {
    function State(): State {
      if finding.Some? then finding.value.state else Absent
    }
  }

  function At(l: Tables, key: Key): Slice {
    Slice(if key in l.findings then Some(l.findings[key]) else None, EventsOf(l.trail, key),
          if key in l.cases then Some(l.cases[key]) else None, CaseEventsOf(l.caseTrail, key))
  }

  // ----- the trail -----

  function HeadHash(trail: seq<Event>): Digest {
    if trail == [] then Blank else trail[|trail| - 1].hash
  }

  function LastState(trail: seq<Event>): State {
    if trail == [] then Absent else trail[|trail| - 1].to
  }

  function Hashed(e: Event): Digest {
    OfEvent(e.previous, e.id, e.key, [e.actor, e.action, e.reason, Label(e.from), Label(e.to)], e.at)
  }

  /** The event appended after `trail`. */
  function NewEvent(trail: seq<Event>, key: Key, actor: string, action: string, reason: string, from: State,
      to: State, at: int): (r: Event)
    ensures r.key == key
  {
    var e := Event(key, |trail|, actor, action, reason, from, to, at, HeadHash(trail), Blank);
    e.(hash := Hashed(e))
  }

  function Log(s: Slice, key: Key, actor: string, action: string, reason: string, from: State, to: State,
      at: int): Slice
  {
    s.(trail := s.trail + [NewEvent(s.trail, key, actor, action, reason, from, to, at)])
  }

  // ----- operations -----

  function Dispose(s: Slice, key: Key, actor: string, reason: string, to: State, revision: int, expiry: Option<int>,
      now: int): Result<Slice, Error>
  {
    if s.finding.None? then Err(NotFound)
    else
      var f := s.finding.value;
      if f.revision != revision then Err(Conflict)
      else if s.review.Some? then Err(Conflict)
      else if !Transition(f.state, to, TrimSpace(reason), expiry, now) then Err(Invalid)
      else
        var g := f.(state := to, expiry := expiry, revision := f.revision + 1);
        Ok(Log(s.(finding := Some(g)), key, actor, "disposition", reason, f.state, to, now))
  }

  function Comment(s: Slice, key: Key, actor: string, body: string, now: int): Result<Slice, Error> {
    if |TrimSpace(body)| < 1 || |body| > 4000 then Err(Invalid)
    else if s.finding.None? then Err(NotFound)
    else Ok(Log(s, key, actor, "comment", body, s.State(), s.State(), now))
  }

  function ActOnCase(w: seq<Workflow>, s: Slice, key: Key, call: Call, now: int): Result<Slice, Error> {
    if !NoteOk(call.note) then Err(Invalid)
    else if s.finding.None? || s.review.None? then Err(NotFound)
    else
      var f, c := s.finding.value, s.review.value;
      if !(1 <= c.workflow <= |w|) then Err(NotFound)
      else match Act(w[c.workflow - 1], c, call)
        case Err(e) => Err(e)
        case Ok(m) =>
          var s1 := s.(review := Some(m.after), caseTrail := s.caseTrail + [ByUser(call)]);
          match m.finding
          case None => Ok(s1)
          case Some(to) =>
            var reopening := call.kind == ReviewCase.Reopen;
            var g := f.(state := to, expiry := if reopening then f.expiry else None, revision := f.revision + 1);
            Ok(Log(s1.(finding := Some(g)), key, call.actor,
                   if reopening then "workflow.reopen" else "workflow.close", call.note, f.state, to, now))
  }

  /** Publishing workflow `revision` enrols the active findings that have no case. */
  function Publish(s: Slice, revision: nat): Slice {
    if Active(s.State()) && s.review.None? then s.(review := Some(Opened(revision))) else s
  }

  // ----- a run -----

  datatype RunContext = RunContext(run: nat, source: string, period: string, params: Digest,
                                   scope: map<string, Digest>, at: int)

  function KeyOf(ctx: RunContext, c: Candidate): Key {
    ExceptionKey(c.rule, c.entity, c.entityId, ctx.period)
  }

  function VersionOf(ctx: RunContext, c: Candidate): Digest {
    if c.rule in ctx.scope then ctx.scope[c.rule] else Blank
  }

  /** State and classification that `Reconcile` gives a flagged finding. */
  function Verdict(s: Slice, ctx: RunContext, c: Candidate): (Lifecycle.State, string) {
    var hash := OfInput(Consumed(c.input));
    if s.finding.None? then Reconcile(Absent, true, Blank, hash, None, ctx.at)
    else
      var f := s.finding.value;
      Reconcile(f.state, true, f.consumed, hash, f.expiry, ctx.at)
  }

  function Seen(s: Slice, ctx: RunContext, row: Row): Finding {
    var c, d, hash := row.candidate, row.decision, OfInput(Consumed(row.candidate.input));
    var state := Verdict(s, ctx, c).0;
    if s.finding.None? then
      Finding(ctx.source, ctx.period, c.rule, c.entity, c.entityId,
              Evidence(VersionOf(ctx, c), ctx.params, ctx.run, OfInput(c.input), ctx.at),
              state, d.severity, d.owner, hash, None, ctx.at, 1)
    else
      var f := s.finding.value;
      f.(state := state, lastSeen := ctx.at, consumed := hash, revision := f.revision + 1,
         severity := d.severity, owner := d.owner)
  }

  /** Enrols a flagged finding, and reopens its case if the finding was reopened. */
  function SyncCase(w: seq<Workflow>, s: Slice, state: Lifecycle.State): Slice {
    var t := if s.review.None? && w != [] then s.(review := Some(Opened(|w|))) else s;
    if state == Reopened && t.review.Some? && t.review.value.status == Closed then
      t.(review := Some(SystemReopen(t.review.value)), caseTrail := t.caseTrail + [BySystem])
    else t
  }

  function Observe(w: seq<Workflow>, s: Slice, ctx: RunContext, row: Row): Slice {
    var (state, verdict) := Verdict(s, ctx, row.candidate);
    var t := s.(finding := Some(Seen(s, ctx, row)));
    var u := if s.State() == state then t
             else Log(t, KeyOf(ctx, row.candidate), "system", verdict, "Run reconciliation", s.State(), state, ctx.at);
    SyncCase(w, u, state)
  }

  function Observed(s: Slice, ctx: RunContext, row: Row): Observation {
    var c := row.candidate;
    Observation(KeyOf(ctx, c), ctx.run, c.rule, VersionOf(ctx, c), ctx.params, OfInput(c.input), c.input,
                row.decision, Verdict(s, ctx, c).1)
  }

  /** An active finding of the tested source, period and rules. */
  predicate Tested(ctx: RunContext, f: Finding) {
    f.source == ctx.source && f.period == ctx.period && f.rule in ctx.scope && Active(f.state)
  }

  function Resolve(s: Slice, key: Key, ctx: RunContext): Slice
    requires s.finding.Some?
  {
    var f := s.finding.value;
    var (state, verdict) := Reconcile(f.state, false, f.consumed, Blank, f.expiry, ctx.at);
    Log(s.(finding := Some(f.(state := state, revision := f.revision + 1))), key, "system", verdict,
        "No longer present in the tested population", f.state, state, ctx.at)
  }

  function RowFor(ctx: RunContext, rows: seq<Row>, key: Key): Option<Row> {
    if rows == [] then None
    else if KeyOf(ctx, rows[|rows| - 1].candidate) == key then Some(rows[|rows| - 1])
    else RowFor(ctx, rows[..|rows| - 1], key)
  }

  /** What a run does to one finding. */
  function RunSlice(w: seq<Workflow>, ctx: RunContext, rows: seq<Row>, key: Key, s: Slice): Slice {
    match RowFor(ctx, rows, key)
    case Some(row) => Observe(w, s, ctx, row)
    case None => if s.finding.Some? && Tested(ctx, s.finding.value) then Resolve(s, key, ctx) else s
  }

  predicate DistinctKeys(ctx: RunContext, rows: seq<Row>) {
    forall i, j :: 0 <= i < j < |rows| ==> KeyOf(ctx, rows[i].candidate) != KeyOf(ctx, rows[j].candidate)
  }

  function Observations(l: Tables, ctx: RunContext, rows: seq<Row>): seq<Observation> {
    seq(|rows|, i requires 0 <= i < |rows| => Observed(At(l, KeyOf(ctx, rows[i].candidate)), ctx, rows[i]))
  }

  /** The reconciling transaction of a run, from `l` to `m`. */
  ghost predicate Reconciled(l: Tables, m: Tables, ctx: RunContext, rows: seq<Row>) {
    && m.workflows == l.workflows
    && l.trail <= m.trail && l.caseTrail <= m.caseTrail
    && m.observations == l.observations + Observations(l, ctx, rows)
    && forall key :: At(m, key) == RunSlice(l.workflows, ctx, rows, key, At(l, key))
  }

  // ----- writing a slice back -----

  /** Rows are only ever added, and trail rows only at the end. */
  predicate Grows(s: Slice, t: Slice) {
    && (s.finding.Some? ==> t.finding.Some?) && (s.review.Some? ==> t.review.Some?)
    && s.trail <= t.trail && s.caseTrail <= t.caseTrail
  }

  function Entries(key: Key, events: seq<CaseEvent>): seq<CaseEntry> {
    seq(|events|, i requires 0 <= i < |events| => CaseEntry(key, events[i]))
  }

  function Put(l: Tables, key: Key, t: Slice): Tables
    requires Grows(At(l, key), t)
  {
    var s := At(l, key);
    l.(findings := if t.finding.Some? then l.findings[key := t.finding.value] else l.findings,
       trail := l.trail + t.trail[|s.trail|..],
       cases := if t.review.Some? then l.cases[key := t.review.value] else l.cases,
       caseTrail := l.caseTrail + Entries(key, t.caseTrail[|s.caseTrail|..]))
  }

  /** The tables after adding trail rows and case rows to one finding. */
  lemma {:induction false} PutAppends(l: Tables, key: Key, t: Slice, events: seq<Event>, moves: seq<CaseEvent>)
    requires At(l, key).finding.Some? ==> t.finding.Some?
    requires At(l, key).review.Some? ==> t.review.Some?
    requires t.trail == At(l, key).trail + events && t.caseTrail == At(l, key).caseTrail + moves
    ensures Grows(At(l, key), t)
    ensures Put(l, key, t) == l.(findings := if t.finding.Some? then l.findings[key := t.finding.value] else l.findings,
                                 trail := l.trail + events,
                                 cases := if t.review.Some? then l.cases[key := t.review.value] else l.cases,
                                 caseTrail := l.caseTrail + Entries(key, moves))
  {
    hide EventsOf, CaseEventsOf;
    var s := At(l, key);
    assert t.trail[|s.trail|..] == events && t.caseTrail[|s.caseTrail|..] == moves;
  }

  lemma {:induction false} EventsOfNext(trail: seq<Event>, e: Event, key: Key)
    ensures EventsOf(trail + [e], key) == EventsOf(trail, key) + (if e.key == key then [e] else [])
  {
    assert (trail + [e])[..|trail|] == trail;
  }

  lemma {:induction false} CaseEventsOfNext(trail: seq<CaseEntry>, e: CaseEntry, key: Key)
    ensures CaseEventsOf(trail + [e], key) == CaseEventsOf(trail, key) + (if e.key == key then [e.event] else [])
  {
    assert (trail + [e])[..|trail|] == trail;
  }

  lemma {:induction false} NoEvents(key: Key)
    ensures EventsOf([], key) == [] && CaseEventsOf([], key) == []
  {
  }

  lemma {:induction false} EventsOfAppend(trail: seq<Event>, more: seq<Event>, key: Key)
    ensures EventsOf(trail + more, key) == EventsOf(trail, key) + EventsOf(more, key)
  {
    hide EventsOf;
    if more == [] {
      NoEvents(key);
      assert trail + more == trail;
    } else {
      var front, e := more[..|more| - 1], more[|more| - 1];
      EventsOfAppend(trail, front, key);
      assert more == front + [e] && trail + more == (trail + front) + [e];
      EventsOfNext(trail + front, e, key);
      EventsOfNext(front, e, key);
    }
  }

  lemma {:induction false} CaseEventsOfAppend(trail: seq<CaseEntry>, more: seq<CaseEntry>, key: Key)
    ensures CaseEventsOf(trail + more, key) == CaseEventsOf(trail, key) + CaseEventsOf(more, key)
  {
    hide CaseEventsOf;
    if more == [] {
      NoEvents(key);
      assert trail + more == trail;
    } else {
      var front, e := more[..|more| - 1], more[|more| - 1];
      CaseEventsOfAppend(trail, front, key);
      assert more == front + [e] && trail + more == (trail + front) + [e];
      CaseEventsOfNext(trail + front, e, key);
      CaseEventsOfNext(front, e, key);
    }
  }

  lemma {:induction false} EventsOfOwn(events: seq<Event>, owner: Key, key: Key)
    requires forall i :: 0 <= i < |events| ==> events[i].key == owner
    ensures EventsOf(events, key) == if key == owner then events else []
  {
    hide EventsOf;
    if events == [] {
      NoEvents(key);
    } else {
      var front, e := events[..|events| - 1], events[|events| - 1];
      EventsOfOwn(front, owner, key);
      assert events == front + [e];
      EventsOfNext(front, e, key);
    }
  }

  lemma {:induction false} CaseEventsOfOwn(events: seq<CaseEvent>, owner: Key, key: Key)
    ensures CaseEventsOf(Entries(owner, events), key) == if key == owner then events else []
  {
    hide CaseEventsOf;
    if events == [] {
      NoEvents(key);
      assert Entries(owner, events) == [];
    } else {
      var front, e := events[..|events| - 1], events[|events| - 1];
      CaseEventsOfOwn(front, owner, key);
      assert events == front + [e];
      assert Entries(owner, events) == Entries(owner, front) + [CaseEntry(owner, e)];
      CaseEventsOfNext(Entries(owner, front), CaseEntry(owner, e), key);
    }
  }

  lemma {:induction false} TailAppend(trail: seq<Event>, key: Key, t: seq<Event>, other: Key)
    requires EventsOf(trail, key) <= t
    requires forall i :: |EventsOf(trail, key)| <= i < |t| ==> t[i].key == key
    ensures EventsOf(trail + t[|EventsOf(trail, key)|..], other) == if other == key then t else EventsOf(trail, other)
  {
    var more := t[|EventsOf(trail, key)|..];
    EventsOfAppend(trail, more, other);
    EventsOfOwn(more, key, other);
    assert EventsOf(trail, key) + more == t;
  }

  lemma {:induction false} CaseTailAppend(trail: seq<CaseEntry>, key: Key, t: seq<CaseEvent>, other: Key)
    requires CaseEventsOf(trail, key) <= t
    ensures CaseEventsOf(trail + Entries(key, t[|CaseEventsOf(trail, key)|..]), other) ==
      if other == key then t else CaseEventsOf(trail, other)
  {
    var more := t[|CaseEventsOf(trail, key)|..];
    CaseEventsOfAppend(trail, Entries(key, more), other);
    CaseEventsOfOwn(more, key, other);
    assert CaseEventsOf(trail, key) + more == t;
  }

  /** Writing one finding's slice back changes that finding and no other. */
  lemma {:induction false} PutAt(l: Tables, key: Key, t: Slice, other: Key)
    requires Grows(At(l, key), t)
    requires forall i :: |At(l, key).trail| <= i < |t.trail| ==> t.trail[i].key == key
    ensures At(Put(l, key, t), other) == if other == key then t else At(l, other)
  {
    TailAppend(l.trail, key, t.trail, other);
    CaseTailAppend(l.caseTrail, key, t.caseTrail, other);
  }

  lemma {:induction false} PutKeepsObservations(l: Tables, key: Key, t: Slice, observations: seq<Observation>)
    requires Grows(At(l, key), t)
    ensures At(l.(observations := observations), key) == At(l, key)
    ensures Put(l.(observations := observations), key, t) == Put(l, key, t).(observations := observations)
  {
  }

  lemma {:induction false} EntriesConcat(key: Key, a: seq<CaseEvent>, b: seq<CaseEvent>)
    ensures Entries(key, a + b) == Entries(key, a) + Entries(key, b)
  {
  }

  /** Writing a slice and then a later one is writing the later one. */
  lemma {:induction false} PutTwice(l: Tables, key: Key, t: Slice, u: Slice)
    requires Grows(At(l, key), t) && Grows(t, u)
    requires forall i :: |At(l, key).trail| <= i < |t.trail| ==> t.trail[i].key == key
    ensures At(Put(l, key, t), key) == t
    ensures Grows(At(l, key), u) && Put(Put(l, key, t), key, u) == Put(l, key, u)
  {
    hide EventsOf, CaseEventsOf, Entries;
    PutAt(l, key, t, key);
    var s := At(l, key);
    var n, m := |s.trail|, |s.caseTrail|;
    assert t.trail[n..] + u.trail[|t.trail|..] == u.trail[n..];
    assert t.caseTrail[m..] + u.caseTrail[|t.caseTrail|..] == u.caseTrail[m..];
    EntriesConcat(key, t.caseTrail[m..], u.caseTrail[|t.caseTrail|..]);
  }
}
