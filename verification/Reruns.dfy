/** The same population once more: what a second run changes, at once or after people have worked on the findings. */
module Reruns {
  import opened Common
  import opened Identity
  import opened Lifecycle
  import opened ReviewCase
  import opened Rules
  import opened Candidates
  import opened Ledger
  import opened FindingLaws
  import opened RunLaws
  import opened Analysis
  import opened AnalysisLaws

  // ----- the same evidence -----

  /** The payloads test one population alike: they may hold different versions of the same rules. */
  predicate SamePopulation(x: Payload, y: Payload) {
    x.population == y.population && x.params == y.params && x.manifest.Keys == y.manifest.Keys
  }

  /** The payload reaches reconciliation with versions that passed the guard and the fixtures. */
  ghost predicate ReadyReleased(x: Payload, versions: Versions) {
    && Analyse(x, versions).Ready? && VersionsAccepted(versions)
    && ScopeReleased(Analyse(x, versions).scope, versions)
  }

  lemma {:induction false} SameCandidates(x: Payload, v: Versions, y: Payload, w: Versions)
    returns (candidates: seq<Candidate>)
    requires SamePopulation(x, y) && Analyse(x, v).Ready? && Analyse(y, w).Ready?
    ensures Prepared(x, v, Analyse(x, v).scope, candidates) && Prepared(y, w, Analyse(y, w).scope, candidates)
    ensures Analyse(x, v).scope.Keys == Analyse(y, w).scope.Keys
  {
    hide Analyse, Populations.Valid, Generate, Models, ValidParameters, AllPriced;
    candidates := ReadyMeans(x, v);
    var same := ReadyMeans(y, w);
    assert Analyse(x, v).scope.Keys == Analyse(y, w).scope.Keys;
  }

  /** What one run flags, the other flags for the same candidate. */
  lemma {:induction false} FlaggedTwice(x: Payload, v: Versions, c1: RunContext, y: Payload, w: Versions,
      c2: RunContext, key: Key)
    requires SamePopulation(x, y) && ReadyReleased(x, v) && ReadyReleased(y, w)
    requires c1.source == c2.source == x.population.source && c1.period == c2.period == x.population.period.id
    requires RowFor(c1, Analyse(x, v).rows, key).Some?
    ensures var a, b := RowFor(c1, Analyse(x, v).rows, key), RowFor(c2, Analyse(y, w).rows, key);
      b.Some? && b.value.candidate == a.value.candidate
  {
    hide Analyse, Prepared, VersionsAccepted, ScopeReleased, KeyOf, RowFor;
    var r, q := Analyse(x, v), Analyse(y, w);
    var candidates := SameCandidates(x, v, y, w);
    RowForFinds(c1, r.rows, key);
    RowForFinds(c2, q.rows, key);
    var row := RowFor(c1, r.rows, key).value;
    var c := row.candidate;
    assert Row(c, row.decision) in r.rows;
    RowIffQualifies(x, v, candidates, c);
    RowIffQualifies(y, w, candidates, c);
    var d :| Row(c, d) in q.rows;
    var i :| 0 <= i < |q.rows| && q.rows[i] == Row(c, d);
    SamePeriodSameKey(c1, c2, c);
    assert KeyOf(c2, q.rows[i].candidate) == key;
    var other := RowFor(c2, q.rows, key).value;
    assert Row(other.candidate, other.decision) in q.rows;
    RowIffQualifies(y, w, candidates, other.candidate);
    SameKeySameCandidate(y, w, candidates, c, other.candidate, c2);
  }

  lemma {:induction false} SamePeriodSameKey(c1: RunContext, c2: RunContext, c: Candidate)
    requires c1.period == c2.period
    ensures KeyOf(c1, c) == KeyOf(c2, c)
  {
  }

  /** Two runs over one population and parameters flag the same findings on the same source fields. */
  lemma {:induction false} SamePopulationSameEvidence(x: Payload, v: Versions, c1: RunContext, y: Payload,
      w: Versions, c2: RunContext, key: Key)
    requires SamePopulation(x, y) && ReadyReleased(x, v) && ReadyReleased(y, w)
    requires c1.source == c2.source == x.population.source && c1.period == c2.period == x.population.period.id
    ensures SameEvidence(RowFor(c1, Analyse(x, v).rows, key), RowFor(c2, Analyse(y, w).rows, key))
  {
    hide ReadyReleased, Analyse, RowFor, Consumed;
    ReadyOf(x, v);
    ReadyOf(y, w);
    if RowFor(c1, Analyse(x, v).rows, key).Some? {
      FlaggedTwice(x, v, c1, y, w, c2, key);
    } else if RowFor(c2, Analyse(y, w).rows, key).Some? {
      FlaggedTwice(y, w, c2, x, v, c1, key);
    }
  }

  /** The transaction of the run of a payload. */
  ghost predicate RunOf(l: Tables, m: Tables, run: nat, x: Payload, versions: Versions, at: int) {
    && ReadyReleased(x, versions)
    && Commits(l, Run(ContextOf(run, x, Analyse(x, versions).scope, at), Analyse(x, versions).rows), m)
  }

  /**
   Processing the same population again, with the same parameters and any
   released versions of the same rules, before a suppression expires: no
   finding appears or changes its state, no event is added, no case changes.
   */
  lemma {:induction false} SamePopulationChangesNothing(l: Tables, m: Tables, n: Tables, r1: nat, x: Payload,
      v: Versions, t1: int, r2: nat, y: Payload, w: Versions, t2: int)
    requires TablesOk(l) && SamePopulation(x, y) && RunOf(l, m, r1, x, v, t1) && RunOf(m, n, r2, y, w, t2)
    requires forall key :: key in m.findings && m.findings[key].state == Suppressed ==>
      !Expired(m.findings[key].expiry, t2)
    ensures n.trail == m.trail && n.cases == m.cases && n.findings.Keys == m.findings.Keys
    ensures forall key :: key in m.findings ==> n.findings[key].state == m.findings[key].state
  {
    hide ReadyReleased, Analyse, RowFor, TablesOk, SameEvidence, Commits;
    ReadyOf(x, v);
    ReadyOf(y, w);
    var c1, c2 := ContextOf(r1, x, Analyse(x, v).scope, t1), ContextOf(r2, y, Analyse(y, w).scope, t2);
    var candidates := SameCandidates(x, v, y, w);
    forall key
      ensures SameEvidence(RowFor(c1, Analyse(x, v).rows, key), RowFor(c2, Analyse(y, w).rows, key))
    {
      SamePopulationSameEvidence(x, v, c1, y, w, c2, key);
    }
    RerunChangesNothing(l, m, n, c1, Analyse(x, v).rows, c2, Analyse(y, w).rows);
  }

  lemma {:induction false} ReadyOf(x: Payload, versions: Versions)
    requires ReadyReleased(x, versions)
    ensures Analyse(x, versions).Ready?
  {
  }

  // ----- people's work in between -----

  /** People change a finding's state, expiry and revision only, and never resolve it. */
  predicate Worked(s: Slice, t: Slice) {
    match (s.finding, t.finding)
    case (None, None) => true
    case (Some(f), Some(g)) =>
      && g == f.(state := g.state, expiry := g.expiry, revision := g.revision)
      && (g.state in {Absent, Resolved} ==> g.state == f.state)
    case _ => false
  }

  lemma {:induction false} WorkIsWork(w: seq<Workflow>, op: Op, key: Key, s: Slice)
    requires !op.Run?
    ensures Worked(s, SliceAfter(w, op, key, s))
  {
    hide NewEvent, NoteOk, Valid;
  }

  ghost predicate PeopleAt(b: seq<Tables>, i: int)
    requires 0 <= i < |b| - 1
  {
    exists op: Op :: !op.Run? && Commits(b[i], op, b[i + 1])
  }

  /** Dispositions, comments, actions on cases and publications, one after the other. */
  ghost predicate PeoplesWork(b: seq<Tables>) {
    b != [] && forall i :: 0 <= i < |b| - 1 ==> PeopleAt(b, i)
  }

  lemma {:induction false} WorkKeeps(b: seq<Tables>, n: nat, key: Key)
    requires PeoplesWork(b) && TablesOk(b[0]) && n < |b|
    ensures TablesOk(b[n]) && Worked(At(b[0], key), At(b[n], key))
  {
    hide TablesOk, At, Commits;
    if n > 0 {
      WorkKeeps(b, n - 1, key);
      assert PeopleAt(b, n - 1);
      var op: Op :| !op.Run? && Commits(b[n - 1], op, b[n]);
      CommitKeepsOk(b[n - 1], op, b[n]);
      CommitsAt(b[n - 1], op, b[n], key);
      WorkIsWork(b[n - 1].workflows, op, key, At(b[n - 1], key));
    }
  }

  lemma {:induction false} CommitsAt(l: Tables, op: Op, m: Tables, key: Key)
    requires Commits(l, op, m)
    ensures At(m, key) == SliceAfter(l.workflows, op, key, At(l, key))
  {
    hide At, SliceAfter;
    assert CommitsTo(l, op, m, key);
  }

  lemma {:induction false} OkStates(l: Tables, key: Key)
    requires TablesOk(l)
    ensures StatesAgree(At(l, key))
  {
    hide Chained, CaseReplays, StatesAgree, Keyed, At;
    assert SliceOk(l.workflows, key, At(l, key));
  }

  /** The finding that the row flags carries the row's evidence, and is not resolved. */
  predicate Carries(s: Slice, row: Option<Row>) {
    row.Some? ==> s.finding.Some? && s.finding.value.consumed == OfInput(Consumed(row.value.candidate.input))
                  && s.State() !in {Absent, Resolved}
  }

  lemma {:induction false} FirstRunCarries(w: seq<Workflow>, ctx: RunContext, rows: seq<Row>, key: Key, s: Slice)
    requires StatesAgree(s)
    ensures Carries(RunSlice(w, ctx, rows, key, s), RowFor(ctx, rows, key))
  {
    hide Consumed, RowFor, Resolve;
    if RowFor(ctx, rows, key).Some? {
      ObserveShape(w, s, ctx, RowFor(ctx, rows, key).value);
    }
  }

  /** The second run changes the finding's state: its suppression has expired, or it is active and no longer flagged. */
  predicate Lapses(ctx: RunContext, flagged: bool, f: Finding) {
    if flagged then f.state == Suppressed && Expired(f.expiry, ctx.at) else InScope(ctx, f) && Active(f.state)
  }

  predicate Stays(s: Slice, t: Slice) {
    t.State() == s.State() && t.trail == s.trail
  }

  predicate Moved(s: Slice, t: Slice) {
    t.State() != s.State() && t.trail != s.trail
  }

  lemma {:induction false} SecondRun(w: seq<Workflow>, ctx: RunContext, rows: seq<Row>, key: Key, s: Slice)
    requires StatesAgree(s) && Carries(s, RowFor(ctx, rows, key))
    ensures var t := RunSlice(w, ctx, rows, key, s);
      && (t.finding.Some? <==> s.finding.Some?)
      && (if s.finding.Some?
         && Lapses(ctx, RowFor(ctx, rows, key).Some?, s.finding.value) then Moved(s, t) else Stays(s, t))
  {
    hide Consumed, RowFor, NewEvent, SyncCase;
    if RowFor(ctx, rows, key).Some? {
      SecondObservation(w, ctx, RowFor(ctx, rows, key).value, s);
    }
  }

  lemma {:induction false} SecondObservation(w: seq<Workflow>, ctx: RunContext, row: Row, s: Slice)
    requires StatesAgree(s) && Carries(s, Some(row))
    ensures var t := Observe(w, s, ctx, row);
      t.finding.Some? && (if Lapses(ctx, true, s.finding.value) then Moved(s, t) else Stays(s, t))
  {
    hide Consumed, NewEvent, SyncCase, KeyOf;
    ObserveShape(w, s, ctx, row);
    SyncGrows(w, if s.State() == Verdict(s, ctx, row.candidate).0 then s.(finding := Some(Seen(s, ctx, row)))
                 else Log(s.(finding := Some(Seen(s, ctx, row))), KeyOf(ctx, row.candidate), "system",
                          Verdict(s, ctx, row.candidate).1, "Run reconciliation", s.State(),
                          Verdict(s, ctx, row.candidate).0, ctx.at), Verdict(s, ctx, row.candidate).0);
  }

  /** What the second run does to one finding. */
  ghost predicate Answers(m: Tables, n: Tables, ctx: RunContext, rows: seq<Row>, key: Key) {
    && (key in n.findings <==> key in m.findings)
    && if key in m.findings && Lapses(ctx, RowFor(ctx, rows, key).Some?, m.findings[key])
       then Moved(At(m, key), At(n, key)) else Stays(At(m, key), At(n, key))
  }

  lemma {:induction false} SecondRunAt(l: Tables, b: seq<Tables>, n: Tables, c1: RunContext, r1: seq<Row>,
      c2: RunContext, r2: seq<Row>, key: Key)
    requires PeoplesWork(b) && TablesOk(l) && Commits(l, Run(c1, r1), b[0]) && Commits(b[|b| - 1], Run(c2, r2), n)
    requires SameEvidence(RowFor(c1, r1, key), RowFor(c2, r2, key))
    ensures Answers(b[|b| - 1], n, c2, r2, key)
  {
    hide TablesOk, Commits, RunSlice, RowFor, Consumed, EventsOf, CaseEventsOf, StatesAgree, PeopleAt, Lapses, Stays,
      Moved;
    var m := b[|b| - 1];
    CommitKeepsOk(l, Run(c1, r1), b[0]);
    WorkKeeps(b, |b| - 1, key);
    OkStates(l, key);
    OkStates(m, key);
    CommitsAt(l, Run(c1, r1), b[0], key);
    CommitsAt(m, Run(c2, r2), n, key);
    FirstRunCarries(l.workflows, c1, r1, key, At(l, key));
    SecondRun(m.workflows, c2, r2, key, At(m, key));
  }

  /** The findings whose state the second run changes. */
  predicate Lapsing(m: Tables, ctx: RunContext, rows: seq<Row>, key: Key) {
    key in m.findings && Lapses(ctx, RowFor(ctx, rows, key).Some?, m.findings[key])
  }

  /**
   A second run on the same evidence, after any work of people: it adds no
   finding and changes the state of exactly the findings whose suppression has
   expired and those that are active in its scope and no longer flagged; it adds
   an event to the trail if and only if there is such a finding.
   */
  lemma {:induction false} RerunAfterWork(l: Tables, b: seq<Tables>, n: Tables, c1: RunContext, r1: seq<Row>,
      c2: RunContext, r2: seq<Row>)
    requires PeoplesWork(b) && TablesOk(l) && Commits(l, Run(c1, r1), b[0]) && Commits(b[|b| - 1], Run(c2, r2), n)
    requires forall key :: SameEvidence(RowFor(c1, r1, key), RowFor(c2, r2, key))
    ensures var m := b[|b| - 1];
      && n.findings.Keys == m.findings.Keys
      && (forall key :: key in m.findings ==>
            (n.findings[key].state != m.findings[key].state <==> Lapsing(m, c2, r2, key)))
      && (n.trail == m.trail <==> forall key :: key in m.findings ==> !Lapsing(m, c2, r2, key))
  {
    hide TablesOk, Commits, RowFor, SameEvidence, PeopleAt, Lapsing, Answers;
    var m := b[|b| - 1];
    forall key
      ensures key in n.findings <==> key in m.findings
      ensures key in m.findings ==> (n.findings[key].state != m.findings[key].state <==> Lapsing(m, c2, r2, key))
      ensures EventsOf(n.trail, key) == EventsOf(m.trail, key) <==> !Lapsing(m, c2, r2, key)
    {
      SecondRunAt(l, b, n, c1, r1, c2, r2, key);
      AnswersAt(m, n, c2, r2, key);
    }
    RunExtendsTrail(m, n, Run(c2, r2));
    if forall key :: key in m.findings ==> !Lapsing(m, c2, r2, key) {
      forall key
        ensures EventsOf(m.trail, key) == EventsOf(n.trail, key)
      {
        LapsingFound(m, c2, r2, key);
      }
      SameEvents(m.trail, n.trail);
    }
  }

  lemma {:induction false} LapsingFound(m: Tables, ctx: RunContext, rows: seq<Row>, key: Key)
    ensures Lapsing(m, ctx, rows, key) ==> key in m.findings
  {
  }

  lemma {:induction false} AnswersAt(m: Tables, n: Tables, ctx: RunContext, rows: seq<Row>, key: Key)
    requires Answers(m, n, ctx, rows, key)
    ensures key in n.findings <==> key in m.findings
    ensures key in m.findings ==> (n.findings[key].state != m.findings[key].state <==> Lapsing(m, ctx, rows, key))
    ensures EventsOf(n.trail, key) == EventsOf(m.trail, key) <==> !Lapsing(m, ctx, rows, key)
  {
    hide EventsOf, CaseEventsOf, RowFor, Lapses;
  }

  /** A finding that lapses without an expired suppression was made active by people in between. */
  lemma {:induction false} LapsingWasReactivated(l: Tables, b: seq<Tables>, c1: RunContext, r1: seq<Row>,
      c2: RunContext, r2: seq<Row>, key: Key)
    requires PeoplesWork(b) && TablesOk(l) && Commits(l, Run(c1, r1), b[0])
    requires c1.source == c2.source && c1.period == c2.period && c1.scope.Keys == c2.scope.Keys
    requires SameEvidence(RowFor(c1, r1, key), RowFor(c2, r2, key)) && Lapsing(b[|b| - 1], c2, r2, key)
    requires b[|b| - 1].findings[key].state != Suppressed
    ensures key in b[0].findings && !Active(b[0].findings[key].state) && Active(b[|b| - 1].findings[key].state)
  {
    hide TablesOk, Commits, RowFor, Consumed, EventsOf, CaseEventsOf, PeopleAt;
    CommitKeepsOk(l, Run(c1, r1), b[0]);
    WorkKeeps(b, |b| - 1, key);
    RunReconciles(l, b[0], c1, r1);
    RowForFinds(c1, r1, key);
    assert At(b[0], key).finding.Some?;
  }

  /**
   The same population again, after any work of people: the two kinds of
   findings that then change are the only ones.
   */
  lemma {:induction false} SamePopulationAfterWork(l: Tables, b: seq<Tables>, n: Tables, r1: nat, x: Payload,
      v: Versions, t1: int, r2: nat, y: Payload, w: Versions, t2: int)
    requires PeoplesWork(b) && TablesOk(l) && SamePopulation(x, y)
    requires RunOf(l, b[0], r1, x, v, t1) && RunOf(b[|b| - 1], n, r2, y, w, t2)
    ensures var m, r := b[|b| - 1], Analyse(y, w); var c := ContextOf(r2, y, r.scope, t2);
      && n.findings.Keys == m.findings.Keys
      && (forall key :: key in m.findings ==>
            (n.findings[key].state != m.findings[key].state <==> Lapsing(m, c, r.rows, key)))
      && (n.trail == m.trail <==> forall key :: key in m.findings ==> !Lapsing(m, c, r.rows, key))
  {
    hide ReadyReleased, Analyse, RowFor, TablesOk, SameEvidence, Commits, PeopleAt, Lapsing;
    ReadyOf(x, v);
    ReadyOf(y, w);
    var c1, c2 := ContextOf(r1, x, Analyse(x, v).scope, t1), ContextOf(r2, y, Analyse(y, w).scope, t2);
    forall key
      ensures SameEvidence(RowFor(c1, Analyse(x, v).rows, key), RowFor(c2, Analyse(y, w).rows, key))
    {
      SamePopulationSameEvidence(x, v, c1, y, w, c2, key);
    }
    RerunAfterWork(l, b, n, c1, Analyse(x, v).rows, c2, Analyse(y, w).rows);
  }
}
