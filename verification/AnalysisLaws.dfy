/** From a frozen payload to the findings a run must raise, end to end. */
module AnalysisLaws {
  import opened Common
  import opened Strings
  import opened Identity
  import opened Decimals
  import opened Dates
  import opened Populations
  import opened Reconciliation
  import opened Rules
  import opened RuleLaws
  import opened Candidates
  import opened CandidateLaws
  import opened Ledger
  import opened FindingLaws
  import opened RunLaws
  import opened Analysis

  predicate VersionsAccepted(versions: Versions) {
    forall v :: v in versions ==> Accepts(versions[v])
  }

  function ContextOf(run: nat, x: Payload, scope: map<string, Digest>, at: int): RunContext {
    RunContext(run, x.population.source, x.population.period.id, x.paramsHash, scope, at)
  }

  /** The candidates of a ready run, and its models. */
  ghost predicate Prepared(x: Payload, versions: Versions, scope: map<string, Digest>, candidates: seq<Candidate>) {
    && ValidParameters(x.params) && Valid(x.population) && AllPriced(x.population, x.params)
    && scope == Scope(x.population.controls, x.manifest)
    && Generate(x.population, x.params, scope.Keys) == Ok(candidates)
    && Models(scope, versions).Keys == scope.Keys
  }

  lemma {:induction false} ReadyMeans(x: Payload, versions: Versions) returns (candidates: seq<Candidate>)
    requires Analyse(x, versions).Ready?
    ensures var r := Analyse(x, versions);
      && Prepared(x, versions, r.scope, candidates)
      && TiesOut(x.population, [])
      && Score(Models(r.scope, versions), candidates, x.params.ceiling) == Ok(r.rows)
  {
    hide ValidParameters, Valid, AllPriced, TiesOut, Generate, Score, Scope, Models;
    candidates := Generate(x.population, x.params, Scope(x.population.controls, x.manifest).Keys).value;
  }

  lemma {:induction false} RowCandidatesInRules(source: string, records: seq<Record>, p: Parameters,
      rules: set<string>, c: Candidate)
    ensures c in RowCandidates(source, records, p, rules) <==>
      c.rule in rules && exists i :: 0 <= i < |records| && RowCandidate(source, records[i], p) == Some(c)
  {
    hide RowCandidate;
    if records != [] {
      var n := |records| - 1;
      RowCandidatesInRules(source, records[..n], p, rules, c);
      if i :| 0 <= i < |records| && RowCandidate(source, records[i], p) == Some(c) {
        if i < n {
          assert records[..n][i] == records[i];
        }
      }
      if i :| 0 <= i < n && RowCandidate(source, records[..n][i], p) == Some(c) {
        assert records[i] == records[..n][i];
      }
    }
  }

  lemma {:induction false} CandidateRuleInScope(p: Population, params: Parameters, rules: set<string>, c: Candidate)
    requires Valid(p) && AllPriced(p, params) && params.ceiling >= 1 && Generate(p, params, rules).Ok?
    requires c in Generate(p, params, rules).value
    ensures c.rule in rules
  {
    hide Valid, RowCandidates, AllPairs, ReadPairs, Candidate1;
    DuplicatesAllOrNothing(p, params);
    RowCandidatesInRules(p.source, p.records, params, rules, c);
    if c !in RowCandidates(p.source, p.records, params, rules) {
      var all := AllPairs(p.records);
      var pairs := PairCandidates(p.source, all, params);
      assert c in pairs;
      var n :| 0 <= n < |pairs| && pairs[n] == c;
      PairCandidatesAt(p.source, all, params, n);
      Candidate1Rule(p.source, params, all[n]);
    }
  }

  lemma {:induction false} EveryCandidateDecided(x: Payload, versions: Versions, scope: map<string, Digest>,
      candidates: seq<Candidate>)
    requires Prepared(x, versions, scope, candidates) && VersionsAccepted(versions)
    ensures forall i :: 0 <= i < |candidates| ==> Decide(Models(scope, versions), candidates[i]).Some?
  {
    hide Valid, Generate, Scope, Evaluate, Accepts, AllPriced;
    var models := Models(scope, versions);
    forall i | 0 <= i < |candidates|
      ensures Decide(models, candidates[i]).Some?
    {
      var c := candidates[i];
      CandidateRuleInScope(x.population, x.params, scope.Keys, c);
      assert c.rule in models;
      AcceptedEvaluates(models[c.rule], Qualifies(c));
    }
  }

  /** A ready run's rows: exactly its flagged candidates. */
  lemma {:induction false} ReadyRowsFlagged(x: Payload, versions: Versions) returns (candidates: seq<Candidate>)
    requires Analyse(x, versions).Ready? && VersionsAccepted(versions)
    ensures var r := Analyse(x, versions);
      && Prepared(x, versions, r.scope, candidates)
      && r.rows == FlaggedRows(Models(r.scope, versions), candidates)
      && !Over(r.rows, x.params.ceiling)
  {
    hide Prepared, Analyse, VersionsAccepted, Models, Score, Over, FlaggedRows;
    candidates := ReadyMeans(x, versions);
    EveryCandidateDecided(x, versions, Analyse(x, versions).scope, candidates);
    ScoreIsFilter(Models(Analyse(x, versions).scope, versions), candidates, x.params.ceiling);
  }

  /** The rows are named by identity-safe text and no two of them share a finding key. */
  lemma {:induction false} ReadyRowsValid(x: Payload, versions: Versions, run: nat, at: int)
    requires Analyse(x, versions).Ready? && VersionsAccepted(versions)
    ensures var r := Analyse(x, versions); ValidRows(ContextOf(run, x, r.scope, at), r.rows)
  {
    hide Analyse, Valid, Generate, Score, Scope, Decide, FlaggedRows, ExceptionKey, EntityID, Free, ValidID;
    var r := Analyse(x, versions);
    var candidates := ReadyRowsFlagged(x, versions);
    var ctx := ContextOf(run, x, r.scope, at);
    var models := Models(r.scope, versions);
    CandidatesDistinct(x.population, x.params, r.scope.Keys);
    ValidSource(x.population);
    ValidIdIsKeyPart(x.population.period.id);
    forall i | 0 <= i < |r.rows|
      ensures Named(ctx.source, r.rows[i].candidate) && r.rows[i].candidate.rule in ctx.scope
    {
      FlaggedRowsDistinct(ctx.source, models, candidates, i, i);
      FlaggedRowsExact(models, candidates, r.rows[i]);
      CandidateRuleInScope(x.population, x.params, r.scope.Keys, r.rows[i].candidate);
    }
    forall i, j | 0 <= i < j < |r.rows|
      ensures KeyOf(ctx, r.rows[i].candidate) != KeyOf(ctx, r.rows[j].candidate)
    {
      FlaggedRowsDistinct(ctx.source, models, candidates, i, j);
      var c, d := r.rows[i].candidate, r.rows[j].candidate;
      assert Named(ctx.source, c) && Named(ctx.source, d);
      var p :| AllValid(p) && c.entityId == EntityID(ctx.source, p);
      var q :| AllValid(q) && d.entityId == EntityID(ctx.source, q);
      EntityIDIsKeyPart(ctx.source, p);
      EntityIDIsKeyPart(ctx.source, q);
      ExceptionKeyInjective(c.rule, c.entity, c.entityId, ctx.period, d.rule, d.entity, d.entityId, ctx.period);
    }
  }

  lemma {:induction false} ValidIdIsKeyPart(s: string)
    requires ValidID(s)
    ensures KeyPart(s)
  {
  }

  // ----- what is flagged -----

  predicate ScopeReleased(scope: map<string, Digest>, versions: Versions) {
    forall rule :: rule in scope && (rule, scope[rule]) in versions ==> Releasable(versions[(rule, scope[rule])])
  }

  /** With released models, a candidate becomes a row exactly when it qualifies. */
  lemma {:induction false} RowIffQualifies(x: Payload, versions: Versions, candidates: seq<Candidate>, c: Candidate)
    requires Analyse(x, versions).Ready? && VersionsAccepted(versions)
    requires ScopeReleased(Analyse(x, versions).scope, versions)
    requires Prepared(x, versions, Analyse(x, versions).scope, candidates)
    ensures (exists d :: Row(c, d) in Analyse(x, versions).rows) <==> c in candidates && Qualifies(c) == Boolean(true)
  {
    hide Analyse, Valid, Generate, Scope, FlaggedRows, Evaluate, Releasable;
    var r := Analyse(x, versions);
    var same := ReadyRowsFlagged(x, versions);
    assert same == candidates;
    var models := Models(r.scope, versions);
    forall d
      ensures Row(c, d) in r.rows <==> c in candidates && Decide(models, c) == Some(d) && d.flag
    {
      FlaggedRowsExact(models, candidates, Row(c, d));
    }
    if c in candidates {
      CandidateRuleInScope(x.population, x.params, r.scope.Keys, c);
      assert c.rule in models && Releasable(models[c.rule]);
      ReleasableFlags(models[c.rule], Qualifies(c));
    }
  }

  lemma {:induction false} ReleasableFlags(m: Model, q: Given)
    requires Releasable(m)
    ensures Evaluate(m, q).Some? && (Evaluate(m, q).value.flag <==> q == Boolean(true))
  {
    hide Accepts, Evaluate;
    ReleasedFlagsQualifying(m);
  }

  /** A candidate of the run is flagged under its finding key exactly when it qualifies. */
  lemma {:induction false} FlaggedIffQualifies(x: Payload, versions: Versions, candidates: seq<Candidate>,
      c: Candidate, run: nat, at: int)
    requires Analyse(x, versions).Ready? && VersionsAccepted(versions)
    requires ScopeReleased(Analyse(x, versions).scope, versions)
    requires Prepared(x, versions, Analyse(x, versions).scope, candidates) && c in candidates
    ensures var r := Analyse(x, versions); var ctx := ContextOf(run, x, r.scope, at);
      Flagged(ctx, r.rows, KeyOf(ctx, c)) <==> Qualifies(c) == Boolean(true)
  {
    hide Analyse, Valid, Generate, Scope, FlaggedRows, KeyOf, ScopeReleased;
    var r := Analyse(x, versions);
    var ctx := ContextOf(run, x, r.scope, at);
    RowIffQualifies(x, versions, candidates, c);
    if Qualifies(c) == Boolean(true) {
      var d :| Row(c, d) in r.rows;
      var i :| 0 <= i < |r.rows| && r.rows[i] == Row(c, d);
      assert KeyOf(ctx, r.rows[i].candidate) == KeyOf(ctx, c);
    }
    if Flagged(ctx, r.rows, KeyOf(ctx, c)) {
      var i :| 0 <= i < |r.rows| && KeyOf(ctx, r.rows[i].candidate) == KeyOf(ctx, c);
      var e := r.rows[i].candidate;
      var same := ReadyRowsFlagged(x, versions);
      FlaggedRowsExact(Models(r.scope, versions), candidates, r.rows[i]);
      assert e in candidates;
      SameKeySameCandidate(x, versions, candidates, c, e, ctx);
      assert Row(c, r.rows[i].decision) in r.rows;
    }
  }

  lemma {:induction false} SameKeySameCandidate(x: Payload, versions: Versions, candidates: seq<Candidate>,
      c: Candidate, e: Candidate, ctx: RunContext)
    requires exists scope :: Prepared(x, versions, scope, candidates)
    requires c in candidates && e in candidates && KeyOf(ctx, c) == KeyOf(ctx, e)
    requires ctx.source == x.population.source && ctx.period == x.population.period.id
    ensures c == e
  {
    hide Valid, Generate, ExceptionKey, EntityID, Free, ValidID, AllPriced;
    var scope :| Prepared(x, versions, scope, candidates);
    CandidatesDistinct(x.population, x.params, scope.Keys);
    ValidSource(x.population);
    ValidIdIsKeyPart(x.population.period.id);
    var m :| 0 <= m < |candidates| && candidates[m] == c;
    var n :| 0 <= n < |candidates| && candidates[n] == e;
    assert Named(ctx.source, c) && Named(ctx.source, e);
    var p :| AllValid(p) && c.entityId == EntityID(ctx.source, p);
    var q :| AllValid(q) && e.entityId == EntityID(ctx.source, q);
    EntityIDIsKeyPart(ctx.source, p);
    EntityIDIsKeyPart(ctx.source, q);
    ExceptionKeyInjective(c.rule, c.entity, c.entityId, ctx.period, e.rule, e.entity, e.entityId, ctx.period);
    assert m != n ==> Differ(c, e) || Differ(e, c);
  }

  /** The finding key of a one-record test. */
  function RowKey(x: Payload, rule: string, r: Record): Key {
    ExceptionKey(rule, r.entity, EntityID(x.population.source, [r.id]), x.population.period.id)
  }

  lemma {:induction false} RowGenerated(p: Population, params: Parameters, rules: set<string>, c: Candidate)
    requires Generate(p, params, rules).Ok? && c in RowCandidates(p.source, p.records, params, rules)
    ensures c in Generate(p, params, rules).value
  {
    hide AllPairs, ReadPairs, RowCandidates;
  }

  lemma {:induction false} RowIsCandidate(x: Payload, versions: Versions, i: nat, c: Candidate)
    requires Analyse(x, versions).Ready? && i < |x.population.records|
    requires RowCandidate(x.population.source, x.population.records[i], x.params) == Some(c)
    requires c.rule in Analyse(x, versions).scope
    ensures exists candidates :: Prepared(x, versions, Analyse(x, versions).scope, candidates) && c in candidates
  {
    hide Analyse, Valid, Scope, Generate, RowCandidate, RowCandidates, ValidParameters, AllPriced, Models, TiesOut;
    var candidates := ReadyMeans(x, versions);
    var rules := Analyse(x, versions).scope.Keys;
    RowCandidatesInRules(x.population.source, x.population.records, x.params, rules, c);
    RowGenerated(x.population, x.params, rules, c);
    assert c in candidates;
  }

  lemma {:induction false} ApprovalCandidate(source: string, r: Record, p: Parameters)
    requires r.entity == "approval" && MaterialityFor(p, r.currency).Some?
    ensures RowCandidate(source, r, p).Some?
    ensures var c := RowCandidate(source, r, p).value;
      && c.rule == "AP-02" && c.entity == r.entity && c.entityId == EntityID(source, [r.id])
      && Qualifies(c) == Boolean(Amount(r.amount) > Amount(r.limit)
         && Amount(r.amount) >= Amount(Threshold(p, r.currency)))
  {
    hide EntityID, Amount, MaterialityFor;
    assert "approval" != "journal_entry";
  }

  lemma {:induction false} JournalCandidate(source: string, r: Record, p: Parameters)
    requires r.entity == "journal_entry" && MaterialityFor(p, r.currency).Some?
    ensures RowCandidate(source, r, p).Some?
    ensures var c := RowCandidate(source, r, p).value;
      && c.rule == "JE-01" && c.entity == r.entity && c.entityId == EntityID(source, [r.id])
      && Qualifies(c) == Boolean(Weekday(DayOf(r.date)) in p.weekend
                              && Amount(r.debit) + Amount(r.credit) >= Amount(Threshold(p, r.currency)))
  {
    hide EntityID, Amount, MaterialityFor, Weekday, DayOf;
  }

  lemma {:induction false} DuplicateCandidate(source: string, q: Pair, p: Parameters)
    ensures var c := Candidate1(source, p, q);
      && c.rule == "AP-01" && c.entity == "payment" && c.entityId == EntityID(source, [q.a.id, q.b.id])
      && Qualifies(c) == Boolean(Amount(q.a.amount) >= Amount(Threshold(p, q.a.currency)))
  {
    hide EntityID, Amount, Threshold, Fixed4;
  }

  /**
   An approval raises a finding exactly when its amount exceeds its limit and
   reaches the materiality of its currency, both compared as exact decimals.
   */
  lemma {:induction false} ApprovalFlaggedIff(x: Payload, versions: Versions, i: nat, run: nat, at: int)
    requires Analyse(x, versions).Ready? && VersionsAccepted(versions)
    requires ScopeReleased(Analyse(x, versions).scope, versions)
    requires i < |x.population.records| && x.population.records[i].entity == "approval"
    requires "AP-02" in Analyse(x, versions).scope
    ensures var r, rec := Analyse(x, versions), x.population.records[i];
      Flagged(ContextOf(run, x, r.scope, at), r.rows, RowKey(x, "AP-02", rec)) <==>
        Amount(rec.amount) > Amount(rec.limit) && Amount(rec.amount) >= Amount(Threshold(x.params, rec.currency))
  {
    hide Analyse, Valid, Scope, Flagged, ScopeReleased, VersionsAccepted, EntityID, RowCandidate, MaterialityFor,
         Amount,
         Generate, ExceptionKey, Qualifies, Threshold, Weekday, DayOf;
    var rec := x.population.records[i];
    var all := ReadyMeans(x, versions);
    assert MaterialityFor(x.params, rec.currency).Some?;
    ApprovalCandidate(x.population.source, rec, x.params);
    var c := RowCandidate(x.population.source, rec, x.params).value;
    RowIsCandidate(x, versions, i, c);
    var candidates :| Prepared(x, versions, Analyse(x, versions).scope, candidates) && c in candidates;
    FlaggedIffQualifies(x, versions, candidates, c, run, at);
  }

  /**
   A journal line raises a finding exactly when it is posted on a configured
   non-working day and debit plus credit reaches the materiality of its currency.
   */
  lemma {:induction false} JournalFlaggedIff(x: Payload, versions: Versions, i: nat, run: nat, at: int)
    requires Analyse(x, versions).Ready? && VersionsAccepted(versions)
    requires ScopeReleased(Analyse(x, versions).scope, versions)
    requires i < |x.population.records| && x.population.records[i].entity == "journal_entry"
    requires "JE-01" in Analyse(x, versions).scope
    ensures var r, rec := Analyse(x, versions), x.population.records[i];
      Flagged(ContextOf(run, x, r.scope, at), r.rows, RowKey(x, "JE-01", rec)) <==>
        Weekday(DayOf(rec.date)) in x.params.weekend
        && Amount(rec.debit) + Amount(rec.credit) >= Amount(Threshold(x.params, rec.currency))
  {
    hide Analyse, Valid, Scope, Flagged, ScopeReleased, VersionsAccepted, EntityID, RowCandidate, MaterialityFor,
         Amount,
         Generate, ExceptionKey, Qualifies, Threshold, Weekday, DayOf;
    var rec := x.population.records[i];
    var all := ReadyMeans(x, versions);
    assert MaterialityFor(x.params, rec.currency).Some?;
    JournalCandidate(x.population.source, rec, x.params);
    var c := RowCandidate(x.population.source, rec, x.params).value;
    RowIsCandidate(x, versions, i, c);
    var candidates :| Prepared(x, versions, Analyse(x, versions).scope, candidates) && c in candidates;
    FlaggedIffQualifies(x, versions, candidates, c, run, at);
  }

  /** The finding key of two payments. */
  function PairKey(x: Payload, a: Record, b: Record): Key {
    ExceptionKey("AP-01", "payment", EntityID(x.population.source, [a.id, b.id]), x.population.period.id)
  }

  /** A candidate of the duplicate test comes from a row of the self-join. */
  lemma {:induction false} DuplicateComesFrom(p: Population, params: Parameters, rules: set<string>, c: Candidate)
    returns (n: nat)
    requires Valid(p) && AllPriced(p, params) && params.ceiling >= 1 && Generate(p, params, rules).Ok?
    requires c in Generate(p, params, rules).value && c.rule == "AP-01"
    ensures "AP-01" in rules && n < |AllPairs(p.records)| && c == Candidate1(p.source, params, AllPairs(p.records)[n])
  {
    hide Valid, AllPriced, RowCandidates, AllPairs, ReadPairs, Candidate1, PairCandidates;
    DuplicatesAllOrNothing(p, params);
    var rows := RowCandidates(p.source, p.records, params, rules);
    if c in rows {
      var m :| 0 <= m < |rows| && rows[m] == c;
      RowCandidateNamed(p, params, rules, m);
      assert false;
    }
    var pairs := PairCandidates(p.source, AllPairs(p.records), params);
    n :| 0 <= n < |pairs| && pairs[n] == c;
    PairCandidatesAt(p.source, AllPairs(p.records), params, n);
  }

  lemma {:induction false} PaymentId(p: Population, i: nat)
    requires Valid(p) && i < |p.records|
    ensures ValidID(p.records[i].id)
  {
    hide ValidID, ValidControl;
    assert ValidRecord(p.records[i], p.period);
  }

  lemma {:induction false} OnePayment(p: Population, i: nat, j: nat)
    requires Valid(p) && i < |p.records| && j < |p.records|
    requires p.records[i].entity == p.records[j].entity && p.records[i].id == p.records[j].id
    ensures i == j
  {
    hide ValidRecord, ValidControl, ValidHeader;
  }

  /** A row of the self-join with the ids of two payments is of those two payments. */
  lemma {:induction false} PairOfIds(p: Population, q: Pair, k: nat, l: nat, i: nat, j: nat)
    requires Valid(p) && i < |p.records| && j < |p.records| && k < |p.records| && l < |p.records|
    requires IsPairOf(q, p.records[k], p.records[l])
    requires p.records[i].entity == "payment" && p.records[j].entity == "payment"
    requires Ids(q) == multiset{p.records[i].id, p.records[j].id}
    ensures SamePayment(p.records[i], p.records[j])
  {
    hide Valid, Amount, DayOf;
    PairIds(q, p.records[k], p.records[l]);
    assert p.records[k].id in Ids(q) && p.records[l].id in Ids(q);
    if p.records[k].id == p.records[i].id {
      OnePayment(p, k, i);
      assert Ids(q)[p.records[i].id] == 1;
      assert p.records[l].id == p.records[j].id;
      OnePayment(p, l, j);
    } else {
      assert p.records[k].id == p.records[j].id;
      OnePayment(p, k, j);
      assert p.records[l].id == p.records[i].id;
      OnePayment(p, l, i);
    }
    SamePaymentSymmetric(p.records[i], p.records[j]);
  }

  lemma {:induction false} PaymentIsKeyPart()
    ensures KeyPart("payment")
  {
  }

  lemma {:induction false} PairKeyNames(x: Payload, a: Record, b: Record, c: Candidate)
    requires Valid(x.population) && ValidID(a.id) && ValidID(b.id) && Named(x.population.source, c)
    requires ExceptionKey(c.rule, c.entity, c.entityId, x.population.period.id) == PairKey(x, a, b)
    ensures c.rule == "AP-01" && c.entityId == EntityID(x.population.source, [a.id, b.id])
  {
    hide Valid, ExceptionKey, EntityID, ValidID, Free;
    var source := x.population.source;
    ValidSource(x.population);
    ValidIdIsKeyPart(x.population.period.id);
    var ids :| AllValid(ids) && c.entityId == EntityID(source, ids);
    EntityIDIsKeyPart(source, ids);
    EntityIDIsKeyPart(source, [a.id, b.id]);
    NamesAreKeyParts();
    PaymentIsKeyPart();
    ExceptionKeyInjective(c.rule, c.entity, c.entityId, x.population.period.id,
                          "AP-01", "payment", EntityID(source, [a.id, b.id]), x.population.period.id);
  }

  lemma {:induction false} PairIdsAgree(source: string, a: Record, b: Record, q: Pair)
    requires ValidID(source) && ValidID(a.id) && ValidID(b.id) && ValidID(q.a.id) && ValidID(q.b.id)
    requires EntityID(source, [q.a.id, q.b.id]) == EntityID(source, [a.id, b.id])
    ensures Ids(q) == multiset{a.id, b.id}
  {
    hide EntityID, ValidID;
    EntityIDInjective(source, [q.a.id, q.b.id], source, [a.id, b.id]);
    assert multiset([q.a.id, q.b.id]) == Ids(q) && multiset([a.id, b.id]) == multiset{a.id, b.id};
  }

  /** A candidate under the key of two payments is of those two, which may be duplicates. */
  lemma {:induction false} PairKeyMeans(x: Payload, rules: set<string>, i: nat, j: nat, c: Candidate)
    requires var p := x.population;
      && Valid(p) && AllPriced(p, x.params) && x.params.ceiling >= 1 && i < |p.records| && j < |p.records|
      && Generate(p, x.params, rules).Ok? && c in Generate(p, x.params, rules).value
      && p.records[i].entity == "payment" && p.records[j].entity == "payment"
      && ExceptionKey(c.rule, c.entity, c.entityId, p.period.id) == PairKey(x, p.records[i], p.records[j])
    ensures "AP-01" in rules && SamePayment(x.population.records[i], x.population.records[j])
  {
    hide Valid, AllPriced, Generate, ExceptionKey, EntityID, ValidID, AllPairs, SamePayment, PairKey, Named;
    var p := x.population;
    var a, b := p.records[i], p.records[j];
    PaymentId(p, i);
    PaymentId(p, j);
    CandidatesDistinct(p, x.params, rules);
    assert Named(p.source, c);
    PairKeyNames(x, a, b, c);
    var n := DuplicateComesFrom(p, x.params, rules, c);
    var q := AllPairs(p.records)[n];
    var k, l := AllPairsSound(p.records, n);
    PairKept(p, q, k, l);
    DuplicateCandidate(p.source, q, x.params);
    ValidSource(p);
    PairIdsAgree(p.source, a, b, q);
    PairOfIds(p, q, k, l, i, j);
  }

  lemma {:induction false} PairKept(p: Population, q: Pair, k: nat, l: nat)
    requires Valid(p) && k < |p.records| && l < |p.records| && IsPairOf(q, p.records[k], p.records[l])
    ensures ValidID(q.a.id) && ValidID(q.b.id)
  {
    hide Valid, ValidID, SamePayment;
    PaymentId(p, k);
    PaymentId(p, l);
  }

  lemma {:induction false} FlaggedPair(x: Payload, versions: Versions, i: nat, j: nat, run: nat, at: int)
    requires Analyse(x, versions).Ready? && VersionsAccepted(versions)
    requires i < |x.population.records| && x.population.records[i].entity == "payment"
    requires j < |x.population.records| && x.population.records[j].entity == "payment"
    requires var r := Analyse(x, versions);
      Flagged(ContextOf(run, x, r.scope, at), r.rows, PairKey(x, x.population.records[i], x.population.records[j]))
    ensures "AP-01" in Analyse(x, versions).scope && SamePayment(x.population.records[i], x.population.records[j])
  {
    hide Analyse, Valid, Generate, Scope, FlaggedRows, PairKey, ExceptionKey, SamePayment, VersionsAccepted, AllPriced;
    var r := Analyse(x, versions);
    var ctx, key := ContextOf(run, x, r.scope, at), PairKey(x, x.population.records[i], x.population.records[j]);
    var candidates := ReadyRowsFlagged(x, versions);
    var n :| 0 <= n < |r.rows| && KeyOf(ctx, r.rows[n].candidate) == key;
    FlaggedRowsExact(Models(r.scope, versions), candidates, r.rows[n]);
    PairKeyMeans(x, r.scope.Keys, i, j, r.rows[n].candidate);
  }

  lemma {:induction false} PairGenerated(p: Population, params: Parameters, rules: set<string>, n: nat)
    requires Valid(p) && AllPriced(p, params) && params.ceiling >= 1 && Generate(p, params, rules).Ok?
    requires "AP-01" in rules && n < |AllPairs(p.records)|
    ensures Candidate1(p.source, params, AllPairs(p.records)[n]) in Generate(p, params, rules).value
  {
    hide Valid, AllPriced, AllPairs, ReadPairs, RowCandidates, Candidate1, PairCandidates;
    DuplicatesAllOrNothing(p, params);
    PairCandidatesAt(p.source, AllPairs(p.records), params, n);
    assert Candidate1(p.source, params, AllPairs(p.records)[n]) ==
      PairCandidates(p.source, AllPairs(p.records), params)[n];
  }

  lemma {:induction false} PairIsCandidate(x: Payload, versions: Versions, i: nat, j: nat)
    returns (candidates: seq<Candidate>, c: Candidate)
    requires Analyse(x, versions).Ready? && "AP-01" in Analyse(x, versions).scope
    requires i < j < |x.population.records| && SamePayment(x.population.records[i], x.population.records[j])
    ensures Prepared(x, versions, Analyse(x, versions).scope, candidates) && c in candidates
    ensures c == Candidate1(x.population.source, x.params, Ordered(x.population.records[i], x.population.records[j]))
  {
    hide Analyse, Valid, Scope, Generate, SamePayment, Ordered, Candidate1, AllPairs, AllPriced, Models, TiesOut;
    candidates := ReadyMeans(x, versions);
    var all := AllPairs(x.population.records);
    AllPairsComplete(x.population.records, i, j);
    var n :| 0 <= n < |all| && all[n] == Ordered(x.population.records[i], x.population.records[j]);
    PairGenerated(x.population, x.params, Analyse(x, versions).scope.Keys, n);
    c := Candidate1(x.population.source, x.params, all[n]);
  }

  /** The candidate of two payments, in whichever order they come. */
  lemma {:induction false} OrderedCandidate(source: string, a: Record, b: Record, p: Parameters)
    requires SamePayment(a, b)
    ensures var c := Candidate1(source, p, Ordered(a, b));
      && c.rule == "AP-01" && c.entity == "payment" && c.entityId == EntityID(source, [a.id, b.id])
      && Qualifies(c) == Boolean(Amount(a.amount) >= Amount(Threshold(p, a.currency)))
  {
    hide EntityID, Amount, Threshold, Candidate1, Qualifies, DayOf;
    DuplicateCandidate(source, Ordered(a, b), p);
    EntityIDUnordered(source, a.id, b.id);
  }

  lemma {:induction false} SamePaymentFlaggedIff(x: Payload, versions: Versions, i: nat, j: nat, run: nat, at: int)
    requires Analyse(x, versions).Ready? && VersionsAccepted(versions)
    requires ScopeReleased(Analyse(x, versions).scope, versions)
    requires i < j < |x.population.records| && SamePayment(x.population.records[i], x.population.records[j])
    requires "AP-01" in Analyse(x, versions).scope
    ensures var r, a, b := Analyse(x, versions), x.population.records[i], x.population.records[j];
      Flagged(ContextOf(run, x, r.scope, at), r.rows, PairKey(x, a, b)) <==>
        Amount(a.amount) >= Amount(Threshold(x.params, a.currency))
  {
    hide Analyse, Prepared, Flagged, ScopeReleased, VersionsAccepted, EntityID, Candidate1, ExceptionKey, Qualifies,
         Threshold, Amount, SamePayment, Ordered;
    var candidates, c := PairIsCandidate(x, versions, i, j);
    OrderedCandidate(x.population.source, x.population.records[i], x.population.records[j], x.params);
    FlaggedIffQualifies(x, versions, candidates, c, run, at);
  }

  /**
   Two payments raise a finding exactly when the duplicate test is in scope,
   they may be duplicates, and their amount is material.
   */
  lemma {:induction false} DuplicateFlaggedIff(x: Payload, versions: Versions, i: nat, j: nat, run: nat, at: int)
    requires Analyse(x, versions).Ready? && VersionsAccepted(versions)
    requires ScopeReleased(Analyse(x, versions).scope, versions)
    requires i < j < |x.population.records|
    requires x.population.records[i].entity == "payment" && x.population.records[j].entity == "payment"
    ensures var r, a, b := Analyse(x, versions), x.population.records[i], x.population.records[j];
      Flagged(ContextOf(run, x, r.scope, at), r.rows, PairKey(x, a, b)) <==>
        "AP-01" in r.scope && SamePayment(a, b) && Amount(a.amount) >= Amount(Threshold(x.params, a.currency))
  {
    hide Analyse, Flagged, ScopeReleased, VersionsAccepted, PairKey, Threshold, Amount, SamePayment;
    var r, a, b := Analyse(x, versions), x.population.records[i], x.population.records[j];
    if Flagged(ContextOf(run, x, r.scope, at), r.rows, PairKey(x, a, b)) {
      FlaggedPair(x, versions, i, j, run, at);
    }
    if "AP-01" in r.scope && SamePayment(a, b) {
      SamePaymentFlaggedIff(x, versions, i, j, run, at);
    }
  }
}
