/**
 What one run computes from its frozen payload: either a halt at some stage or
 the flagged rows to reconcile (internal/storage/pipeline.go, `ProcessNext`).
 */
module Analysis {
  import opened Common
  import opened Strings
  import opened Identity
  import opened Populations
  import opened Reconciliation
  import opened Rules
  import opened Candidates
  import opened CandidateLaws
  import opened DecimalLaws
  import opened FindingLaws

  /** Everything a submission freezes. */
  datatype Payload = Payload(population: Population, params: Parameters, paramsHash: Digest,
      manifest: map<string, Digest>)

  /** The insert-only table of rule versions. */
  type Versions = map<(string, Digest), Model>

  const STAGES := ["extract", "tie_out", "snapshot", "transform", "analyse", "score", "reconcile"]

  /** A run halts with an error code once it has entered `stage` stages, or reaches reconciliation. */
  datatype Outcome = Halted(halt: Halt, stage: nat) | Ready(scope: map<string, Digest>, rows: seq<Row>)

  predicate AllPriced(p: Population, params: Parameters) {
    forall i :: 0 <= i < |p.records| ==> MaterialityFor(params, p.records[i].currency).Some?
  }

  function Models(scope: map<string, Digest>, versions: Versions): map<string, Model> {
    map rule | rule in scope && (rule, scope[rule]) in versions :: versions[(rule, scope[rule])]
  }

  ghost function Analyse(x: Payload, versions: Versions): Outcome {
    if !ValidParameters(x.params) || !Valid(x.population) || !AllPriced(x.population, x.params) then Halted(Failed, 0)
    else if !TiesOut(x.population, []) then Halted(TieOutFailed, 2)
    else
      var scope := Scope(x.population.controls, x.manifest);
      match Generate(x.population, x.params, scope.Keys)
      case Err(h) => Halted(h, 5)
      case Ok(candidates) =>
        var models := Models(scope, versions);
        if models.Keys != scope.Keys then Halted(Failed, 6)
        else
          match Score(models, candidates, x.params.ceiling)
          case Err(h) => Halted(h, 6)
          case Ok(rows) => Ready(scope, rows)
  }

  // ----- the sentinel never truncates -----

  function PairCandidates(source: string, rows: seq<Pair>, p: Parameters): seq<Candidate> {
    if rows == [] then []
    else PairCandidates(source, rows[..|rows| - 1], p) + [Candidate1(source, p, rows[|rows| - 1])]
  }

  lemma {:induction false} PairCandidatesAt(source: string, rows: seq<Pair>, p: Parameters, n: nat)
    ensures |PairCandidates(source, rows, p)| == |rows|
    ensures n < |rows| ==> PairCandidates(source, rows, p)[n] == Candidate1(source, p, rows[n])
  {
    hide Candidate1;
    if rows != [] {
      PairCandidatesAt(source, rows[..|rows| - 1], p, if n == |rows| - 1 then 0 else n);
    }
  }

  lemma {:induction false} ReadAll(source: string, rows: seq<Pair>, p: Parameters)
    requires p.ceiling >= 0 && |rows| <= p.ceiling && forall i :: 0 <= i < |rows| ==> Priced(p, rows[i])
    ensures ReadPairs(source, rows, p) == Ok(PairCandidates(source, rows, p))
  {
    hide Priced, Candidate1;
    if rows != [] {
      ReadAll(source, rows[..|rows| - 1], p);
      PairCandidatesAt(source, rows[..|rows| - 1], p, 0);
    }
  }

  lemma {:induction false} PairsPriced(p: Population, params: Parameters, n: nat)
    requires Valid(p) && AllPriced(p, params) && n < |AllPairs(p.records)|
    ensures Priced(params, AllPairs(p.records)[n])
  {
    hide SamePayment, Eligible;
    var i, j := AllPairsSound(p.records, n);
    var a := AllPairs(p.records)[n].a;
    assert a == p.records[i] || a == p.records[j];
    assert ValidRecord(p.records[i], p.period) && ValidRecord(p.records[j], p.period);
    MoneyReprints(a.amount);
  }

  /**
   The duplicate test returns every qualifying pair, or halts with the ceiling
   error exactly when there are more of them than the ceiling allows.
   */
  lemma {:induction false} DuplicatesAllOrNothing(p: Population, params: Parameters)
    requires Valid(p) && AllPriced(p, params) && params.ceiling >= 1
    ensures var all := AllPairs(p.records);
      ReadPairs(p.source, Limited(all, params.ceiling), params) ==
        if |all| > params.ceiling then Err(CeilingExceeded)
        else Ok(PairCandidates(p.source, all, params))
  {
    hide Valid, AllPairs, Priced, Candidate1;
    var all := AllPairs(p.records);
    forall n | 0 <= n < |all|
      ensures Priced(params, all[n])
    {
      PairsPriced(p, params, n);
    }
    if |all| > params.ceiling {
      var rows := Limited(all, params.ceiling);
      ReadAll(p.source, rows[..params.ceiling], params);
      PairCandidatesAt(p.source, rows[..params.ceiling], params, 0);
      assert rows[..|rows| - 1] == rows[..params.ceiling];
    } else {
      ReadAll(p.source, all, params);
    }
  }

  // ----- distinct identities -----

  ghost predicate Named(source: string, c: Candidate) {
    KeyPart(c.rule) && KeyPart(c.entity) && Sourced(c.entityId, source)
  }

  predicate Differ(c: Candidate, d: Candidate) {
    c.rule != d.rule || c.entity != d.entity || c.entityId != d.entityId
  }

  /** Candidates with identity-safe names and pairwise different identities. */
  ghost predicate Distinct(source: string, candidates: seq<Candidate>) {
    && (forall i :: 0 <= i < |candidates| ==> Named(source, candidates[i]))
    && (forall i, j :: 0 <= i < j < |candidates| ==> Differ(candidates[i], candidates[j]))
  }

  lemma {:induction false} SourcedByIds(source: string, ids: seq<string>)
    requires AllValid(ids)
    ensures Sourced(EntityID(source, ids), source)
  {
  }

  lemma {:induction false} NamesAreKeyParts()
    ensures KeyPart("AP-01") && KeyPart("AP-02") && KeyPart("JE-01")
    ensures "AP-01" != "AP-02" && "AP-01" != "JE-01"
  {
    assert "AP-01"[4] != "AP-02"[4] && "AP-01"[0] != "JE-01"[0];
  }

  lemma {:induction false} PairIdsValid(p: Population, n: nat)
    requires Valid(p) && n < |AllPairs(p.records)|
    ensures var q := AllPairs(p.records)[n]; AllValid([q.a.id, q.b.id])
  {
    hide SamePayment, ValidID, ValidRecord, Valid, AllPairs;
    var i, j := AllPairsSound(p.records, n);
    RecordIdValid(p, i);
    RecordIdValid(p, j);
  }

  lemma {:induction false} RecordIdValid(p: Population, i: nat)
    requires Valid(p) && i < |p.records|
    ensures ValidID(p.records[i].id)
  {
    hide ValidID, ValidAmounts, ValidControl, ValidHeader;
    assert ValidRecord(p.records[i], p.period);
  }

  lemma {:induction false} PairNamed(p: Population, params: Parameters, n: nat)
    requires Valid(p) && n < |AllPairs(p.records)|
    ensures Named(p.source, Candidate1(p.source, params, AllPairs(p.records)[n]))
  {
    hide AllPairs, Valid, EntityID, Sourced, AllValid, Free;
    var q := AllPairs(p.records)[n];
    PairIdsValid(p, n);
    SourcedByIds(p.source, [q.a.id, q.b.id]);
    EntitiesAreFree("payment");
    NamesAreKeyParts();
  }

  lemma {:induction false} PairsDiffer(p: Population, params: Parameters, m: nat, n: nat)
    requires Valid(p) && m < n < |AllPairs(p.records)|
    ensures Differ(Candidate1(p.source, params, AllPairs(p.records)[m]),
      Candidate1(p.source, params, AllPairs(p.records)[n]))
  {
    hide AllPairs, EntityID, AllValid, ValidRecord, ValidControl, ValidHeader;
    PairIdsValid(p, m);
    PairIdsValid(p, n);
    ValidSource(p);
    assert UniquePayments(p.records);
    AllPairsOnce(p.records, m, n);
    var x, y := AllPairs(p.records)[m], AllPairs(p.records)[n];
    assert multiset([x.a.id, x.b.id]) == Ids(x) && multiset([y.a.id, y.b.id]) == Ids(y);
    EntityIDInjective(p.source, [x.a.id, x.b.id], p.source, [y.a.id, y.b.id]);
  }

  lemma {:induction false} ValidSource(p: Population)
    requires Valid(p)
    ensures ValidID(p.source) && ValidID(p.period.id)
  {
    hide ValidID, ValidRecord, ValidControl;
  }

  lemma {:induction false} RowNamed(source: string, r: Record, params: Parameters, period: Period)
    requires ValidRecord(r, period) && RowCandidate(source, r, params).Some?
    ensures var c := RowCandidate(source, r, params).value;
      Named(source, c) && c.rule != "AP-01" && c.entity == r.entity && c.entityId == EntityID(source, [r.id])
  {
    hide EntityID, Sourced, Free, ValidAmounts, ValidID;
    assert AllValid([r.id]);
    SourcedByIds(source, [r.id]);
    EntitiesAreFree(r.entity);
    NamesAreKeyParts();
  }

  lemma {:induction false} RowsComeFrom(source: string, records: seq<Record>, params: Parameters, rules: set<string>,
      n: nat)
      returns (i: nat)
    requires n < |RowCandidates(source, records, params, rules)|
    ensures i < |records|
      && RowCandidate(source, records[i], params) == Some(RowCandidates(source, records, params, rules)[n])
  {
    hide RowCandidate;
    var k := |records| - 1;
    if n < |RowCandidates(source, records[..k], params, rules)| {
      i := RowsComeFrom(source, records[..k], params, rules, n);
    } else {
      i := k;
    }
  }

  lemma {:induction false} RowsDiffer(p: Population, k: nat, params: Parameters, rules: set<string>, m: nat, n: nat)
    requires Valid(p) && k <= |p.records|
    requires m < n < |RowCandidates(p.source, p.records[..k], params, rules)|
    ensures var c := RowCandidates(p.source, p.records[..k], params, rules); Differ(c[m], c[n])
    decreases k
  {
    hide RowCandidate, ValidRecord;
    ValidSource(p);
    assert p.records[..k][..k - 1] == p.records[..k - 1];
    var front := RowCandidates(p.source, p.records[..k - 1], params, rules);
    if n < |front| {
      RowsDiffer(p, k - 1, params, rules, m, n);
    } else {
      var i := RowsComeFrom(p.source, p.records[..k - 1], params, rules, m);
      var x, y := p.records[i], p.records[k - 1];
      assert ValidRecord(x, p.period) && ValidRecord(y, p.period);
      RowNamed(p.source, x, params, p.period);
      RowNamed(p.source, y, params, p.period);
      if x.entity == y.entity {
        SingleIdsDiffer(p.source, x.id, y.id, p.period, x, y);
      }
    }
  }

  lemma {:induction false} SingleIdsDiffer(source: string, a: string, b: string, period: Period, x: Record, y: Record)
    requires ValidID(source) && ValidRecord(x, period) && ValidRecord(y, period) && x.id == a && y.id == b && a != b
    ensures EntityID(source, [a]) != EntityID(source, [b])
  {
    hide ValidAmounts, ValidID;
    assert multiset([a])[a] == 1 && multiset([b])[a] == 0;
    assert AllValid([a]) && AllValid([b]);
    EntityIDInjective(source, [a], source, [b]);
  }

  /** A run's candidates have pairwise different identities, all scoped to its source. */
  lemma {:induction false} CandidatesDistinct(p: Population, params: Parameters, rules: set<string>)
    requires Valid(p) && AllPriced(p, params) && params.ceiling >= 1 && Generate(p, params, rules).Ok?
    ensures Distinct(p.source, Generate(p, params, rules).value)
  {
    hide Valid, RowCandidate, AllPairs, ReadPairs, Named, Differ, Candidate1;
    DuplicatesAllOrNothing(p, params);
    var c := Generate(p, params, rules).value;
    var rows := RowCandidates(p.source, p.records, params, rules);
    var pairs := |c| - |rows|;
    PairCandidatesAt(p.source, AllPairs(p.records), params, 0);
    assert p.records[..|p.records|] == p.records;
    forall n | 0 <= n < |c|
      ensures Named(p.source, c[n])
      ensures c[n].rule == "AP-01" <==> n < pairs
    {
      if n < pairs {
        PairCandidatesAt(p.source, AllPairs(p.records), params, n);
        PairNamed(p, params, n);
        Candidate1Rule(p.source, params, AllPairs(p.records)[n]);
      } else {
        RowCandidateNamed(p, params, rules, n - pairs);
      }
    }
    forall m, n | 0 <= m < n < |c|
      ensures Differ(c[m], c[n])
    {
      if n < pairs {
        PairCandidatesAt(p.source, AllPairs(p.records), params, m);
        PairCandidatesAt(p.source, AllPairs(p.records), params, n);
        PairsDiffer(p, params, m, n);
      } else if m >= pairs {
        RowsDiffer(p, |p.records|, params, rules, m - pairs, n - pairs);
      } else {
        RulesDiffer(c[m], c[n]);
      }
    }
  }

  lemma {:induction false} RulesDiffer(c: Candidate, d: Candidate)
    requires c.rule != d.rule
    ensures Differ(c, d)
  {
  }

  lemma {:induction false} Candidate1Rule(source: string, params: Parameters, q: Pair)
    ensures Candidate1(source, params, q).rule == "AP-01"
  {
  }

  lemma {:induction false} RowCandidateNamed(p: Population, params: Parameters, rules: set<string>, n: nat)
    requires Valid(p) && n < |RowCandidates(p.source, p.records, params, rules)|
    ensures var c := RowCandidates(p.source, p.records, params, rules)[n]; Named(p.source, c) && c.rule != "AP-01"
  {
    hide RowCandidate, RowCandidates, Named;
    var i := RowsComeFrom(p.source, p.records, params, rules, n);
    assert ValidRecord(p.records[i], p.period);
    RowNamed(p.source, p.records[i], params, p.period);
  }

  // ----- scoring -----

  /** The flagged candidates, in order. */
  function FlaggedRows(models: map<string, Model>, candidates: seq<Candidate>): seq<Row> {
    if candidates == [] then []
    else
      var c := candidates[|candidates| - 1];
      var d := Decide(models, c);
      FlaggedRows(models, candidates[..|candidates| - 1])
      + (if d.Some? && d.value.flag then [Row(c, d.value)] else [])
  }

  /** Some rule flags more rows than the ceiling. */
  predicate Over(rows: seq<Row>, ceiling: int) {
    exists i :: 0 <= i < |rows| && CountOf(rows, rows[i].candidate.rule) > ceiling
  }

  lemma {:induction false} OverStep(front: seq<Row>, row: Row, ceiling: int)
    ensures Over(front + [row], ceiling) <==> Over(front, ceiling) || CountOf(front, row.candidate.rule) + 1 > ceiling
  {
    var rows := front + [row];
    assert rows[..|rows| - 1] == front;
    assert forall rule :: CountOf(rows, rule) == CountOf(front, rule) + if row.candidate.rule == rule then 1 else 0;
    if Over(front, ceiling) {
      var i :| 0 <= i < |front| && CountOf(front, front[i].candidate.rule) > ceiling;
      assert rows[i] == front[i];
    } else if Over(rows, ceiling) {
      var i :| 0 <= i < |rows| && CountOf(rows, rows[i].candidate.rule) > ceiling;
      if i < |front| {
        assert rows[i] == front[i];
      }
    } else {
      assert rows[|front|] == row;
    }
  }

  /**
   When every candidate can be evaluated, scoring keeps exactly the flagged
   candidates, or halts with the ceiling error exactly when some rule flags
   more of them than the ceiling.
   */
  lemma {:induction false} ScoreIsFilter(models: map<string, Model>, candidates: seq<Candidate>, ceiling: int)
    requires forall i :: 0 <= i < |candidates| ==> Decide(models, candidates[i]).Some?
    ensures Score(models, candidates, ceiling) ==
      if Over(FlaggedRows(models, candidates), ceiling) then Err(CeilingExceeded)
        else Ok(FlaggedRows(models, candidates))
  {
    hide Decide, Over, Score, FlaggedRows, CountOf;
    if candidates == [] {
      NothingScored(models, ceiling);
      NothingOver(ceiling);
    } else {
      var n := |candidates| - 1;
      var front, c := candidates[..n], candidates[n];
      assert candidates == front + [c];
      ScoreIsFilter(models, front, ceiling);
      ScoreNext(models, front, c, ceiling);
      OverStep(FlaggedRows(models, front), Row(c, Decide(models, c).value), ceiling);
    }
  }

  lemma {:induction false} NothingScored(models: map<string, Model>, ceiling: int)
    ensures Score(models, [], ceiling) == Ok([]) && FlaggedRows(models, []) == []
  {
  }

  lemma {:induction false} ScoreNext(models: map<string, Model>, front: seq<Candidate>, c: Candidate, ceiling: int)
    requires Decide(models, c).Some?
    ensures var d, before := Decide(models, c).value, Score(models, front, ceiling);
      Score(models, front + [c], ceiling) ==
        if before.Err? || !d.flag then before
        else if CountOf(before.value, c.rule) + 1 > ceiling then Err(CeilingExceeded)
        else Ok(before.value + [Row(c, d)])
    ensures FlaggedRows(models, front + [c]) ==
      if Decide(models, c).value.flag then FlaggedRows(models, front) + [Row(c, Decide(models, c).value)]
        else FlaggedRows(models, front)
  {
    hide Decide, CountOf;
    assert (front + [c])[..|front|] == front;
    assert FlaggedRows(models, front) + [] == FlaggedRows(models, front);
  }

  lemma {:induction false} NothingOver(ceiling: int)
    ensures !Over([], ceiling)
  {
  }

  /** Where the rows of a rule stand. */
  function OfRule(rows: seq<Row>, rule: string): set<int> {
    set i | 0 <= i < |rows| && rows[i].candidate.rule == rule
  }

  lemma {:induction false} CountIs(rows: seq<Row>, rule: string)
    ensures CountOf(rows, rule) == |OfRule(rows, rule)|
  {
    if rows == [] {
      assert OfRule(rows, rule) == {};
    } else {
      var n := |rows| - 1;
      CountIs(rows[..n], rule);
      assert OfRule(rows, rule) == OfRule(rows[..n], rule) + if rows[n].candidate.rule == rule then {n} else {};
    }
  }

  /** The ceiling is exceeded when some rule has more rows of its own than it allows. */
  lemma {:induction false} OverIff(rows: seq<Row>, ceiling: int)
    requires ceiling >= 0
    ensures Over(rows, ceiling) <==> exists rule :: |OfRule(rows, rule)| > ceiling
  {
    hide CountOf;
    forall rule
      ensures CountOf(rows, rule) == |OfRule(rows, rule)|
    {
      CountIs(rows, rule);
    }
    if rule :| |OfRule(rows, rule)| > ceiling {
      var i :| i in OfRule(rows, rule);
      assert rows[i].candidate.rule == rule;
    }
  }

  lemma {:induction false} FlaggedRowsExact(models: map<string, Model>, candidates: seq<Candidate>, x: Row)
    ensures x in FlaggedRows(models, candidates) <==>
      x.candidate in candidates && Decide(models, x.candidate) == Some(x.decision) && x.decision.flag
  {
    hide Decide;
    if candidates != [] {
      var n := |candidates| - 1;
      FlaggedRowsExact(models, candidates[..n], x);
      assert candidates == candidates[..n] + [candidates[n]];
    }
  }

  lemma {:induction false} FlaggedRowsDistinct(source: string, models: map<string, Model>, candidates: seq<Candidate>,
      i: nat, j: nat)
    requires Distinct(source, candidates) && i <= j < |FlaggedRows(models, candidates)|
    ensures var rows := FlaggedRows(models, candidates);
      Named(source, rows[j].candidate) && (i < j ==> Differ(rows[i].candidate, rows[j].candidate))
  {
    hide Decide, Named, Differ;
    var n := |candidates| - 1;
    var front, rows := FlaggedRows(models, candidates[..n]), FlaggedRows(models, candidates);
    if j < |front| {
      FlaggedRowsDistinct(source, models, candidates[..n], i, j);
    } else {
      assert rows[j].candidate == candidates[n];
      if i < j {
        FlaggedRowsExact(models, candidates[..n], front[i]);
        var k :| 0 <= k < n && candidates[..n][k] == front[i].candidate;
        assert candidates[k] == rows[i].candidate;
      }
    }
  }
}
