/** The loops of a run between its stages, proved against the functions that say what they compute. */
module RunSteps {
  import opened Common
  import opened Identity
  import opened Populations
  import opened Reconciliation
  import opened TieOutLaws
  import opened Rules
  import opened Candidates
  import opened Analysis

  predicate ThresholdsOk(p: Parameters, currencies: set<string>) {
    forall c :: c in currencies && c in p.thresholds ==> Currency(c) && NonNegative(p.thresholds[c])
  }

  method ValidateThresholds(p: Parameters) returns (ok: bool)
    ensures ok <==> ThresholdsOk(p, p.thresholds.Keys)
  {
    hide Currency, NonNegative;
    var left := p.thresholds.Keys;
    while left != {}
      invariant left <= p.thresholds.Keys && ThresholdsOk(p, p.thresholds.Keys - left)
    {
      var c :| c in left;
      if !Currency(c) || !NonNegative(p.thresholds[c]) {
        return false;
      }
      left := left - {c};
    }
    return true;
  }

  /** `Parameters.Validate`. */
  method ValidateParameters(p: Parameters) returns (ok: bool)
    ensures ok <==> ValidParameters(p)
  {
    hide Currency, NonNegative;
    if !NonNegative(p.materiality) || p.ceiling < 1 || p.ceiling > 100000 || |p.weekend| == 0 || |p.weekend| > 7 {
      return false;
    }
    ok := ValidateThresholds(p);
    if !ok { return; }
    var seen := {};
    for i := 0 to |p.weekend|
      invariant seen == set k | 0 <= k < i :: p.weekend[k]
      invariant forall k :: 0 <= k < i ==> 0 <= p.weekend[k] <= 6
      invariant forall j, k :: 0 <= j < k < i ==> p.weekend[j] != p.weekend[k]
    {
      if p.weekend[i] < 0 || p.weekend[i] > 6 || p.weekend[i] in seen {
        return false;
      }
      seen := seen + {p.weekend[i]};
    }
    return true;
  }

  predicate Checked(x: Payload) {
    ValidParameters(x.params) && Valid(x.population) && AllPriced(x.population, x.params)
  }

  /** The checks before the first stage. */
  method CheckPayload(x: Payload) returns (ok: bool)
    ensures ok <==> Checked(x)
  {
    hide ValidParameters, Valid, MaterialityFor;
    ok := ValidateParameters(x.params);
    if !ok { return; }
    ok := Populations.Validate(x.population);
    if !ok { return; }
    for i := 0 to |x.population.records|
      invariant forall k :: 0 <= k < i ==> MaterialityFor(x.params, x.population.records[k].currency).Some?
    {
      if MaterialityFor(x.params, x.population.records[i].currency).None? {
        return false;
      }
    }
    return true;
  }

  /** Whether the population ties out; a population has one result only. */
  method CheckTieOut(p: Population) returns (ok: bool)
    requires Valid(p)
    ensures ok <==> TiesOut(p, [])
  {
    hide Valid, TiesOut;
    var d := TieOut(p);
    if d != [] && TiesOut(p, []) {
      assert p.(records := p.records) == p;
      OrderIndependent(p, p.records, d, []);
    }
    ok := d == [];
  }

  /** The entities that some control covers. */
  method ReadEntities(controls: seq<Control>) returns (entities: set<string>)
    ensures entities == set i | 0 <= i < |controls| :: controls[i].entity
  {
    entities := {};
    for i := 0 to |controls|
      invariant entities == set k | 0 <= k < i :: controls[k].entity
    {
      entities := entities + {controls[i].entity};
    }
  }

  /** A manifest entry of a known rule whose entity is covered. */
  method ReadScope(controls: seq<Control>, manifest: map<string, Digest>) returns (scope: map<string, Digest>)
    ensures scope == Scope(controls, manifest)
  {
    var entities := ReadEntities(controls);
    var left := manifest.Keys;
    scope := map[];
    while left != {}
      invariant left <= manifest.Keys
      invariant scope == map rule | rule in manifest && rule !in left && rule in RULES
        && RULES[rule] in entities :: manifest[rule]
    {
      var rule :| rule in left;
      if rule in RULES && RULES[rule] in entities {
        scope := scope[rule := manifest[rule]];
      }
      left := left - {rule};
    }
    assert forall rule :: rule in RULES ==>
      (RULES[rule] in entities <==> exists i :: 0 <= i < |controls| && controls[i].entity == RULES[rule]);
    assert scope == Scope(controls, manifest);
  }

  method ReadRows(source: string, records: seq<Record>, p: Parameters,
      rules: set<string>) returns (rows: seq<Candidate>)
    ensures rows == RowCandidates(source, records, p, rules)
  {
    hide RowCandidate;
    rows := [];
    for i := 0 to |records|
      invariant rows == RowCandidates(source, records[..i], p, rules)
    {
      assert records[..i + 1][..i] == records[..i];
      var c := RowCandidate(source, records[i], p);
      if c.Some? && c.value.rule in rules {
        rows := rows + [c.value];
      }
    }
    assert records[..|records|] == records;
  }

  method ReadCandidates(p: Population, params: Parameters, rules: set<string>) returns (r: Result<seq<Candidate>, Halt>)
    ensures r == Generate(p, params, rules)
  {
    hide RowCandidates, AllPairs, ReadPairs, Limited;
    var pairs: seq<Candidate> := [];
    if "AP-01" in rules {
      r := Duplicates(p.source, AllPairs(p.records), params);
      if r.Err? { return; }
      pairs := r.value;
    }
    var rows := ReadRows(p.source, p.records, params, rules);
    assert [] + rows == rows;
    return Ok(pairs + rows);
  }

  /** Loads the released version of each rule in scope; fails when one is missing. */
  method LoadModels(scope: map<string, Digest>, versions: Versions) returns (models: map<string, Model>, ok: bool)
    ensures ok <==> Models(scope, versions).Keys == scope.Keys
    ensures ok ==> models == Models(scope, versions)
  {
    models, ok := map[], false;
    var left := scope.Keys;
    while left != {}
      invariant left <= scope.Keys
      invariant forall rule :: rule in scope && rule !in left ==> (rule, scope[rule]) in versions
      invariant models == map rule | rule in scope && rule !in left :: versions[(rule, scope[rule])]
    {
      var rule :| rule in left;
      if (rule, scope[rule]) !in versions {
        assert rule !in Models(scope, versions);
        return;
      }
      models := models[rule := versions[(rule, scope[rule])]];
      left := left - {rule};
    }
    ok := true;
    assert models == Models(scope, versions);
  }

  // ----- how the steps make up the outcome -----

  /** How far a run gets, by the first of its steps that fails. */
  lemma {:induction false} OutcomeBySteps(x: Payload, versions: Versions)
    ensures var o := Analyse(x, versions);
      var p, scope := x.population, Scope(x.population.controls, x.manifest);
      var found := Generate(p, x.params, scope.Keys);
      var models := Models(scope, versions);
      if !Checked(x) then o == Halted(Failed, 0)
      else if !TiesOut(p, []) then o == Halted(TieOutFailed, 2)
      else if found.Err? then o == Halted(found.error, 5)
      else if models.Keys != scope.Keys then o == Halted(Failed, 6)
      else match Score(models, found.value, x.params.ceiling)
        case Err(h) => o == Halted(h, 6)
        case Ok(rows) => o == Ready(scope, rows)
  {
    hide Valid, ValidParameters, AllPriced, TiesOut, Scope, Generate, Models, Score;
  }
}
