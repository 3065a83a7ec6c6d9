/** Exactly when and at which stage a run halts, and that a stopped run says why. */
module Halts {
  import opened Common
  import opened Populations
  import opened Reconciliation
  import opened Rules
  import opened Candidates
  import opened Analysis
  import opened AnalysisLaws
  import opened RunSteps
  import opened SystemLaws
  import opened Executions
  import opened Schedules

  /** The duplicate test is in scope and finds more pairs than the ceiling. */
  predicate TooManyPairs(x: Payload) {
    "AP-01" in Scope(x.population.controls, x.manifest) && |AllPairs(x.population.records)| > x.params.ceiling
  }

  predicate Loaded(x: Payload, versions: Versions) {
    var scope := Scope(x.population.controls, x.manifest);
    forall rule :: rule in scope ==> (rule, scope[rule]) in versions
  }

  /** All candidates of the tested rules: the duplicate pairs, then the rows. */
  function AllCandidates(x: Payload): seq<Candidate> {
    var rules := Scope(x.population.controls, x.manifest).Keys;
    (if "AP-01" in rules then PairCandidates(x.population.source, AllPairs(x.population.records), x.params) else [])
    + RowCandidates(x.population.source, x.population.records, x.params, rules)
  }

  /** The candidates that the released rules flag. */
  function FlaggedBy(x: Payload, versions: Versions): seq<Row> {
    FlaggedRows(Models(Scope(x.population.controls, x.manifest), versions), AllCandidates(x))
  }

  lemma {:induction false} GeneratesAll(x: Payload)
    requires Checked(x)
    ensures Generate(x.population, x.params, Scope(x.population.controls, x.manifest).Keys) ==
      if TooManyPairs(x) then Err(CeilingExceeded) else Ok(AllCandidates(x))
  {
    hide Valid, AllPriced, RowCandidates, AllPairs, ReadPairs, Scope, PairCandidates, Limited;
    DuplicatesAllOrNothing(x.population, x.params);
    assert [] + RowCandidates(x.population.source, x.population.records, x.params,
      Scope(x.population.controls, x.manifest).Keys) == RowCandidates(x.population.source, x.population.records,
      x.params, Scope(x.population.controls, x.manifest).Keys);
  }

  lemma {:induction false} LoadedIff(x: Payload, versions: Versions)
    ensures var scope := Scope(x.population.controls, x.manifest);
      Loaded(x, versions) <==> Models(scope, versions).Keys == scope.Keys
  {
    hide Scope;
    var scope := Scope(x.population.controls, x.manifest);
    var models := Models(scope, versions);
    if models.Keys == scope.Keys {
      forall rule | rule in scope
        ensures (rule, scope[rule]) in versions
      {
        assert rule in models;
      }
    }
  }

  lemma {:induction false} ScoresAll(x: Payload, versions: Versions)
    requires Checked(x) && VersionsAccepted(versions) && Loaded(x, versions) && !TooManyPairs(x)
    ensures Score(Models(Scope(x.population.controls, x.manifest), versions), AllCandidates(x), x.params.ceiling) ==
      if Over(FlaggedBy(x, versions), x.params.ceiling) then Err(CeilingExceeded) else Ok(FlaggedBy(x, versions))
  {
    hide Valid, ValidParameters, AllPriced, Generate, Scope, Score, FlaggedRows, AllCandidates, Over, Models, Loaded,
         Decide, TooManyPairs, VersionsAccepted;
    var scope := Scope(x.population.controls, x.manifest);
    GeneratesAll(x);
    LoadedIff(x, versions);
    EveryCandidateDecided(x, versions, scope, AllCandidates(x));
    ScoreIsFilter(Models(scope, versions), AllCandidates(x), x.params.ceiling);
  }

  /**
   A run halts before the first stage unless its payload passes the checks; in
   the second stage unless its population ties out; in the fifth if there are
   more duplicate pairs than the ceiling; in the sixth if a version is missing
   or a rule flags more than the ceiling; and otherwise, and only then, it comes
   to reconcile exactly the candidates that the released rules flag.
   */
  lemma {:induction false} OutcomeIs(x: Payload, versions: Versions)
    requires VersionsAccepted(versions)
    ensures Analyse(x, versions) ==
      if !Checked(x) then Halted(Failed, 0)
      else if !TiesOut(x.population, []) then Halted(TieOutFailed, 2)
      else if TooManyPairs(x) then Halted(CeilingExceeded, 5)
      else if !Loaded(x, versions) then Halted(Failed, 6)
      else if Over(FlaggedBy(x, versions), x.params.ceiling) then Halted(CeilingExceeded, 6)
      else Ready(Scope(x.population.controls, x.manifest), FlaggedBy(x, versions))
  {
    hide Analyse, Checked, TiesOut, Generate, Score, Models, Scope, TooManyPairs, Loaded, Over, FlaggedBy,
         AllCandidates, VersionsAccepted;
    OutcomeBySteps(x, versions);
    if Checked(x) {
      GeneratesAll(x);
      LoadedIff(x, versions);
      if Loaded(x, versions) && !TooManyPairs(x) {
        ScoresAll(x, versions);
      }
    }
  }

  /**
   In every execution, a run that stopped because it did not tie out has a
   population that does not, and one that stopped at the ceiling ties out and
   has more pairs, or more findings of one rule, than the ceiling.
   */
  lemma {:induction false} StoppedSaysWhy(b: seq<System.State>, steps: seq<System.Step>, n: nat, r: nat)
    requires Execution(b, steps) && n < |b| && r in b[n].runs && b[n].runs[r].status.Stopped?
    ensures var x, halt := b[n].runs[r].payload, b[n].runs[r].status.halt;
      && (halt == TieOutFailed ==> Checked(x) && !TiesOut(x.population, []))
      && (halt == CeilingExceeded ==>
           && Checked(x) && TiesOut(x.population, [])
           && (TooManyPairs(x) || Over(FlaggedBy(x, b[n].versions), x.params.ceiling)))
  {
    hide Execution, Inv, Analyse, Checked, TiesOut, TooManyPairs, Loaded, Over, FlaggedBy, Scope, VersionsAccepted;
    AlwaysWhy(b, steps, n);
    ReachableInv(b, steps, n);
    InvParts(b[n]);
    OutcomeIs(b[n].runs[r].payload, b[n].versions);
  }
}
