/** One small run from start to finish: an approval over its limit becomes a finding. */
module ExampleRun {
  import opened Common
  import opened Identity
  import opened Decimals
  import opened Dates
  import opened Populations
  import opened Reconciliation
  import opened TieOutLaws
  import opened Rules
  import opened Candidates
  import opened Ledger
  import opened FindingLaws
  import opened RunLaws
  import Histories
  import opened Analysis
  import opened AnalysisLaws

  const DAY := "2026-08-01"

  const APPROVAL := Record("approval", "a1", DAY, "2", "USD", "2", "USD", "1", DAY, "", "0", "0", "1", false, false)

  const POPULATION := Population("erp", Period("p1", DAY, DAY), "r", [Control("approval", "USD", 1, "2", "0", "0")],
    [APPROVAL])

  const PARAMETERS := Parameters(false, "1", map[], [0], 1)

  const DECISIONS := Table("first", [Rules.Column("q", "qualifies")],
    [Rules.Column("f", "flag"), Rules.Column("s", "severity"), Rules.Column("w", "owner_role")],
    [map["q" := "true", "f" := "true", "s" := "\"high\"", "w" := "\"auditor\""],
     map["f" := "false", "s" := "\"low\"", "w" := "\"auditor\""]])

  const MODEL := Rules.Model(0,
    [Rules.Node("i", INPUT, None), Rules.Node("t", TABLE, Some(DECISIONS)), Rules.Node("o", OUTPUT, None)],
                             [Rules.Edge("i", "t"), Rules.Edge("t", "o")])

  const PAYLOAD := Payload(POPULATION, PARAMETERS, Blank, map["AP-02" := Blank])

  const VERSIONS: Versions := map[("AP-02", Blank) := MODEL]

  // ----- texts -----

  lemma {:induction false} OneDigit(c: char)
    requires Digit(c)
    ensures Money([c]) == Some(DigitValue(c) * SCALE)
  {
    assert [c][..0] == "" && [c][..1] == [c];
    assert NatValue([c]) == DigitValue(c);
    assert PointAt([c]) == 1;
    assert Unsigned([c]) == [c];
  }

  lemma {:induction false} Amounts()
    ensures Money("0") == Some(0) && Money("1") == Some(SCALE) && Money("2") == Some(2 * SCALE)
  {
    OneDigit('0');
    OneDigit('1');
    OneDigit('2');
  }

  lemma {:induction false} TwoDigits(a: char, b: char)
    requires Digit(a) && Digit(b)
    ensures NatValue([a, b]) == 10 * DigitValue(a) + DigitValue(b)
  {
    NatValueAppend("", a);
    assert "" + [a] == [a] && [a] + [b] == [a, b];
    NatValueAppend([a], b);
  }

  lemma {:induction false} DayIsDate()
    ensures ParseDate(DAY).Some?
  {
    hide DayNumber, DaysBefore;
    assert DAY[..4] == "2026" && DAY[5..7] == ['0', '8'] && DAY[8..] == ['0', '1'];
    TwoDigits('0', '8');
    TwoDigits('0', '1');
  }

  lemma {:induction false} ExampleValid()
    ensures Populations.Valid(POPULATION) && ValidParameters(PARAMETERS) && AllPriced(POPULATION, PARAMETERS)
  {
    hide ParseDate, Money;
    Amounts();
    DayIsDate();
    assert ValidRecord(APPROVAL, POPULATION.period);
    assert ValidControl(POPULATION.controls[0]);
  }

  // ----- tie-out -----

  lemma {:induction false} OneGroup()
    ensures Actual(POPULATION.controls, POPULATION.records).Keys == {Tag("approval", "USD")}
  {
    hide Plus;
    var c, r := POPULATION.controls, POPULATION.records;
    assert r[..0] == [] && c[..0] == [];
    assert Actual(c[..0], []) == map[];
    assert Actual(c, []).Keys == {Tag("approval", "USD")};
  }

  lemma {:induction false} ExampleSums(entity: string, currency: string, f: Field)
    ensures Count(POPULATION.records, entity, currency) == (if entity == "approval" && currency == "USD" then 1 else 0)
    ensures Sum(POPULATION.records, entity, currency, f) ==
      if entity == "approval" && currency == "USD" then Amount(Get(APPROVAL, f)) else 0
  {
    hide Amount;
    assert POPULATION.records[..0] == [];
    assert Count([], entity, currency) == 0 && Sum([], entity, currency, f) == 0;
  }

  lemma {:induction false} ExampleControlTies()
    ensures GroupTies(POPULATION, "approval", "USD")
  {
    hide Money, Count, Sum;
    Amounts();
    ExampleSums("approval", "USD", OfAmount);
    ExampleSums("approval", "USD", OfDebit);
    ExampleSums("approval", "USD", OfCredit);
    assert "approval" != "journal_entry";
    assert ControlTies(POPULATION, POPULATION.controls[0], "approval", "USD");
  }

  lemma {:induction false} OnlyGroup(entity: string, currency: string)
    requires Present(POPULATION.controls, POPULATION.records, entity, currency)
    ensures entity == "approval" && currency == "USD"
  {
    hide Count;
    ExampleSums(entity, currency, OfAmount);
  }

  lemma {:induction false} ExampleListed()
    ensures exists d :: TiesOut(POPULATION, d)
  {
    hide Actual, Expected, Differences;
    OneGroup();
    var k := Tag("approval", "USD");
    var a, e := Actual(POPULATION.controls, POPULATION.records), Expected(POPULATION.controls);
    assert multiset([k]) == multiset(a.Keys);
    assert Listing([k], a.Keys);
    assert TiesOut(POPULATION, Differences(a, e, [k]));
  }

  lemma {:induction false} ExampleTiesOut()
    ensures TiesOut(POPULATION, [])
  {
    hide Populations.Valid, TiesOut, GroupTies, Present, ValidParameters, AllPriced;
    ExampleValid();
    ExampleListed();
    var d :| TiesOut(POPULATION, d);
    TiesOutIff(POPULATION, d);
    ExampleControlTies();
    forall entity, currency | Present(POPULATION.controls, POPULATION.records, entity, currency)
      ensures GroupTies(POPULATION, entity, currency)
    {
      OnlyGroup(entity, currency);
    }
  }

  // ----- the decision model -----

  lemma {:induction false} ExampleColumns()
    ensures ColumnFor(DECISIONS.outputs, "flag") == "f" && ColumnFor(DECISIONS.outputs, "severity") == "s"
    ensures ColumnFor(DECISIONS.outputs, "owner_role") == "w" && OutputsOk(DECISIONS.outputs)
  {
    var o := DECISIONS.outputs;
    assert "flag"[0] != "severity"[0] && "flag"[0] != "owner_role"[0] && "severity"[0] != "owner_role"[0];
    assert o[..2][..1] == o[..1];
    assert ColumnFor(o[..1], "flag") == "f" && ColumnFor(o[..2], "severity") == "s" && ColumnFor(o[..2], "flag") == "f";
  }

  lemma {:induction false} ExampleTable()
    ensures TableOk(DECISIONS)
  {
    hide ColumnFor;
    ExampleColumns();
    assert "q"[0] != "f"[0] && "q"[0] != "s"[0] && "q"[0] != "w"[0] && "f"[0] != "s"[0] && "f"[0] != "w"[0]
      && "s"[0] != "w"[0];
    assert "\"high\""[1..5] == "high" && "\"low\""[1..4] == "low" && "\"auditor\""[1..8] == "auditor";
    assert Quoted("\"high\"", SEVERITIES) && Quoted("\"low\"", SEVERITIES) && Quoted("\"auditor\"", OWNERS);
  }

  lemma {:induction false} ExampleKinds()
    ensures KindOf(MODEL.nodes, "i") == INPUT && KindOf(MODEL.nodes, "t") == TABLE && KindOf(MODEL.nodes, "o") == OUTPUT
  {
    var n := MODEL.nodes;
    assert "i"[0] != "t"[0] && "i"[0] != "o"[0] && "t"[0] != "o"[0];
    assert n[..2][..1] == n[..1];
    assert KindOf(n[..1], "i") == INPUT && KindOf(n[..2], "i") == INPUT && KindOf(n[..2], "t") == TABLE;
  }

  lemma {:induction false} ExampleAccepted()
    ensures Accepts(MODEL)
  {
    hide TableOk, KindOf;
    ExampleTable();
    ExampleKinds();
    assert "i"[0] != "t"[0] && "i"[0] != "o"[0] && "t"[0] != "o"[0];
    assert MODEL.edges[0] == Rules.Edge("i", "t") && MODEL.edges[1] == Rules.Edge("t", "o");
  }

  lemma {:induction false} ExampleReleased()
    ensures Releasable(MODEL)
  {
    hide TableOk, ColumnFor, Accepts;
    ExampleAccepted();
    ExampleColumns();
    var n := MODEL.nodes;
    assert INPUT[0] != TABLE[0] && OUTPUT[0] != TABLE[0];
    assert n[..2][1] == n[1] && TableOf(n[..2]) == Some(DECISIONS) && TableOf(n) == Some(DECISIONS);
    assert "f"[0] != "q"[0] && "true"[0] != "false"[0] && |"true"| == 4;
    forall q: Given
      ensures FirstHit(DECISIONS, q, 0) == Some(if q == Boolean(true) then DECISIONS.rules[0] else DECISIONS.rules[1])
    {
      assert FirstHit(DECISIONS, q, 1) == Some(DECISIONS.rules[1]);
    }
  }

  // ----- the run -----

  lemma {:induction false} ExampleScope()
    ensures Scope(POPULATION.controls, PAYLOAD.manifest) == map["AP-02" := Blank]
    ensures Models(map["AP-02" := Blank], VERSIONS) == map["AP-02" := MODEL]
  {
    assert POPULATION.controls[0].entity == RULES["AP-02"];
  }

  lemma {:induction false} ExampleCandidates() returns (candidates: seq<Candidate>)
    ensures Generate(POPULATION, PARAMETERS, {"AP-02"}) == Ok(candidates) && |candidates| <= 1
  {
    hide RowCandidate;
    candidates := RowCandidates("erp", [APPROVAL], PARAMETERS, {"AP-02"});
    assert [APPROVAL][..0] == [];
    assert RowCandidates("erp", [], PARAMETERS, {"AP-02"}) == [];
    assert "AP-01"[4] != "AP-02"[4];
  }

  lemma {:induction false} FewRows(models: map<string, Rules.Model>, candidates: seq<Candidate>, rule: string)
    ensures |FlaggedRows(models, candidates)| <= |candidates|
    ensures CountOf(FlaggedRows(models, candidates), rule) <= |FlaggedRows(models, candidates)|
  {
    hide Decide;
    if candidates != [] {
      var front := FlaggedRows(models, candidates[..|candidates| - 1]);
      FewRows(models, candidates[..|candidates| - 1], rule);
      var rows := FlaggedRows(models, candidates);
      if |rows| > |front| {
        assert rows[..|rows| - 1] == front;
      } else {
        assert rows == front;
      }
    }
  }

  /** The example reaches reconciliation. */
  lemma {:induction false} ExampleIsReady()
    ensures Analyse(PAYLOAD, VERSIONS).Ready? && Analyse(PAYLOAD, VERSIONS).scope == map["AP-02" := Blank]
    ensures VersionsAccepted(VERSIONS) && ScopeReleased(Analyse(PAYLOAD, VERSIONS).scope, VERSIONS)
  {
    hide Populations.Valid, ValidParameters, AllPriced, TiesOut, Generate, Score, Scope, Models, Accepts, Releasable,
         FlaggedRows;
    ExampleValid();
    ExampleTiesOut();
    ExampleScope();
    ExampleAccepted();
    ExampleReleased();
    var scope := map["AP-02" := Blank];
    assert scope.Keys == {"AP-02"};
    var candidates := ExampleCandidates();
    var models := Models(scope, VERSIONS);
    EveryCandidateDecided(PAYLOAD, VERSIONS, scope, candidates);
    ScoreIsFilter(models, candidates, 1);
    forall rule
      ensures CountOf(FlaggedRows(models, candidates), rule) <= 1
    {
      FewRows(models, candidates, rule);
    }
  }

  lemma {:induction false} ExampleFlagged(r: Analysis.Outcome, run: nat, at: int)
    requires r == Analyse(PAYLOAD, VERSIONS) && r.Ready?
    ensures Flagged(ContextOf(run, PAYLOAD, r.scope, at), r.rows, RowKey(PAYLOAD, "AP-02", APPROVAL))
  {
    hide Analyse, Flagged, ScopeReleased, VersionsAccepted, RowKey, ContextOf, Money, EntityID;
    ExampleIsReady();
    Amounts();
    ApprovalFlaggedIff(PAYLOAD, VERSIONS, 0, run, at);
  }

  /**
   From fresh tables, the run of the example leaves a finding for the approval
   that is not resolved: everything that the theorems about runs ask for can be met.
   */
  lemma {:induction false} ExampleRaisesAFinding(r: Analysis.Outcome, run: nat, at: int, m: Tables)
    requires r == Analyse(PAYLOAD, VERSIONS)
    requires r.Ready? ==> FindingLaws.Commits(EMPTY, Run(ContextOf(run, PAYLOAD, r.scope, at), r.rows), m)
    ensures RowKey(PAYLOAD, "AP-02", APPROVAL) in m.findings
    ensures m.findings[RowKey(PAYLOAD, "AP-02", APPROVAL)].state != Lifecycle.Resolved
  {
    hide Analyse, FindingLaws.Commits, Flagged, TablesOk, RowKey, ContextOf;
    ExampleIsReady();
    ExampleFlagged(r, run, at);
    Histories.EmptyOk();
    RunReconciles(EMPTY, m, ContextOf(run, PAYLOAD, r.scope, at), r.rows);
  }
}
