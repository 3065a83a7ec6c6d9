/** What the row that raises a finding carries, and so when a suppression no longer covers it. */
module Evidence {
  import opened Common
  import opened Strings
  import opened Identity
  import opened Decimals
  import opened Populations
  import opened Rules
  import opened Lifecycle
  import opened Candidates
  import opened Ledger
  import opened FindingLaws
  import opened RunLaws
  import opened Analysis
  import opened AnalysisLaws
  import opened Reruns
  import opened Raised
  import opened RunAnswers

  /** Row `n` of the run raises the finding `key`. */
  ghost predicate Raises(x: Payload, versions: Versions, n: nat, key: Key) {
    && ReadyReleased(x, versions) && n < |Analyse(x, versions).rows|
    && KeyOf(ContextOf(0, x, Analyse(x, versions).scope, 0), Analyse(x, versions).rows[n].candidate) == key
  }

  lemma {:induction false} RaisesMeans(x: Payload, versions: Versions, n: nat, key: Key)
    requires Raises(x, versions, n, key)
    ensures ReadyReleased(x, versions) && Analyse(x, versions).Ready? && n < |Analyse(x, versions).rows|
  {
    hide Analyse, KeyOf, ScopeReleased, VersionsAccepted;
  }

  lemma {:induction false} RowIsQualifying(x: Payload, versions: Versions, n: nat) returns (candidates: seq<Candidate>)
    requires ReadyReleased(x, versions) && Analyse(x, versions).Ready? && n < |Analyse(x, versions).rows|
    ensures Prepared(x, versions, Analyse(x, versions).scope, candidates)
    ensures var c := Analyse(x, versions).rows[n].candidate;
      && c in candidates && Qualifies(c) == Boolean(true)
      && c.rule in Analyse(x, versions).scope
  {
    hide Analyse, Prepared, FlaggedRows, VersionsAccepted, ScopeReleased, Models, Decide, Over, Qualifies, ValidRows;
    ReadyReleasedMeans(x, versions);
    candidates := ReadyRowsFlagged(x, versions);
    var row := Analyse(x, versions).rows[n];
    RowIffQualifies(x, versions, candidates, row.candidate);
    assert Row(row.candidate, row.decision) in Analyse(x, versions).rows;
    ReadyRowsValid(x, versions, 0, 0);
    RowRule(ContextOf(0, x, Analyse(x, versions).scope, 0), Analyse(x, versions).rows, n);
  }

  lemma {:induction false} RowRule(ctx: RunContext, rows: seq<Row>, n: nat)
    requires ValidRows(ctx, rows) && n < |rows|
    ensures rows[n].candidate.rule in ctx.scope
  {
    hide KeyOf, Sourced;
  }

  /** A row under the key of a candidate of the run is that candidate. */
  lemma {:induction false} RowIs(x: Payload, versions: Versions, n: nat, candidates: seq<Candidate>, c: Candidate)
    requires Analyse(x, versions).Ready?
    requires Prepared(x, versions, Analyse(x, versions).scope, candidates) && c in candidates
    requires Raises(x, versions, n, ExceptionKey(c.rule, c.entity, c.entityId, x.population.period.id))
    ensures Analyse(x, versions).rows[n].candidate == c && Qualifies(c) == Boolean(true)
  {
    hide Analyse, Prepared, ReadyReleased, ExceptionKey, Qualifies;
    RaisesMeans(x, versions, n, ExceptionKey(c.rule, c.entity, c.entityId, x.population.period.id));
    var same := RowIsQualifying(x, versions, n);
    OneList(x, versions, candidates, same);
    SameKeySameCandidate(x, versions, candidates, Analyse(x, versions).rows[n].candidate, c,
      ContextOf(0, x, Analyse(x, versions).scope, 0));
  }

  lemma {:induction false} OneList(x: Payload, versions: Versions, a: seq<Candidate>, b: seq<Candidate>)
    requires exists scope :: Prepared(x, versions, scope, a) && Prepared(x, versions, scope, b)
    ensures a == b
  {
    hide Valid, Generate, Scope, ValidParameters, AllPriced, Models;
  }

  lemma {:induction false} RecordRow(x: Payload, versions: Versions, n: nat, i: nat, c: Candidate)
    requires i < |x.population.records| && Analyse(x, versions).Ready?
    requires RowCandidate(x.population.source, x.population.records[i], x.params) == Some(c)
    requires c.rule in Analyse(x, versions).scope
    requires c.entity == x.population.records[i].entity
      && c.entityId == EntityID(x.population.source, [x.population.records[i].id])
    requires Raises(x, versions, n, RowKey(x, c.rule, x.population.records[i]))
    ensures Analyse(x, versions).rows[n].candidate == c && Qualifies(c) == Boolean(true)
  {
    hide Analyse, Prepared, ReadyReleased, ExceptionKey, EntityID, RowCandidate, Qualifies, Raises;
    RowIsCandidate(x, versions, i, c);
    var candidates :| Prepared(x, versions, Analyse(x, versions).scope, candidates) && c in candidates;
    RowIs(x, versions, n, candidates, c);
  }

  lemma {:induction false} RaisedIsTested(x: Payload, versions: Versions, n: nat, rule: string, i: nat)
    requires Analyse(x, versions).Ready? && i < |x.population.records| && KeyPart(rule)
    requires Raises(x, versions, n, RowKey(x, rule, x.population.records[i]))
    ensures rule in Analyse(x, versions).scope
  {
    hide Analyse, ReadyReleased, RowKey, KeyPart, KeyOf;
    FlaggedRuleTested(x, versions, rule, i, 0, 0);
  }

  function ApprovalInput(r: Record, threshold: string): map<string, Value> {
    map["record_id" := Text(r.id), "amount" := Text(r.amount), "currency" := Text(r.currency),
        "date" := Text(r.date), "approval_limit" := Text(r.limit),
        "materiality" := Text(threshold), "qualifies" := Truth(true)]
  }

  /** The row that raises the finding of an approval carries the approval's own texts. */
  lemma {:induction false} ApprovalEvidence(x: Payload, versions: Versions, n: nat, i: nat)
    requires i < |x.population.records| && x.population.records[i].entity == "approval"
    requires Raises(x, versions, n, RowKey(x, "AP-02", x.population.records[i]))
    ensures Analyse(x, versions).rows[n].candidate.input ==
      ApprovalInput(x.population.records[i], ThresholdText(x, x.population.records[i]))
  {
    hide Analyse, ReadyReleased, Raises, RowKey, Valid, AllPriced, Covered, ValidID, Money, KeyPart, EntityID,
         ThresholdText, Amount;
    NamesAreKeyParts();
    RaisesMeans(x, versions, n, RowKey(x, "AP-02", x.population.records[i]));
    RaisedIsTested(x, versions, n, "AP-02", i);
    ReadyRecord(x, versions, i);
    var r := x.population.records[i];
    PricedAs(x, r);
    ApprovalCandidate(x.population.source, r, x.params);
    RecordRow(x, versions, n, i, RowCandidate(x.population.source, r, x.params).value);
  }

  lemma {:induction false} PricedAs(x: Payload, r: Record)
    requires r.currency in x.params.thresholds || (r.currency == "USD" && !x.params.explicit)
    ensures MaterialityFor(x.params, r.currency) == Some(ThresholdText(x, r))
    ensures Threshold(x.params, r.currency) == ThresholdText(x, r)
  {
  }

  /** The row that raises the finding of a journal line carries the line's own texts. */
  lemma {:induction false} JournalEvidence(x: Payload, versions: Versions, n: nat, i: nat)
    requires i < |x.population.records| && x.population.records[i].entity == "journal_entry"
    requires Raises(x, versions, n, RowKey(x, "JE-01", x.population.records[i]))
    ensures var r := x.population.records[i];
      Analyse(x, versions).rows[n].candidate.input ==
        map["record_id" := Text(r.id), "amount" := Text(r.amount), "currency" := Text(r.currency),
            "date" := Text(r.date), "debit" := Text(r.debit), "credit" := Text(r.credit),
            "materiality" := Text(ThresholdText(x, r)), "weekend" := Truth(true), "qualifies" := Truth(true)]
  {
    hide Analyse, ReadyReleased, Raises, RowKey, Valid, AllPriced, Covered, ValidID, Money, KeyPart, EntityID,
         ThresholdText, Amount, OnWeekend;
    NamesAreKeyParts();
    RaisesMeans(x, versions, n, RowKey(x, "JE-01", x.population.records[i]));
    RaisedIsTested(x, versions, n, "JE-01", i);
    ReadyRecord(x, versions, i);
    var r := x.population.records[i];
    PricedAs(x, r);
    JournalCandidate(x.population.source, r, x.params);
    RecordRow(x, versions, n, i, RowCandidate(x.population.source, r, x.params).value);
  }

  lemma {:induction false} PairRow(x: Payload, versions: Versions, n: nat, i: nat, j: nat)
    requires i < j < |x.population.records|
    requires x.population.records[i].entity == "payment" && x.population.records[j].entity == "payment"
    requires Raises(x, versions, n, PairKey(x, x.population.records[i], x.population.records[j]))
    ensures var a, b := x.population.records[i], x.population.records[j];
      && Analyse(x, versions).Ready? && n < |Analyse(x, versions).rows| && SamePayment(a, b)
      && Analyse(x, versions).rows[n].candidate == Candidate1(x.population.source, x.params, Ordered(a, b))
      && Qualifies(Analyse(x, versions).rows[n].candidate) == Boolean(true)
  {
    hide Analyse, ReadyReleased, Prepared, EntityID, SamePayment, Ordered, Candidate1, Qualifies, ExceptionKey, Amount;
    var a, b := x.population.records[i], x.population.records[j];
    RaisesMeans(x, versions, n, PairKey(x, a, b));
    ReadyReleasedMeans(x, versions);
    FlaggedPair(x, versions, i, j, 0, 0);
    var candidates, c := PairIsCandidate(x, versions, i, j);
    OrderedCandidate(x.population.source, a, b, x.params);
    RowIs(x, versions, n, candidates, c);
  }

  lemma {:induction false} PairInput(source: string, params: Parameters, a: Record, b: Record)
    requires SamePayment(a, b) && Qualifies(Candidate1(source, params, Ordered(a, b))) == Boolean(true)
    ensures var p, q := if Leq(a.id, b.id) then a else b, if Leq(a.id, b.id) then b else a;
      Candidate1(source, params, Ordered(a, b)).input ==
        map["record_id" := Text(p.id), "paired_record_id" := Text(q.id), "date" := Text(p.date),
            "paired_date" := Text(q.date), "amount" := Text(Fixed4(Amount(a.amount))),
            "currency" := Text(a.currency),
            "materiality" := Text(Threshold(params, a.currency)), "qualifies" := Truth(true)]
  {
    hide EntityID, Amount, Fixed4, Leq, DayOf, Threshold;
  }

  /**
   The row that raises the finding of two payments carries the texts of both,
   the one with the smaller id first, with the amount as the database prints it.
   */
  lemma {:induction false} DuplicateEvidence(x: Payload, versions: Versions, n: nat, i: nat, j: nat)
    requires i < j < |x.population.records|
    requires x.population.records[i].entity == "payment" && x.population.records[j].entity == "payment"
    requires Raises(x, versions, n, PairKey(x, x.population.records[i], x.population.records[j]))
    ensures Analyse(x, versions).Ready?
    ensures var a, b := x.population.records[i], x.population.records[j];
      var p, q := if Leq(a.id, b.id) then a else b, if Leq(a.id, b.id) then b else a;
      && Money(a.amount).Some?
      && Analyse(x, versions).rows[n].candidate.input ==
        map["record_id" := Text(p.id), "paired_record_id" := Text(q.id), "date" := Text(p.date),
            "paired_date" := Text(q.date), "amount" := Text(Fixed4(Money(a.amount).value)),
            "currency" := Text(a.currency),
            "materiality" := Text(ThresholdText(x, a)), "qualifies" := Truth(true)]
  {
    hide Analyse, ReadyReleased, Raises, PairKey, Valid, AllPriced, Covered, ValidID, Money, ThresholdText, Amount,
         Fixed4, Leq, SamePayment, Ordered, Candidate1, Qualifies, Threshold;
    var a, b := x.population.records[i], x.population.records[j];
    PairRow(x, versions, n, i, j);
    ReadyRecord(x, versions, i);
    PairInput(x.population.source, x.params, a, b);
    PricedAs(x, a);
    AmountOfMoney(a.amount);
  }

  // ----- what a suppression covers -----

  /** The texts of a record that its finding rests on. */
  predicate SameTexts(r: Record, q: Record) {
    r.id == q.id && r.amount == q.amount && r.currency == q.currency && r.date == q.date && r.limit == q.limit
  }

  lemma {:induction false} ApprovalConsumed(r: Record, t: string, q: Record, u: string)
    ensures Consumed(ApprovalInput(r, t)) == Consumed(ApprovalInput(q, u)) <==> SameTexts(r, q)
  {
    var a, b := Consumed(ApprovalInput(r, t)), Consumed(ApprovalInput(q, u));
    if a == b {
      assert a["record_id"] == b["record_id"] && a["amount"] == b["amount"] && a["currency"] == b["currency"];
      assert a["date"] == b["date"] && a["approval_limit"] == b["approval_limit"];
    } else {
      DifferentMaps(a, b);
      var k :| DifferAt(a, b, k);
    }
  }

  lemma {:induction false} FlaggedByRow(l: Tables, m: Tables, run: nat, x: Payload, v: Versions, at: int, n: nat,
      key: Key)
    requires TablesOk(l) && RunOf(l, m, run, x, v, at) && Raises(x, v, n, key)
    ensures key in m.findings && Analyse(x, v).Ready? && n < |Analyse(x, v).rows|
    ensures Answered(At(l, key).finding, m.findings[key], OfInput(Consumed(Analyse(x, v).rows[n].candidate.input)), at)
  {
    hide Analyse, TablesOk, FindingLaws.Commits, ReadyReleased, At, Answered, Consumed, ExceptionKey;
    RaisesMeans(x, v, n, key);
    FlaggedAnswers(l, m, ContextOf(run, x, Analyse(x, v).scope, at), Analyse(x, v).rows, n);
  }

  /**
   A suppressed approval that a later run raises again stays suppressed exactly
   when the suppression has not expired and the approval's amount, currency,
   date and limit are still the texts of the evidence the finding rests on; a
   new threshold alone does not reopen it.
   */
  lemma {:induction false} SuppressedApprovalStaysIff(l: Tables, m: Tables, x: Payload, v: Versions, n: nat, i: nat,
      y: Payload, w: Versions, k: nat, j: nat, run: nat, at: int)
    requires i < |x.population.records| && x.population.records[i].entity == "approval"
    requires j < |y.population.records| && y.population.records[j].entity == "approval"
    requires var key := RowKey(x, "AP-02", x.population.records[i]);
      && key == RowKey(y, "AP-02", y.population.records[j])
      && Raises(x, v, n, key) && Raises(y, w, k, key)
      && TablesOk(l) && RunOf(l, m, run, y, w, at)
      && key in l.findings && l.findings[key].state == Suppressed
      && l.findings[key].consumed == OfInput(Consumed(Analyse(x, v).rows[n].candidate.input))
    ensures var key := RowKey(x, "AP-02", x.population.records[i]);
      && key in m.findings && l.findings[key].expiry.Some?
      && m.findings[key].state ==
         if l.findings[key].expiry.value > at && SameTexts(x.population.records[i], y.population.records[j])
         then Suppressed else Reopened
  {
    hide Analyse, TablesOk, RunOf, Raises, RowKey, Consumed, ThresholdText, SameTexts, EventsOf, CaseEventsOf;
    var key := RowKey(x, "AP-02", x.population.records[i]);
    RaisesMeans(x, v, n, key);
    FlaggedByRow(l, m, run, y, w, at, k, key);
    ApprovalEvidence(x, v, n, i);
    ApprovalEvidence(y, w, k, j);
    var a, b := x.population.records[i], y.population.records[j];
    ApprovalConsumed(a, ThresholdText(x, a), b, ThresholdText(y, b));
  }
}
