/**
 Candidate generation (internal/analytics): one candidate for each journal line
 and approval, and one for each pair of payments that may be a duplicate.
 */
module Candidates {
  import opened Common
  import opened Strings
  import opened Identity
  import opened Decimals
  import opened Dates
  import opened Populations
  import opened Rules

  datatype Candidate = Candidate(rule: string, entity: string, entityId: string, input: map<string, Value>)

  const POLICY := {"materiality", "qualifies", "weekend"}

  /** The fields that a change of policy does not touch. */
  function Consumed(input: map<string, Value>): map<string, Value> {
    input - POLICY
  }

  /** What the decision model sees. */
  function Qualifies(c: Candidate): Given {
    if "qualifies" !in c.input then Null
    else match c.input["qualifies"]
      case Truth(b) => Boolean(b)
      case Text(s) => Textual(s)
  }

  // ----- row tests -----

  function DayOf(date: string): int {
    match ParseDate(date) case Some(d) => d case None => 0
  }

  predicate OnWeekend(date: string, weekend: seq<int>) {
    Weekday(DayOf(date)) in weekend
  }

  function RowCandidate(source: string, r: Record, p: Parameters): Option<Candidate> {
    match MaterialityFor(p, r.currency)
    case None => None
    case Some(threshold) =>
      var id := EntityID(source, [r.id]);
      var input := map["record_id" := Text(r.id), "amount" := Text(r.amount), "currency" := Text(r.currency),
                       "date" := Text(r.date), "materiality" := Text(threshold)];
      if r.entity == "journal_entry" then
        var weekend := OnWeekend(r.date, p.weekend);
        Some(Candidate("JE-01", r.entity, id,
                       input["weekend" := Truth(weekend)]["debit" := Text(r.debit)]["credit" := Text(r.credit)]
                            ["qualifies" := Truth(weekend && Amount(r.debit) + Amount(r.credit) >= Amount(threshold))]))
      else if r.entity == "approval" then
        Some(Candidate("AP-02", r.entity, id,
                       input["approval_limit" := Text(r.limit)]
                            ["qualifies" := Truth(Amount(r.amount) > Amount(r.limit)
                                                  && Amount(r.amount) >= Amount(threshold))]))
      else None
  }

  // ----- duplicate payments -----

  predicate Eligible(r: Record) {
    r.entity == "payment" && !r.reversal && !r.intercompany
  }

  /** Two different payments of the same vendor, currency and exact amount, at most thirty days apart. */
  predicate SamePayment(a: Record, b: Record) {
    && Eligible(a) && Eligible(b) && a.id != b.id
    && a.vendorId == b.vendorId && a.currency == b.currency && Amount(a.amount) == Amount(b.amount)
    && -30 <= DayOf(b.date) - DayOf(a.date) <= 30
  }

  datatype Pair = Pair(a: Record, b: Record)

  /** The pair with the smaller id first, as the query's `a.id < b.id` has it. */
  function Ordered(x: Record, y: Record): Pair {
    if Leq(x.id, y.id) then Pair(x, y) else Pair(y, x)
  }

  function PairsWith(records: seq<Record>, x: Record): seq<Pair> {
    if records == [] then []
    else
      var y := records[|records| - 1];
      PairsWith(records[..|records| - 1], x) + (if SamePayment(y, x) then [Ordered(y, x)] else [])
  }

  /** The self-join without its limit. */
  function AllPairs(records: seq<Record>): seq<Pair> {
    if records == [] then []
    else AllPairs(records[..|records| - 1]) + PairsWith(records[..|records| - 1], records[|records| - 1])
  }

  function PairCandidate(source: string, q: Pair, threshold: string): Candidate {
    Candidate("AP-01", "payment", EntityID(source, [q.a.id, q.b.id]),
              map["record_id" := Text(q.a.id), "paired_record_id" := Text(q.b.id),
                  "amount" := Text(Fixed4(Amount(q.a.amount))), "currency" := Text(q.a.currency),
                  "date" := Text(q.a.date), "paired_date" := Text(q.b.date), "materiality" := Text(threshold),
                  "qualifies" := Truth(Amount(q.a.amount) >= Amount(threshold))])
  }

  datatype Halt = Failed | TieOutFailed | CeilingExceeded

  /** The amount and the currency of the row can be priced. */
  predicate Priced(p: Parameters, q: Pair) {
    Money(Fixed4(Amount(q.a.amount))).Some? && MaterialityFor(p, q.a.currency).Some?
  }

  function Threshold(p: Parameters, currency: string): string {
    match MaterialityFor(p, currency) case Some(t) => t case None => ""
  }

  function Candidate1(source: string, p: Parameters, q: Pair): Candidate {
    PairCandidate(source, q, Threshold(p, q.a.currency))
  }

  /** Reading the query's rows in turn, with the ceiling as a sentinel. */
  function ReadPairs(source: string, rows: seq<Pair>, p: Parameters): Result<seq<Candidate>, Halt> {
    if rows == [] then Ok([])
    else
      match ReadPairs(source, rows[..|rows| - 1], p)
      case Err(h) => Err(h)
      case Ok(found) =>
        if !Priced(p, rows[|rows| - 1]) then Err(Failed)
        else if |found| + 1 > p.ceiling then Err(CeilingExceeded)
        else Ok(found + [Candidate1(source, p, rows[|rows| - 1])])
  }

  /** The rows the query returns: it stops one row after the ceiling. */
  function Limited(all: seq<Pair>, ceiling: int): seq<Pair> {
    if 0 <= ceiling && |all| > ceiling + 1 then all[..ceiling + 1] else all
  }

  method Duplicates(source: string, all: seq<Pair>, p: Parameters) returns (out: Result<seq<Candidate>, Halt>)
    ensures out == ReadPairs(source, Limited(all, p.ceiling), p)
  {
    hide Priced, Candidate1;
    var rows := Limited(all, p.ceiling);
    var found: seq<Candidate> := [];
    for i := 0 to |rows|
      invariant ReadPairs(source, rows[..i], p) == Ok(found)
    {
      assert rows[..i + 1][..i] == rows[..i];
      if !Priced(p, rows[i]) {
        ErrorsStick(source, rows, i + 1, p);
        return Err(Failed);
      }
      if |found| + 1 > p.ceiling {
        ErrorsStick(source, rows, i + 1, p);
        return Err(CeilingExceeded);
      }
      found := found + [Candidate1(source, p, rows[i])];
    }
    assert rows[..|rows|] == rows;
    out := Ok(found);
  }

  lemma {:induction false} ErrorsStick(source: string, rows: seq<Pair>, n: nat, p: Parameters)
    requires n <= |rows| && ReadPairs(source, rows[..n], p).Err?
    ensures ReadPairs(source, rows, p) == ReadPairs(source, rows[..n], p)
    decreases |rows|
  {
    if n == |rows| {
      assert rows[..n] == rows;
    } else {
      assert rows[..|rows| - 1][..n] == rows[..n];
      ErrorsStick(source, rows[..|rows| - 1], n, p);
    }
  }

  // ----- scoring -----

  /** A candidate that the released rule flagged. */
  datatype Row = Row(candidate: Candidate, decision: Decision)

  function CountOf(rows: seq<Row>, rule: string): nat {
    if rows == [] then 0
    else CountOf(rows[..|rows| - 1], rule) + if rows[|rows| - 1].candidate.rule == rule then 1 else 0
  }

  function Decide(models: map<string, Model>, c: Candidate): Option<Decision> {
    if c.rule in models then Evaluate(models[c.rule], Qualifies(c)) else None
  }

  function Score(models: map<string, Model>, candidates: seq<Candidate>, ceiling: int): Result<seq<Row>, Halt> {
    if candidates == [] then Ok([])
    else
      match Score(models, candidates[..|candidates| - 1], ceiling)
      case Err(h) => Err(h)
      case Ok(rows) =>
        var c := candidates[|candidates| - 1];
        match Decide(models, c)
        case None => Err(Failed)
        case Some(d) =>
          if !d.flag then Ok(rows)
          else if CountOf(rows, c.rule) + 1 > ceiling then Err(CeilingExceeded)
          else Ok(rows + [Row(c, d)])
  }

  lemma {:induction false} ScoreErrorsStick(models: map<string, Model>, candidates: seq<Candidate>, n: nat,
      ceiling: int)
    requires n <= |candidates| && Score(models, candidates[..n], ceiling).Err?
    ensures Score(models, candidates, ceiling) == Score(models, candidates[..n], ceiling)
    decreases |candidates|
  {
    if n == |candidates| {
      assert candidates[..n] == candidates;
    } else {
      assert candidates[..|candidates| - 1][..n] == candidates[..n];
      ScoreErrorsStick(models, candidates[..|candidates| - 1], n, ceiling);
    }
  }

  /** The scoring loop, with one counter per rule. */
  method ScoreAll(models: map<string, Model>, candidates: seq<Candidate>, ceiling: int)
      returns (out: Result<seq<Row>, Halt>)
    ensures out == Score(models, candidates, ceiling)
  {
    hide Decide;
    var rows: seq<Row> := [];
    var counts: map<string, int> := map[];
    for i := 0 to |candidates|
      invariant Score(models, candidates[..i], ceiling) == Ok(rows)
      invariant forall rule :: (if rule in counts then counts[rule] else 0) == CountOf(rows, rule)
    {
      var c := candidates[i];
      assert candidates[..i + 1][..i] == candidates[..i];
      var d := Decide(models, c);
      if d.None? {
        ScoreErrorsStick(models, candidates, i + 1, ceiling);
        return Err(Failed);
      }
      if d.value.flag {
        counts := counts[c.rule := (if c.rule in counts then counts[c.rule] else 0) + 1];
        if counts[c.rule] > ceiling {
          ScoreErrorsStick(models, candidates, i + 1, ceiling);
          return Err(CeilingExceeded);
        }
        ghost var before := rows;
        rows := rows + [Row(c, d.value)];
        assert rows[..|rows| - 1] == before;
      }
    }
    assert candidates[..|candidates|] == candidates;
    out := Ok(rows);
  }

  // ----- a whole run's analysis, up to reconciliation -----

  const RULES := map["AP-01" := "payment", "AP-02" := "approval", "JE-01" := "journal_entry"]

  /** The enabled rules whose entity the controls cover, with the versions the manifest froze. */
  function Scope(controls: seq<Control>, manifest: map<string, Digest>): map<string, Digest> {
    map rule | rule in manifest && rule in RULES
      && (exists i :: 0 <= i < |controls| && controls[i].entity == RULES[rule])
      :: manifest[rule]
  }

  function RowCandidates(source: string, records: seq<Record>, p: Parameters, rules: set<string>): seq<Candidate> {
    if records == [] then []
    else
      var c := RowCandidate(source, records[|records| - 1], p);
      RowCandidates(source, records[..|records| - 1], p, rules)
      + (if c.Some? && c.value.rule in rules then [c.value] else [])
  }

  function Generate(p: Population, params: Parameters, rules: set<string>): Result<seq<Candidate>, Halt> {
    var rows := RowCandidates(p.source, p.records, params, rules);
    if "AP-01" !in rules then Ok(rows)
    else
      match ReadPairs(p.source, Limited(AllPairs(p.records), params.ceiling), params)
      case Err(h) => Err(h)
      case Ok(pairs) => Ok(pairs + rows)
  }
}
