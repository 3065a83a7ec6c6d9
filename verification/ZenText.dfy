/**
 The pieces of the rule language that the simple builder writes: concatenations
 of literals, references to columns, and unary tests.  A literal has either
 kind of quote as its delimiter and no escapes.
 */
module ZenText {
  import opened Common
  import opened Strings
  import opened Decimals

  const QUOTE := '"'

  // ----- strings as concatenations of literals -----

  function Split(s: string): (parts: seq<string>)
    ensures parts != []
  {
    if s == "" then [""]
    else if s[0] == QUOTE then [""] + Split(s[1..])
    else
      var rest := Split(s[1..]);
      [[s[0]] + rest[0]] + rest[1..]
  }

  function Quoted(part: string): string {
    [QUOTE] + part + [QUOTE]
  }

  const GLUE := " + '\"' + "

  function Glued(parts: seq<string>): string {
    if parts == [] then ""
    else if |parts| == 1 then Quoted(parts[0])
    else Quoted(parts[0]) + GLUE + Glued(parts[1..])
  }

  function ZenString(value: string): string {
    Glued(Split(value))
  }

  /** The content of a literal with delimiter `q`, and the text behind it. */
  function ReadUntil(s: string, q: char): (r: Option<(string, string)>)
    ensures r.Some? ==> |r.value.1| < |s|
  {
    if s == "" then None
    else if s[0] == q then Some(("", s[1..]))
    else
      match ReadUntil(s[1..], q)
      case None => None
      case Some(f) => Some(([s[0]] + f.0, f.1))
  }

  function ReadLiteral(s: string): (r: Option<(string, string)>)
    ensures r.Some? ==> |r.value.1| < |s|
  {
    if s != "" && (s[0] == QUOTE || s[0] == '\'') then ReadUntil(s[1..], s[0]) else None
  }

  const PLUS := " + "

  /** A concatenation of literals: its value, and the text behind it. */
  function ReadConcat(s: string): Option<(string, string)>
    decreases |s|
  {
    match ReadLiteral(s)
    case None => None
    case Some(first) =>
      if !(PLUS <= first.1) then Some(first)
      else
        match ReadConcat(first.1[|PLUS|..])
        case None => None
        case Some(more) => Some((first.0 + more.0, more.1))
  }

  lemma {:induction false} ReadUntilQuote(part: string, q: char, rest: string)
    requires Free(part, q)
    ensures ReadUntil(part + [q] + rest, q) == Some((part, rest))
  {
    var all := part + [q] + rest;
    if part == "" {
      assert all == [q] + rest;
    } else {
      ReadUntilQuote(part[1..], q, rest);
      assert all[1..] == part[1..] + [q] + rest;
      assert [part[0]] + part[1..] == part;
    }
  }

  lemma {:induction false} ReadQuoted(part: string, rest: string)
    requires Free(part, QUOTE)
    ensures ReadLiteral(Quoted(part) + rest) == Some((part, rest))
  {
    ReadUntilQuote(part, QUOTE, rest);
    assert (Quoted(part) + rest)[1..] == part + [QUOTE] + rest;
  }

  lemma {:induction false} ReadGlue(rest: string)
    ensures PLUS <= GLUE + rest && ReadLiteral((GLUE + rest)[3..]) == Some(([QUOTE], PLUS + rest))
  {
    var tail := (GLUE + rest)[3..];
    assert GLUE == PLUS + ['\'', QUOTE, '\''] + PLUS;
    assert tail == ['\'', QUOTE, '\''] + PLUS + rest;
    assert tail[1..] == [QUOTE] + ['\''] + (PLUS + rest);
    ReadUntilQuote([QUOTE], '\'', PLUS + rest);
  }

  lemma {:induction false} PlusTail(rest: string)
    ensures PLUS <= PLUS + rest && (PLUS + rest)[3..] == rest && |PLUS| == 3
  {
  }

  lemma {:induction false} ReadGlued(parts: seq<string>, rest: string)
    requires parts != [] && AllFree(parts, QUOTE) && !(PLUS <= rest)
    ensures ReadConcat(Glued(parts) + rest) == Some((Join(parts, QUOTE), rest))
    decreases |parts|
  {
    hide ReadLiteral, Quoted;
    PlusTail(rest);
    if |parts| == 1 {
      ReadQuoted(parts[0], rest);
    } else {
      var more := Glued(parts[1..]) + rest;
      ReadQuoted(parts[0], GLUE + more);
      assert Glued(parts) + rest == Quoted(parts[0]) + (GLUE + more);
      ReadGlue(more);
      PlusTail(more);
      ReadGlued(parts[1..], rest);
      assert ReadConcat((GLUE + more)[3..]) == Some(([QUOTE] + Join(parts[1..], QUOTE), rest));
      assert parts[0] + ([QUOTE] + Join(parts[1..], QUOTE)) == Join(parts, QUOTE);
    }
  }

  lemma {:induction false} JoinFront(c: char, rest: seq<string>)
    requires rest != [] && AllFree(rest, QUOTE) && c != QUOTE
    ensures var parts := [[c] + rest[0]] + rest[1..];
      AllFree(parts, QUOTE) && Join(parts, QUOTE) == [c] + Join(rest, QUOTE)
  {
    var parts := [[c] + rest[0]] + rest[1..];
    assert parts[1..] == rest[1..];
    if |rest| > 1 {
      assert parts[0] + [QUOTE] + Join(rest[1..], QUOTE) == [c] + (rest[0] + [QUOTE] + Join(rest[1..], QUOTE));
    }
  }

  lemma {:induction false} JoinBehind(rest: seq<string>)
    requires rest != [] && AllFree(rest, QUOTE)
    ensures AllFree([""] + rest, QUOTE) && Join([""] + rest, QUOTE) == [QUOTE] + Join(rest, QUOTE)
  {
    assert ([""] + rest)[1..] == rest;
  }

  lemma {:induction false} SplitJoins(s: string)
    ensures AllFree(Split(s), QUOTE) && Join(Split(s), QUOTE) == s
  {
    hide Join;
    if s == "" {
      assert Join([""], QUOTE) == "" by { JoinOne(""); }
    } else {
      SplitJoins(s[1..]);
      assert [s[0]] + s[1..] == s;
      if s[0] == QUOTE {
        JoinBehind(Split(s[1..]));
      } else {
        JoinFront(s[0], Split(s[1..]));
      }
    }
  }

  lemma {:induction false} JoinOne(s: string)
    ensures Join([s], QUOTE) == s
  {
  }

  /** Decoding the concatenation of literals gives back the string, for every string. */
  lemma {:induction false} ZenStringDecodes(value: string, rest: string)
    requires !(PLUS <= rest)
    ensures ReadConcat(ZenString(value) + rest) == Some((value, rest))
  {
    hide ReadConcat, Glued, Split, Join;
    SplitJoins(value);
    ReadGlued(Split(value), rest);
  }

  // ----- column references -----

  const OPEN := "data[("
  const CLOSE := ")]"

  function FieldText(column: string): string {
    OPEN + ZenString(column) + CLOSE
  }

  /** The column that a field expression refers to. */
  function FieldColumn(field: string): Option<string> {
    if !(OPEN <= field) then None
    else
      match ReadConcat(field[|OPEN|..])
      case None => None
      case Some(r) => if r.1 == CLOSE then Some(r.0) else None
  }

  lemma {:induction false} FieldReads(column: string)
    ensures FieldColumn(FieldText(column)) == Some(column)
  {
    hide ReadConcat, ZenString;
    ZenStringDecodes(column, CLOSE);
    assert FieldText(column)[|OPEN|..] == ZenString(column) + CLOSE;
  }

  // ----- unary tests -----

  datatype Operator = Eq | Neq | Gt | Gte | Lt | Lte

  datatype Operand = Literal(text: string) | Number(digits: string) | Truth(truth: bool)

  datatype Test = Any | Empty | NotEmpty | Compare(op: Operator, operand: Operand)

  const EMPTY := "null, \"\""
  const NOT_EMPTY := "$ != null and $ != \"\""

  function Prefix(op: Operator): string {
    match op
    case Eq => ""
    case Neq => "!= "
    case Gt => "> "
    case Gte => ">= "
    case Lt => "< "
    case Lte => "<= "
  }

  function DigitRun(s: string): (n: nat)
    ensures n <= |s| && forall i :: 0 <= i < n ==> Digit(s[i])
  {
    if s != "" && Digit(s[0]) then 1 + DigitRun(s[1..]) else 0
  }

  /** Nothing, or an exponent. */
  predicate ExponentText(s: string) {
    s == "" || ((s[0] == 'e' || s[0] == 'E') &&
      (if |s| > 1 && (s[1] == '+' || s[1] == '-') then Digits(s[2..]) else Digits(s[1..])))
  }

  /** The numbers that the condition form admits. */
  predicate NumberText(s: string) {
    var u := Unsigned(s);
    var n := DigitRun(u);
    if n < |u| && u[n] == '.' then
      var m := DigitRun(u[n + 1..]);
      n + m > 0 && ExponentText(u[n + 1 + m..])
    else n > 0 && ExponentText(u[n..])
  }

  function ReadText(s: string): Option<Operand> {
    match ReadConcat(s)
    case Some(r) => if r.1 == "" then Some(Literal(r.0)) else None
    case None => None
  }

  function ParseOperand(s: string): Option<Operand> {
    if s == "true" then Some(Truth(true))
    else if s == "false" then Some(Truth(false))
    else if NumberText(s) then Some(Number(s))
    else if "(" <= s && ReadConcat(s[1..]).Some? && ReadConcat(s[1..]).value.1 == ")"
    then Some(Literal(ReadConcat(s[1..]).value.0))
    else ReadText(s)
  }

  function OperatorOf(s: string): Operator {
    if Prefix(Neq) <= s then Neq
    else if Prefix(Gte) <= s then Gte
    else if Prefix(Lte) <= s then Lte
    else if Prefix(Gt) <= s then Gt
    else if Prefix(Lt) <= s then Lt
    else Eq
  }

  lemma {:induction false} OperatorFits(s: string)
    ensures Prefix(OperatorOf(s)) <= s
  {
  }

  /** What a cell of a decision table tests; `None` when it is not a test. */
  function ParseTest(cell: string): Option<Test> {
    if cell == "" then Some(Any)
    else if cell == EMPTY then Some(Empty)
    else if cell == NOT_EMPTY then Some(NotEmpty)
    else
      OperatorFits(cell);
      match ParseOperand(cell[|Prefix(OperatorOf(cell))|..])
      case None => None
      case Some(operand) => Some(Compare(OperatorOf(cell), operand))
  }

  /** The text of an operand starts with none of the characters of an operator or of the two fixed tests. */
  predicate OperandStart(s: string) {
    s != "" && s[0] !in {'!', '>', '<', '$', 'n', ' ', '='}
  }

  lemma {:induction false} TestReads(op: Operator, s: string)
    requires OperandStart(s)
    ensures ParseTest(Prefix(op) + s) ==
      match ParseOperand(s) case None => None case Some(operand) => Some(Compare(op, operand))
  {
    hide ParseOperand;
    var cell := Prefix(op) + s;
    assert cell[|Prefix(op)|..] == s;
    assert cell != "" && cell[0] == (if op == Eq then s[0] else Prefix(op)[0]);
    assert EMPTY[0] == 'n' && NOT_EMPTY[0] == '$';
    OperatorReads(op, s);
  }

  lemma {:induction false} OperatorReads(op: Operator, s: string)
    requires OperandStart(s)
    ensures OperatorOf(Prefix(op) + s) == op
  {
    var cell := Prefix(op) + s;
    if op == Eq {
      assert cell == s;
      assert Prefix(Neq)[0] == '!' && Prefix(Gt)[0] == '>' && Prefix(Gte)[0] == '>' && Prefix(Lt)[0] == '<'
        && Prefix(Lte)[0] == '<';
    } else {
      assert cell[0] == Prefix(op)[0] && cell[1] == Prefix(op)[1];
      assert Prefix(Neq)[0] == '!' && Prefix(Gt) == ['>', ' '] && Prefix(Gte) == ['>', '=', ' ']
        && Prefix(Lt) == ['<', ' '] && Prefix(Lte) == ['<', '=', ' '];
      if op == Gte || op == Lte || op == Neq {
        assert cell[2] == Prefix(op)[2];
        assert Prefix(op) <= cell;
      }
    }
  }

  lemma {:induction false} NumberStarts(s: string)
    requires NumberText(s)
    ensures OperandStart(s) && ParseOperand(s) == Some(Number(s))
  {
    assert s != "";
    var u := Unsigned(s);
    if s[0] != '-' {
      assert u == s;
    }
    assert "true"[0] == 't' && "false"[0] == 'f';
  }

  lemma {:induction false} LiteralReads(value: string)
    ensures var s := "(" + ZenString(value) + ")";
      OperandStart(s) && ParseOperand(s) == Some(Literal(value))
  {
    hide ReadConcat, ZenString;
    var s := "(" + ZenString(value) + ")";
    ZenStringDecodes(value, ")");
    assert s[1..] == ZenString(value) + ")";
    assert s[0] == '(';
    assert "true"[0] == 't' && "false"[0] == 'f';
    ParenIsNoNumber(s);
  }

  lemma {:induction false} ParenIsNoNumber(s: string)
    requires s != "" && s[0] == '('
    ensures !NumberText(s)
  {
  }
}
