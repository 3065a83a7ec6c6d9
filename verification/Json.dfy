/** JSON values as `JSON.stringify` prints them.  A number is the text that is printed for it. */
module Json {
  datatype Json =
    | Null
    | Bool(b: bool)
    | Num(digits: string)
    | Str(s: string)
    | Arr(items: seq<Json>)
    | Obj(members: seq<Member>)

  datatype Member = Member(key: string, value: Json)

  predicate NumChar(c: char) {
    '0' <= c <= '9' || c in {'-', '+', '.', 'e', 'E'}
  }

  predicate NumText(s: string) {
    s != "" && ('0' <= s[0] <= '9' || s[0] == '-') && forall i :: 0 <= i < |s| ==> NumChar(s[i])
  }

  /** Every number in the value has the text of a number. */
  predicate Wf(j: Json) {
    match j
    case Num(t) => NumText(t)
    case Arr(items) => forall i :: 0 <= i < |items| ==> Wf(items[i])
    case Obj(members) => forall i :: 0 <= i < |members| ==> Wf(members[i].value)
    case _ => true
  }

  // ----- printing -----

  function HexDigit(d: nat): char
    requires d < 16
  {
    if d < 10 then (d + '0' as int) as char else (d - 10 + 'a' as int) as char
  }

  function EscapeChar(c: char): string {
    if c == '"' then "\\\""
    else if c == '\\' then "\\\\"
    else if c == '\n' then "\\n"
    else if c == '\r' then "\\r"
    else if c == '\t' then "\\t"
    else if c as int == 8 then "\\b"
    else if c as int == 12 then "\\f"
    else if c < ' ' then "\\u00" + [HexDigit(c as int / 16), HexDigit(c as int % 16)]
    else [c]
  }

  function Body(s: string): string {
    if s == "" then "" else EscapeChar(s[0]) + Body(s[1..])
  }

  function Quote(s: string): string {
    ['"'] + Body(s) + ['"']
  }

  function Print(j: Json): string
    decreases j, 1
  {
    match j
    case Null => "null"
    case Bool(b) => if b then "true" else "false"
    case Num(t) => t
    case Str(s) => Quote(s)
    case Arr(items) => ['['] + PrintItems(j, 0) + [']']
    case Obj(members) => ['{'] + PrintMembers(j, 0) + ['}']
  }

  function Comma(n: nat): string {
    if n == 0 then "" else ","
  }

  function PrintItems(j: Json, n: nat): string
    requires j.Arr? && n <= |j.items|
    decreases j, 0, |j.items| - n
  {
    if n == |j.items| then "" else Comma(n) + Print(j.items[n]) + PrintItems(j, n + 1)
  }

  function PrintMembers(j: Json, n: nat): string
    requires j.Obj? && n <= |j.members|
    decreases j, 0, |j.members| - n
  {
    if n == |j.members| then ""
    else Comma(n) + Quote(j.members[n].key) + ":" + Print(j.members[n].value) + PrintMembers(j, n + 1)
  }

  // ----- printing is injective -----

  lemma {:induction false} EscapePrefix(c: char, d: char, x: string, y: string)
    requires EscapeChar(c) + x == EscapeChar(d) + y
    ensures c == d && x == y
  {
    var s, t := EscapeChar(c), EscapeChar(d);
    var all := s + x;
    assert all[0] == s[0] == t[0];
    if s[0] == '\\' {
      assert all[1] == s[1] == t[1];
      if s[1] == 'u' {
        assert all[4] == s[4] == t[4] && all[5] == s[5] == t[5];
      }
    }
    assert |s| == |t|;
    assert x == all[|s|..] && y == all[|t|..];
  }

  lemma {:induction false} EscapeNoQuote(c: char)
    ensures EscapeChar(c) != "" && EscapeChar(c)[0] != '"'
  {
  }

  lemma {:induction false} BodyEnds(s: string, x: string)
    ensures (Body(s) + ['"'] + x)[0] == '"' <==> s == ""
  {
    if s != "" {
      EscapeNoQuote(s[0]);
    }
  }

  lemma {:induction false} BodyPrefix(s: string, t: string, x: string, y: string)
    requires Body(s) + ['"'] + x == Body(t) + ['"'] + y
    ensures s == t && x == y
  {
    hide EscapeChar;
    BodyEnds(s, x);
    BodyEnds(t, y);
    var all := Body(s) + ['"'] + x;
    if s == "" {
      assert x == all[1..] && y == all[1..];
    } else {
      var u, v := Body(s[1..]) + ['"'] + x, Body(t[1..]) + ['"'] + y;
      assert Body(s) == EscapeChar(s[0]) + Body(s[1..]) && Body(t) == EscapeChar(t[0]) + Body(t[1..]);
      assert all == EscapeChar(s[0]) + u && all == EscapeChar(t[0]) + v;
      EscapePrefix(s[0], t[0], u, v);
      BodyPrefix(s[1..], t[1..], x, y);
      assert s == [s[0]] + s[1..] && t == [t[0]] + t[1..];
    }
  }

  lemma {:induction false} QuotePrefix(s: string, t: string, x: string, y: string)
    requires Quote(s) + x == Quote(t) + y
    ensures s == t && x == y
  {
    hide Body;
    assert (Quote(s) + x)[1..] == Body(s) + ['"'] + x;
    assert (Quote(t) + y)[1..] == Body(t) + ['"'] + y;
    BodyPrefix(s, t, x, y);
  }

  /** What may follow a value. */
  predicate Delimited(s: string) {
    s == "" || s[0] in {',', ']', '}'}
  }

  lemma {:induction false} NumPrefix(t: string, u: string, x: string, y: string)
    requires NumText(t) && NumText(u) && Delimited(x) && Delimited(y) && t + x == u + y
    ensures t == u && x == y
  {
    var all := t + x;
    assert forall i :: 0 <= i < |t| ==> all[i] == t[i] && NumChar(all[i]);
    assert forall i :: 0 <= i < |u| ==> all[i] == u[i] && NumChar(all[i]);
    assert x != "" ==> all[|t|] == x[0] && !NumChar(all[|t|]);
    assert y != "" ==> all[|u|] == y[0] && !NumChar(all[|u|]);
    assert |t| == |u|;
    assert t == all[..|t|] && u == all[..|u|] && x == all[|t|..] && y == all[|u|..];
  }

  /** The kind of value that a first character announces. */
  function Announces(c: char): nat {
    if c == 'n' then 0 else if c == 't' then 1 else if c == 'f' then 2 else if c == '"' then 3
    else if c == '[' then 4 else if c == '{' then 5 else if '0' <= c <= '9' || c == '-' then 6 else 7
  }

  function KindOf(j: Json): nat {
    match j
    case Null => 0
    case Bool(b) => if b then 1 else 2
    case Str(_) => 3
    case Arr(_) => 4
    case Obj(_) => 5
    case Num(_) => 6
  }

  lemma {:induction false} PrintStarts(j: Json)
    requires Wf(j)
    ensures Print(j) != "" && Announces(Print(j)[0]) == KindOf(j)
  {
    hide PrintItems, PrintMembers, Body;
  }

  /** A value's text determines the value and where the text ends. */
  lemma {:induction false} PrintPrefix(a: Json, b: Json, x: string, y: string)
    requires Wf(a) && Wf(b) && Delimited(x) && Delimited(y) && Print(a) + x == Print(b) + y
    ensures a == b && x == y
    decreases a, 1
  {
    hide PrintItems, PrintMembers, Body, Quote;
    PrintStarts(a);
    PrintStarts(b);
    assert (Print(a) + x)[0] == Print(a)[0] == Print(b)[0];
    match a {
      case Null => assert x == (Print(a) + x)[4..] && y == (Print(b) + y)[4..];
      case Bool(p) =>
        var n := if p then 4 else 5;
        assert x == (Print(a) + x)[n..] && y == (Print(b) + y)[n..];
      case Num(t) => NumPrefix(t, b.digits, x, y);
      case Str(s) => QuotePrefix(s, b.s, x, y);
      case Arr(items) =>
        assert (Print(a) + x)[1..] == PrintItems(a, 0) + [']'] + x;
        assert (Print(b) + y)[1..] == PrintItems(b, 0) + [']'] + y;
        ItemsPrefix(a, b, 0, x, y);
      case Obj(members) =>
        assert (Print(a) + x)[1..] == PrintMembers(a, 0) + ['}'] + x;
        assert (Print(b) + y)[1..] == PrintMembers(b, 0) + ['}'] + y;
        MembersPrefix(a, b, 0, x, y);
    }
  }

  lemma {:induction false} ItemsStart(a: Json, n: nat, x: string)
    requires a.Arr? && Wf(a) && n <= |a.items|
    ensures var s := PrintItems(a, n) + [']'] + x;
      && (n == |a.items| <==> s[0] == ']')
      && (n < |a.items| ==> s == Comma(n) + Print(a.items[n]) + (PrintItems(a, n + 1) + [']'] + x)
                            && Delimited(PrintItems(a, n + 1) + [']'] + x))
  {
    hide Print;
    if n < |a.items| {
      PrintStarts(a.items[n]);
      if n + 1 < |a.items| {
        assert PrintItems(a, n + 1)[0] == ',';
      }
    }
  }

  lemma {:induction false} ItemsPrefix(a: Json, b: Json, n: nat, x: string, y: string)
    requires a.Arr? && b.Arr? && Wf(a) && Wf(b) && n <= |a.items| && n <= |b.items|
    requires PrintItems(a, n) + [']'] + x == PrintItems(b, n) + [']'] + y
    ensures a.items[n..] == b.items[n..] && x == y
    decreases a, 0, |a.items| - n
  {
    hide Print, PrintItems;
    ItemsStart(a, n, x);
    ItemsStart(b, n, y);
    var all := PrintItems(a, n) + [']'] + x;
    if n == |a.items| {
      NoItems(a, b, n);
      assert x == all[1..] && y == all[1..];
    } else {
      var u, v := PrintItems(a, n + 1) + [']'] + x, PrintItems(b, n + 1) + [']'] + y;
      var k := |Comma(n)|;
      assert all[k..] == Print(a.items[n]) + u && all[k..] == Print(b.items[n]) + v;
      PrintPrefix(a.items[n], b.items[n], u, v);
      ItemsPrefix(a, b, n + 1, x, y);
      assert a.items[n..] == [a.items[n]] + a.items[n + 1..] && b.items[n..] == [b.items[n]] + b.items[n + 1..];
    }
  }

  lemma {:induction false} NoItems(a: Json, b: Json, n: nat)
    requires a.Arr? && b.Arr? && n == |a.items| == |b.items|
    ensures PrintItems(a, n) == PrintItems(b, n) == "" && a.items[n..] == b.items[n..] == []
  {
  }

  lemma {:induction false} MembersNext(a: Json, n: nat)
    requires a.Obj? && n < |a.members|
    ensures PrintMembers(a, n) ==
      Comma(n) + Quote(a.members[n].key) + ":" + Print(a.members[n].value) + PrintMembers(a, n + 1)
  {
  }

  lemma {:induction false} MembersEnd(a: Json, n: nat)
    requires a.Obj? && n <= |a.members|
    ensures n == |a.members| ==> PrintMembers(a, n) == ""
    ensures n < |a.members| ==> PrintMembers(a, n) != "" && PrintMembers(a, n)[0] == if n == 0 then '"' else ','
  {
    hide Print, Body;
  }

  lemma {:induction false} Regrouped(c: string, q: string, p: string, m: string, x: string)
    ensures (c + q + ":" + p + m) + ['}'] + x == c + (q + (":" + (p + (m + ['}'] + x))))
  {
    assert c + q + ":" + p + m == c + (q + (":" + (p + m)));
  }

  lemma {:induction false} MembersStart(a: Json, n: nat, x: string)
    requires a.Obj? && Wf(a) && n <= |a.members|
    ensures var s := PrintMembers(a, n) + ['}'] + x;
      && (n == |a.members| <==> s[0] == '}')
      && (n < |a.members| ==>
            var more := PrintMembers(a, n + 1) + ['}'] + x;
            s == Comma(n) + (Quote(a.members[n].key) + (":" + (Print(a.members[n].value) + more))) && Delimited(more))
  {
    hide Print, PrintMembers, Quote, Comma;
    MembersEnd(a, n);
    if n < |a.members| {
      MembersNext(a, n);
      MembersEnd(a, n + 1);
      Regrouped(Comma(n), Quote(a.members[n].key), Print(a.members[n].value), PrintMembers(a, n + 1), x);
    }
  }

  lemma {:induction false} MembersPrefix(a: Json, b: Json, n: nat, x: string, y: string)
    requires a.Obj? && b.Obj? && Wf(a) && Wf(b) && n <= |a.members| && n <= |b.members|
    requires PrintMembers(a, n) + ['}'] + x == PrintMembers(b, n) + ['}'] + y
    ensures a.members[n..] == b.members[n..] && x == y
    decreases a, 0, |a.members| - n
  {
    hide Print, PrintMembers, Quote;
    MembersStart(a, n, x);
    MembersStart(b, n, y);
    var all := PrintMembers(a, n) + ['}'] + x;
    if n == |a.members| {
      NoMembers(a, b, n);
      assert x == all[1..] && y == all[1..];
    } else {
      var m, o := a.members[n], b.members[n];
      var u, v := PrintMembers(a, n + 1) + ['}'] + x, PrintMembers(b, n + 1) + ['}'] + y;
      var p, q := ":" + (Print(m.value) + u), ":" + (Print(o.value) + v);
      var k := |Comma(n)|;
      assert all[k..] == Quote(m.key) + p && all[k..] == Quote(o.key) + q;
      QuotePrefix(m.key, o.key, p, q);
      assert p[1..] == Print(m.value) + u && q[1..] == Print(o.value) + v;
      PrintPrefix(m.value, o.value, u, v);
      MembersPrefix(a, b, n + 1, x, y);
      assert a.members[n..] == [m] + a.members[n + 1..] && b.members[n..] == [o] + b.members[n + 1..];
    }
  }

  lemma {:induction false} NoMembers(a: Json, b: Json, n: nat)
    requires a.Obj? && b.Obj? && n == |a.members| == |b.members|
    ensures PrintMembers(a, n) == PrintMembers(b, n) == "" && a.members[n..] == b.members[n..] == []
  {
  }

  /** Two values print alike exactly when they are equal. */
  lemma {:induction false} PrintInjective(a: Json, b: Json)
    requires Wf(a) && Wf(b)
    ensures Print(a) == Print(b) <==> a == b
  {
    if Print(a) == Print(b) {
      assert Print(a) + "" == Print(a) && Print(b) + "" == Print(b);
      PrintPrefix(a, b, "", "");
    }
  }
}
