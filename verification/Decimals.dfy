/**
 Exact money (internal/domain/domain.go).  A decimal with at most four fractional
 digits is an integer number of ten-thousandths.
 */
module Decimals {
  import opened Common

  const SCALE := 10000

  predicate Digit(c: char) {
    '0' <= c <= '9'
  }

  predicate Digits(s: string) {
    s != "" && forall i :: 0 <= i < |s| ==> Digit(s[i])
  }

  function DigitValue(c: char): nat
    requires Digit(c)
  {
    c as int - '0' as int
  }

  function DigitChar(d: nat): (c: char)
    requires d < 10
    ensures Digit(c) && DigitValue(c) == d
  {
    (d + '0' as int) as char
  }

  function NatValue(s: string): nat
    requires forall i :: 0 <= i < |s| ==> Digit(s[i])
  {
    if s == "" then 0 else NatValue(s[..|s| - 1]) * 10 + DigitValue(s[|s| - 1])
  }

  /** Where the decimal point stands, or the end of the text. */
  function PointAt(s: string): (n: nat)
    ensures n <= |s| && (n < |s| ==> s[n] == '.') && forall i :: 0 <= i < n ==> s[i] != '.'
  {
    if s == "" || s[0] == '.' then 0 else 1 + PointAt(s[1..])
  }

  function Scaled(frac: string): nat
    requires Digits(frac) && |frac| <= 4
  {
    NatValue(frac) * (if |frac| == 1 then 1000 else if |frac| == 2 then 100 else if |frac| == 3 then 10 else 1)
  }

  function ParseUnsigned(s: string): Option<nat> {
    var n := PointAt(s);
    if !Digits(s[..n]) then None
    else if n == |s| then Some(NatValue(s) * SCALE)
    else if Digits(s[n + 1..]) && |s| - n - 1 <= 4 then Some(NatValue(s[..n]) * SCALE + Scaled(s[n + 1..]))
    else None
  }

  function Unsigned(s: string): string {
    if s != "" && s[0] == '-' then s[1..] else s
  }

  /** `decimal.NewFromString` on plain decimals with at most four fractional digits. */
  function Parse(s: string): Option<int> {
    match ParseUnsigned(Unsigned(s))
    case None => None
    case Some(n) => Some(if s[0] == '-' then -(n as int) else n)
  }

  /** `Money`: at most sixteen integer digits, at most four fractional ones, no exponent. */
  function Money(s: string): Option<int> {
    if PointAt(Unsigned(s)) <= 16 then Parse(s) else None
  }

  function NatDigits(n: nat): (s: string)
    ensures Digits(s)
  {
    if n < 10 then [DigitChar(n)] else NatDigits(n / 10) + [DigitChar(n % 10)]
  }

  function FourDigits(r: nat): (s: string)
    requires r < SCALE
    ensures Digits(s) && |s| == 4
  {
    var tens, hundreds, thousands := r / 10, r / 10 / 10, r / 10 / 10 / 10;
    [DigitChar(thousands)] + [DigitChar(hundreds % 10)] + [DigitChar(tens % 10)] + [DigitChar(r % 10)]
  }

  function Plain(m: nat): string {
    NatDigits(m / SCALE) + ['.'] + FourDigits(m % SCALE)
  }

  /** `StringFixed(4)`. */
  function Fixed4(n: int): string {
    if n < 0 then ['-'] + Plain(-n) else Plain(n)
  }

  lemma {:induction false} NatDigitsValue(n: nat)
    ensures NatValue(NatDigits(n)) == n
  {
    if n >= 10 {
      NatDigitsValue(n / 10);
      var s := NatDigits(n);
      assert s[..|s| - 1] == NatDigits(n / 10);
    } else {
      assert NatDigits(n)[..0] == "";
    }
  }

  lemma {:induction false} NatValueAppend(s: string, c: char)
    requires (forall i :: 0 <= i < |s| ==> Digit(s[i])) && Digit(c)
    ensures NatValue(s + [c]) == NatValue(s) * 10 + DigitValue(c)
  {
    assert (s + [c])[..|s|] == s;
  }

  lemma {:induction false} FourDigitsValue(r: nat)
    requires r < SCALE
    ensures NatValue(FourDigits(r)) == r
  {
    var tens, hundreds, thousands := r / 10, r / 10 / 10, r / 10 / 10 / 10;
    var a, b, c, d := DigitChar(thousands), DigitChar(hundreds % 10), DigitChar(tens % 10), DigitChar(r % 10);
    NatValueAppend("", a);
    assert "" + [a] == [a];
    NatValueAppend([a], b);
    NatValueAppend([a] + [b], c);
    NatValueAppend([a] + [b] + [c], d);
  }

  lemma {:induction false} ParsePlain(m: nat)
    ensures Plain(m) != "" && Digit(Plain(m)[0]) && ParseUnsigned(Plain(m)) == Some(m)
  {
    var whole, frac := NatDigits(m / SCALE), FourDigits(m % SCALE);
    var u := Plain(m);
    assert u[|whole|] == '.';
    assert forall i :: 0 <= i < |whole| ==> u[i] == whole[i];
    assert PointAt(u) == |whole|;
    assert u[..|whole|] == whole && u[|whole| + 1..] == frac;
    NatDigitsValue(m / SCALE);
    FourDigitsValue(m % SCALE);
  }

  /** Printing to four places and parsing again loses nothing. */
  lemma {:induction false} ParseFixed4(n: int)
    ensures Parse(Fixed4(n)) == Some(n)
  {
    hide ParseUnsigned, Plain;
    if n < 0 {
      ParsePlain(-n);
      assert Unsigned(Fixed4(n)) == Plain(-n);
    } else {
      ParsePlain(n);
      assert Unsigned(Fixed4(n)) == Plain(n);
    }
  }
}
