/** What the text of an amount is worth, digit by digit. */
module DecimalLaws {
  import opened Common
  import opened Decimals

  // ----- money printed by the database -----

  function Pow10(n: nat): nat {
    if n == 0 then 1 else 10 * Pow10(n - 1)
  }

  lemma {:induction false} NatValueBound(s: string)
    requires forall i :: 0 <= i < |s| ==> Digit(s[i])
    ensures NatValue(s) < Pow10(|s|)
  {
    if s != "" {
      NatValueBound(s[..|s| - 1]);
    }
  }

  lemma {:induction false} NatDigitsLength(n: nat, k: nat)
    requires n < Pow10(k) && k >= 1
    ensures |NatDigits(n)| <= k
  {
    assert Pow10(1) == 10 * Pow10(0) == 10;
    if n >= 10 {
      assert n / 10 < Pow10(k - 1);
      NatDigitsLength(n / 10, k - 1);
    }
  }

  lemma {:induction false} Pow10Monotone(j: nat, k: nat)
    requires j <= k
    ensures Pow10(j) <= Pow10(k)
  {
    if j < k {
      Pow10Monotone(j, k - 1);
    }
  }

  lemma {:induction false} ScaledBound(frac: string)
    requires Digits(frac) && |frac| <= 4
    ensures Scaled(frac) < SCALE
  {
    NatValueBound(frac);
    assert Pow10(1) == 10 * Pow10(0) == 10 && Pow10(2) == 10 * Pow10(1) == 100;
    assert Pow10(3) == 10 * Pow10(2) == 1000 && Pow10(4) == 10 * Pow10(3) == 10000;
  }

  /** The whole part of a parsed amount has no more digits than its text. */
  lemma {:induction false} UnsignedBound(s: string)
    requires ParseUnsigned(s).Some?
    ensures PointAt(s) >= 1 && ParseUnsigned(s).value / SCALE < Pow10(PointAt(s))
  {
    var n := PointAt(s);
    NatValueBound(s[..n]);
    if n < |s| {
      ScaledBound(s[n + 1..]);
    } else {
      assert s[..n] == s;
    }
  }

  lemma {:induction false} PlainPoint(m: nat)
    ensures PointAt(Plain(m)) == |NatDigits(m / SCALE)|
  {
    var whole, u := NatDigits(m / SCALE), Plain(m);
    assert u[|whole|] == '.';
    assert forall i :: 0 <= i < |whole| ==> u[i] == whole[i];
  }

  /** A money value printed with four places is a money text again, of the same value. */
  lemma {:induction false} MoneyReprints(s: string)
    requires Money(s).Some?
    ensures Money(Fixed4(Money(s).value)) == Money(s)
  {
    hide ParseUnsigned, Plain, PointAt;
    var u := Unsigned(s);
    var v := Money(s).value;
    var m: nat := if v < 0 then -v else v;
    UnsignedBound(u);
    Pow10Monotone(PointAt(u), 16);
    NatDigitsLength(m / SCALE, 16);
    PlainPoint(m);
    ParsePlain(m);
    ParseFixed4(v);
    assert Unsigned(Fixed4(v)) == Plain(m);
  }

  // ----- place value -----

  /** Each digit counts ten times the digit after it. */
  lemma {:induction false} PlaceValue(a: string, b: string)
    requires (forall i :: 0 <= i < |a| ==> Digit(a[i])) && forall i :: 0 <= i < |b| ==> Digit(b[i])
    ensures NatValue(a + b) == NatValue(a) * Pow10(|b|) + NatValue(b)
    ensures |b| == 1 ==> NatValue(b) == b[0] as int - '0' as int
  {
    if b == "" {
      assert a + b == a;
    } else {
      var n := |b| - 1;
      PlaceValue(a, b[..n]);
      assert (a + b)[..|a + b| - 1] == a + b[..n];
      Regroup(NatValue(a), Pow10(n), NatValue(b[..n]), DigitValue(b[n]));
      assert |b| == 1 ==> b[..n] == "";
    }
  }

  lemma {:induction false} Regroup(a: int, p: int, b: int, d: int)
    ensures (a * p + b) * 10 + d == a * (10 * p) + (b * 10 + d)
  {
  }

  lemma {:induction false} SmallPowers()
    ensures Pow10(0) == 1 && Pow10(1) == 10 && Pow10(2) == 100 && Pow10(3) == 1000 && Pow10(4) == 10000
  {
    assert Pow10(1) == 10 * Pow10(0) && Pow10(2) == 10 * Pow10(1) && Pow10(3) == 10 * Pow10(2);
    assert Pow10(4) == 10 * Pow10(3);
  }

  /** A digit text, and perhaps a point and another one. */
  function Written(whole: string, frac: string): string {
    if frac == "" then whole else whole + "." + frac
  }

  lemma {:induction false} PointAfter(whole: string, rest: string)
    requires Digits(whole) && (rest == "" || rest[0] == '.')
    ensures PointAt(whole + rest) == |whole|
  {
    var s := whole + rest;
    var n := PointAt(s);
    assert forall i :: 0 <= i < |whole| ==> s[i] == whole[i] && Digit(s[i]);
    assert rest != "" ==> s[|whole|] == '.';
    assert n < |s| ==> s[n] == '.';
  }

  lemma {:induction false} UnsignedValue(whole: string, frac: string)
    requires Digits(whole) && (frac == "" || Digits(frac)) && |frac| <= 4
    ensures var s := Written(whole, frac);
      && s != "" && s[0] != '-' && PointAt(s) == |whole|
      && ParseUnsigned(s).Some?
      && ParseUnsigned(s).value * Pow10(|frac|) == SCALE * NatValue(whole + frac)
  {
    hide NatValue, Pow10, PointAt;
    var s := Written(whole, frac);
    SmallPowers();
    PointAfter(whole, if frac == "" then "" else "." + frac);
    assert s == whole + if frac == "" then "" else "." + frac;
    assert s[0] == whole[0] && Digit(whole[0]);
    assert s[..|whole|] == whole;
    if frac == "" {
      assert whole + frac == whole;
    } else {
      assert s[|whole| + 1..] == frac;
      PlaceValue(whole, frac);
    }
  }

  /**
   An amount of up to sixteen digits and up to four decimals is worth its digits
   read as one number, divided by ten for every decimal; a minus sign negates it.
   */
  lemma {:induction false} MoneyIsWorth(whole: string, frac: string)
    requires Digits(whole) && |whole| <= 16 && (frac == "" || Digits(frac)) && |frac| <= 4
    ensures var s := Written(whole, frac);
      && Money(s).Some? && Money(s).value * Pow10(|frac|) == SCALE * NatValue(whole + frac)
      && Money("-" + s) == Some(-Money(s).value)
  {
    hide ParseUnsigned, PointAt, Written, NatValue, Pow10;
    var s := Written(whole, frac);
    UnsignedValue(whole, frac);
    assert Unsigned(s) == s && Unsigned("-" + s) == s;
  }

  predicate MoneyShape(s: string, whole: string, frac: string) {
    && Digits(whole) && |whole| <= 16 && (frac == "" || Digits(frac)) && |frac| <= 4
    && (s == Written(whole, frac) || s == "-" + Written(whole, frac))
  }

  lemma {:induction false} MoneyHasShape(s: string) returns (whole: string, frac: string)
    requires Money(s).Some?
    ensures MoneyShape(s, whole, frac)
  {
    hide PointAt, NatValue, Scaled;
    var u := Unsigned(s);
    var n := PointAt(u);
    whole, frac := u[..n], if n == |u| then "" else u[n + 1..];
    assert Written(whole, frac) == u;
    assert s == u || s == "-" + u;
  }

  /** Exactly the texts of this shape are amounts. */
  lemma {:induction false} MoneyAccepts(s: string)
    ensures Money(s).Some? <==> exists whole, frac :: MoneyShape(s, whole, frac)
  {
    hide Money, NatValue, Pow10, Written;
    if Money(s).Some? {
      var whole, frac := MoneyHasShape(s);
    }
    if exists whole, frac :: MoneyShape(s, whole, frac) {
      var whole, frac :| MoneyShape(s, whole, frac);
      MoneyIsWorth(whole, frac);
    }
  }

  lemma {:induction false} AppendZero(s: string)
    requires forall i :: 0 <= i < |s| ==> Digit(s[i])
    ensures NatValue(s + "0") == 10 * NatValue(s)
  {
    assert (s + "0")[..|s|] == s;
  }

  /** A zero after the last decimal changes nothing. */
  lemma {:induction false} TrailingZero(whole: string, frac: string)
    requires Digits(whole) && |whole| <= 16 && (frac == "" || Digits(frac)) && |frac| <= 3
    ensures Money(Written(whole, frac + "0")) == Money(Written(whole, frac))
  {
    hide Money, NatValue, Written;
    MoneyIsWorth(whole, frac);
    MoneyIsWorth(whole, frac + "0");
    AppendZero(whole + frac);
    assert whole + (frac + "0") == whole + frac + "0";
    SmallPowers();
    var a, b := Money(Written(whole, frac)).value, Money(Written(whole, frac + "0")).value;
    assert b * Pow10(|frac| + 1) == SCALE * (10 * NatValue(whole + frac)) == a * Pow10(|frac| + 1);
  }
}
