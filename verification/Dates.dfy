/** Accounting dates, `time.DateOnly` in Go, as day numbers of the proleptic Gregorian calendar. */
module Dates {
  import opened Common
  import opened Decimals

  predicate Leap(year: nat) {
    year % 4 == 0 && (year % 100 != 0 || year % 400 == 0)
  }

  function DaysIn(year: nat, month: nat): nat {
    if month == 2 then (if Leap(year) then 29 else 28)
    else if month in {4, 6, 9, 11} then 30
    else 31
  }

  /** Days before the first of the month, within its year. */
  function DaysBefore(year: nat, month: nat): nat {
    if month <= 1 then 0 else DaysBefore(year, month - 1) + DaysIn(year, month - 1)
  }

  /** The leap days before the year. */
  function LeapsBefore(year: nat): int {
    if year == 0 then 0 else (year - 1) / 4 - (year - 1) / 100 + (year - 1) / 400 + 1
  }

  /** Day 0 is 0000-01-01, a Saturday. */
  function DayNumber(year: nat, month: nat, day: nat): int {
    365 * year + LeapsBefore(year) + DaysBefore(year, month) + day - 1
  }

  function ParseDate(s: string): Option<int> {
    if |s| != 10 || s[4] != '-' || s[7] != '-' || !Digits(s[..4]) || !Digits(s[5..7]) || !Digits(s[8..]) then None
    else
      var year, month, day := NatValue(s[..4]), NatValue(s[5..7]), NatValue(s[8..]);
      if 1 <= month <= 12 && 1 <= day <= DaysIn(year, month) then Some(DayNumber(year, month, day)) else None
  }

  /** Sunday is 0. */
  function Weekday(day: int): int {
    (day + 6) % 7
  }

  // ----- the calendar -----

  datatype Date = Date(year: nat, month: nat, day: nat)

  predicate OnCalendar(d: Date) {
    1 <= d.month <= 12 && 1 <= d.day <= DaysIn(d.year, d.month)
  }

  function Tomorrow(d: Date): Date {
    if d.day < DaysIn(d.year, d.month) then Date(d.year, d.month, d.day + 1)
    else if d.month < 12 then Date(d.year, d.month + 1, 1)
    else Date(d.year + 1, 1, 1)
  }

  function NumberOf(d: Date): int {
    DayNumber(d.year, d.month, d.day)
  }

  /** Earlier in the calendar: by year, then month, then day. */
  predicate Before(d: Date, e: Date) {
    d.year < e.year || (d.year == e.year && (d.month < e.month || (d.month == e.month && d.day < e.day)))
  }

  lemma {:induction false} Fourths(n: nat)
    ensures (n + 1) / 4 == n / 4 + (if (n + 1) % 4 == 0 then 1 else 0)
  {
  }

  lemma {:induction false} Hundredths(n: nat)
    ensures (n + 1) / 100 == n / 100 + (if (n + 1) % 100 == 0 then 1 else 0)
  {
  }

  lemma {:induction false} FourHundredths(n: nat)
    ensures (n + 1) / 400 == n / 400 + (if (n + 1) % 400 == 0 then 1 else 0)
  {
  }

  lemma {:induction false} Hundred(m: nat)
    ensures (100 * m) % 100 == 0
  {
  }

  lemma {:induction false} Four(m: nat)
    ensures (4 * m) % 4 == 0
  {
  }

  lemma {:induction false} Multiples(n: nat)
    ensures (n % 400 == 0 ==> n % 100 == 0) && (n % 100 == 0 ==> n % 4 == 0)
  {
    if n % 100 == 0 {
      assert n == 4 * (25 * (n / 100));
      Four(25 * (n / 100));
    }
    if n % 400 == 0 {
      assert n == 100 * (4 * (n / 400));
      Hundred(4 * (n / 400));
    }
  }

  lemma {:induction false} LeapsNext(year: nat)
    ensures LeapsBefore(year + 1) == LeapsBefore(year) + (if Leap(year) then 1 else 0)
  {
    if year > 0 {
      Fourths(year - 1);
      Hundredths(year - 1);
      FourHundredths(year - 1);
      Multiples(year);
    }
  }

  lemma {:induction false} WholeYear(year: nat)
    ensures DaysBefore(year, 12) + 31 == 365 + (if Leap(year) then 1 else 0)
  {
    assert DaysBefore(year, 2) == 31;
    assert DaysBefore(year, 4) == 90 + (if Leap(year) then 1 else 0);
    assert DaysBefore(year, 6) == 151 + (if Leap(year) then 1 else 0);
    assert DaysBefore(year, 8) == 212 + (if Leap(year) then 1 else 0);
    assert DaysBefore(year, 10) == 273 + (if Leap(year) then 1 else 0);
  }

  lemma {:induction false} NextNumber(d: Date)
    requires OnCalendar(d)
    ensures OnCalendar(Tomorrow(d)) && NumberOf(Tomorrow(d)) == NumberOf(d) + 1 && Before(d, Tomorrow(d))
  {
    hide Leap;
    if d.day == DaysIn(d.year, d.month) && d.month == 12 {
      LeapsNext(d.year);
      WholeYear(d.year);
      assert DaysBefore(d.year + 1, 1) == 0;
    }
  }

  lemma {:induction false} NumberInYear(d: Date)
    requires OnCalendar(d)
    ensures 365 * d.year + LeapsBefore(d.year) <= NumberOf(d) < 365 * (d.year + 1) + LeapsBefore(d.year + 1)
  {
    hide Leap;
    MonthsGrow(d.year, d.month, 12);
    LeapsNext(d.year);
    WholeYear(d.year);
  }

  lemma {:induction false} MonthsGrow(year: nat, m: nat, n: nat)
    requires 1 <= m <= n
    ensures DaysBefore(year, m) >= 0 && (m < n ==> DaysBefore(year, m) + DaysIn(year, m) <= DaysBefore(year, n))
  {
    hide Leap;
    if m < n {
      MonthsGrow(year, m, n - 1);
    }
  }

  lemma {:induction false} YearsGrow(y: nat, z: nat)
    requires y <= z
    ensures 365 * y + LeapsBefore(y) <= 365 * z + LeapsBefore(z)
  {
    hide Leap, LeapsBefore;
    if y < z {
      YearsGrow(y, z - 1);
      LeapsNext(z - 1);
    }
  }

  lemma {:induction false} NumberGrows(d: Date, e: Date)
    requires OnCalendar(d) && OnCalendar(e) && Before(d, e)
    ensures NumberOf(d) < NumberOf(e)
  {
    hide Leap, LeapsBefore;
    if d.year < e.year {
      NumberInYear(d);
      NumberInYear(e);
      YearsGrow(d.year + 1, e.year);
    } else if d.month < e.month {
      MonthsGrow(d.year, d.month, e.month);
    }
  }

  /** Day numbers are in calendar order, so they tell dates apart. */
  lemma {:induction false} NumbersInOrder(d: Date, e: Date)
    requires OnCalendar(d) && OnCalendar(e)
    ensures NumberOf(d) < NumberOf(e) <==> Before(d, e)
    ensures NumberOf(d) == NumberOf(e) <==> d == e
  {
    hide OnCalendar, NumberOf;
    if Before(d, e) {
      NumberGrows(d, e);
    } else if Before(e, d) {
      NumberGrows(e, d);
    }
  }

  lemma {:induction false} KnownDay()
    ensures Weekday(DayNumber(2026, 8, 1)) == 6
  {
    assert DaysBefore(2026, 2) == 31 && DaysBefore(2026, 4) == 90 && DaysBefore(2026, 6) == 151
      && DaysBefore(2026, 8) == 212;
  }

  /**
   The next date of the calendar has the next day number and the next weekday,
   and weekdays repeat every seven days, counted from a Saturday on 1 August 2026.
   */
  lemma {:induction false} DaysFollow(d: Date)
    requires OnCalendar(d)
    ensures OnCalendar(Tomorrow(d)) && NumberOf(Tomorrow(d)) == NumberOf(d) + 1
    ensures Weekday(NumberOf(Tomorrow(d))) == (Weekday(NumberOf(d)) + 1) % 7
    ensures Weekday(NumberOf(d) + 7) == Weekday(NumberOf(d)) && 0 <= Weekday(NumberOf(d)) < 7
    ensures Weekday(NumberOf(Date(2026, 8, 1))) == 6
  {
    hide NumberOf, OnCalendar;
    NextNumber(d);
    assert Weekday(NumberOf(Date(2026, 8, 1))) == 6 by {
      NumberIs(Date(2026, 8, 1));
      KnownDay();
    }
  }

  lemma {:induction false} NumberIs(d: Date)
    ensures NumberOf(d) == DayNumber(d.year, d.month, d.day)
  {
  }

  // ----- texts -----

  function TwoDigits(n: nat): (s: string)
    requires n < 100
    ensures Digits(s) && |s| == 2
  {
    [DigitChar(n / 10)] + [DigitChar(n % 10)]
  }

  predicate Writable(d: Date) {
    OnCalendar(d) && d.year < 10000
  }

  /** The date as year, month and day with two dashes between. */
  function DateText(d: Date): string
    requires Writable(d)
  {
    assert d.month < 100 && d.day < 100 by { MonthIsShort(d); }
    FourDigits(d.year) + "-" + TwoDigits(d.month) + "-" + TwoDigits(d.day)
  }

  lemma {:induction false} TwoDigitsValue(n: nat)
    requires n < 100
    ensures NatValue(TwoDigits(n)) == n
  {
    NatValueAppend("", DigitChar(n / 10));
    assert "" + [DigitChar(n / 10)] == [DigitChar(n / 10)];
    NatValueAppend([DigitChar(n / 10)], DigitChar(n % 10));
  }

  lemma {:induction false} DigitsOfTwo(s: string)
    requires Digits(s) && |s| == 2
    ensures NatValue(s) < 100 && TwoDigits(NatValue(s)) == s
  {
    var a, b := DigitValue(s[0]), DigitValue(s[1]);
    assert s[..1] == [s[0]] && s[..1][..0] == "";
    assert NatValue(s[..1]) == a;
    assert NatValue(s) == 10 * a + b;
  }

  lemma {:induction false} DigitsOfFour(s: string)
    requires Digits(s) && |s| == 4
    ensures NatValue(s) < 10000 && FourDigits(NatValue(s)) == s
  {
    var a, b, c, d := DigitValue(s[0]), DigitValue(s[1]), DigitValue(s[2]), DigitValue(s[3]);
    DigitsOfTwo(s[..2]);
    assert s[..3][..2] == s[..2] && s[..2][..1] == s[..1] == [s[0]] && s[..1][..0] == "";
    assert NatValue(s[..1]) == a && NatValue(s[..2]) == 10 * a + b;
    assert NatValue(s[..3]) == 100 * a + 10 * b + c;
    var n := NatValue(s);
    assert n == 1000 * a + 100 * b + 10 * c + d;
    assert n / 10 == 100 * a + 10 * b + c && n / 10 / 10 == 10 * a + b && n / 10 / 10 / 10 == a;
  }

  /** The text of a date reads as its day number. */
  lemma {:induction false} DateTextReads(d: Date)
    requires Writable(d)
    ensures ParseDate(DateText(d)) == Some(NumberOf(d))
  {
    hide NatValue, TwoDigits, FourDigits, DayNumber, DaysIn;
    MonthIsShort(d);
    var s := DateText(d);
    FourDigitsValue(d.year);
    TwoDigitsValue(d.month);
    TwoDigitsValue(d.day);
    assert s[..4] == FourDigits(d.year) && s[5..7] == TwoDigits(d.month) && s[8..] == TwoDigits(d.day);
  }

  lemma {:induction false} MonthIsShort(d: Date)
    requires OnCalendar(d)
    ensures d.month < 100 && d.day < 100
  {
    hide Leap;
  }

  /** A text that reads as a day is the text of a date, and of no other. */
  lemma {:induction false} ReadDateIs(s: string) returns (d: Date)
    requires ParseDate(s).Some?
    ensures Writable(d) && s == DateText(d) && ParseDate(s) == Some(NumberOf(d))
  {
    hide NatValue, TwoDigits, FourDigits, DayNumber, DaysIn;
    d := Date(NatValue(s[..4]), NatValue(s[5..7]), NatValue(s[8..]));
    DigitsOfFour(s[..4]);
    DigitsOfTwo(s[5..7]);
    DigitsOfTwo(s[8..]);
    MonthIsShort(d);
    assert s == s[..4] + "-" + s[5..7] + "-" + s[8..];
  }
}
