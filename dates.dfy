/** Calendar dates as Python's `datetime.date` holds them, and their text
    form `YYYY-MM-DD` (`str(date)` and `strftime("%Y-%m-%d")`). */
module Dates {
  import opened Wrappers
  import opened Text

  datatype YearMonthDay = YearMonthDay(year: int, month: int, day: int)

  predicate IsLeapYear(y: int) {
    y % 4 == 0 && (y % 100 != 0 || y % 400 == 0)
  }

  function DaysInMonth(y: int, m: int): int {
    if m == 2 then (if IsLeapYear(y) then 29 else 28)
    else if m == 4 || m == 6 || m == 9 || m == 11 then 30
    else 31
  }

  predicate IsValid(d: YearMonthDay) {
    && 1 <= d.year <= 9999
    && 1 <= d.month <= 12
    && 1 <= d.day <= DaysInMonth(d.year, d.month)
  }

  /** A `datetime.date`: years 1 to 9999, as Python allows. */
  type Date = d: YearMonthDay | IsValid(d) witness YearMonthDay(1, 1, 1)

  /** Chronological order. */
  predicate OnOrBefore(a: Date, b: Date) {
    || a.year < b.year
    || (a.year == b.year && a.month < b.month)
    || (a.year == b.year && a.month == b.month && a.day <= b.day)
  }

  lemma OnOrBeforeTotal(a: Date, b: Date)
    ensures OnOrBefore(a, b) || OnOrBefore(b, a)
    ensures OnOrBefore(a, b) && OnOrBefore(b, a) ==> a == b
  {
  }

  lemma OnOrBeforeTransitive(a: Date, b: Date, c: Date)
    requires OnOrBefore(a, b) && OnOrBefore(b, c)
    ensures OnOrBefore(a, c)
  {
  }

  function Digits2(n: int): string
    requires 0 <= n < 100
  {
    [DigitChar(n / 10), DigitChar(n % 10)]
  }

  function Digits4(n: int): string
    requires 0 <= n < 10000
  {
    Digits2(n / 100) + Digits2(n % 100)
  }

  /** `str(d)`: year, month and day zero-padded to 4, 2 and 2 digits. */
  function IsoFormat(d: Date): (s: string)
    ensures |s| == 10 && s[4] == '-' && s[7] == '-'
  {
    Digits4(d.year) + "-" + Digits2(d.month) + "-" + Digits2(d.day)
  }

  predicate IsDigit(c: char) {
    '0' <= c <= '9'
  }

  function DigitValue(c: char): int {
    c as int - '0' as int
  }

  function Number(s: string): int {
    if s == [] then 0 else 10 * Number(s[..|s| - 1]) + DigitValue(s[|s| - 1])
  }

  /** `datetime.strptime(s, "%Y-%m-%d").date()` restricted to the padded
      form: None for any text that is not a valid padded date. */
  function ParseIso(s: string): (r: Option<Date>)
    ensures r.Some? ==> |s| == 10
  {
    if |s| == 10 && s[4] == '-' && s[7] == '-'
       && (forall i :: 0 <= i < 10 && i != 4 && i != 7 ==> IsDigit(s[i]))
    then
      var ymd := YearMonthDay(Number(s[..4]), Number(s[5..7]), Number(s[8..]));
      if IsValid(ymd) then Some(ymd) else None
    else None
  }

  lemma Digits2Value(n: int)
    requires 0 <= n < 100
    ensures Number(Digits2(n)) == n
    ensures forall i :: 0 <= i < 2 ==> IsDigit(Digits2(n)[i])
  {
    var s := Digits2(n);
    assert s[..1] == [DigitChar(n / 10)];
    assert Number(s[..1]) == n / 10;
  }

  lemma {:induction false} NumberAppend(a: string, b: string)
    ensures Number(a + b) == Number(a) * Pow10(|b|) + Number(b)
    decreases |b|
  {
    if b == [] {
      assert a + b == a;
    } else {
      var b' := b[..|b| - 1];
      assert (a + b)[..|a + b| - 1] == a + b';
      assert (a + b)[|a + b| - 1] == b[|b| - 1];
      NumberAppend(a, b');
      Regroup(Number(a), Pow10(|b'|), Number(b'), DigitValue(b[|b| - 1]));
    }
  }

  lemma Regroup(x: int, p: int, n: int, d: int)
    ensures 10 * (x * p + n) + d == x * (10 * p) + (10 * n + d)
  {
  }

  function Pow10(n: nat): nat {
    if n == 0 then 1 else 10 * Pow10(n - 1)
  }

  lemma Digits4Value(n: int)
    requires 0 <= n < 10000
    ensures Number(Digits4(n)) == n
    ensures forall i :: 0 <= i < 4 ==> IsDigit(Digits4(n)[i])
  {
    Digits2Value(n / 100);
    Digits2Value(n % 100);
    NumberAppend(Digits2(n / 100), Digits2(n % 100));
    assert Pow10(2) == 100;
    assert Digits4(n)[..2] == Digits2(n / 100) && Digits4(n)[2..] == Digits2(n % 100);
  }

  /** Reading the text of a date gives the date back. */
  lemma {:induction false} ParseFormat(d: Date)
    ensures ParseIso(IsoFormat(d)) == Some(d)
  {
    var s := IsoFormat(d);
    Digits4Value(d.year);
    Digits2Value(d.month);
    Digits2Value(d.day);
    assert s[..4] == Digits4(d.year);
    assert s[5..7] == Digits2(d.month);
    assert s[8..] == Digits2(d.day);
    assert forall i :: 0 <= i < 10 && i != 4 && i != 7 ==> IsDigit(s[i]) by {
      forall i | 0 <= i < 10 && i != 4 && i != 7 ensures IsDigit(s[i]) {
        if i < 4 { assert s[i] == Digits4(d.year)[i]; }
        else if i < 7 { assert s[i] == Digits2(d.month)[i - 5]; }
        else { assert s[i] == Digits2(d.day)[i - 8]; }
      }
    }
  }

  /** Two dates with the same text are the same date. */
  lemma IsoFormatInjective(a: Date, b: Date)
    requires IsoFormat(a) == IsoFormat(b)
    ensures a == b
  {
    ParseFormat(a);
    ParseFormat(b);
  }
}
