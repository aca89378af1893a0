/**
 * Calendar dates as Python's `datetime.date` has them: the proleptic
 * Gregorian calendar restricted to years 1 through 9999, the order dates
 * sort in, and their ISO 8601 calendar-date rendering in extended format
 * (`YYYY-MM-DD`, ISO 8601:2004 section 4.1.2.2) that `strftime("%Y-%m-%d")`
 * produces.
 */
module Dates {
  import opened Wrappers
  import opened Numerals

  /** `datetime.MINYEAR` and `datetime.MAXYEAR`. */
  const MinYear: int := 1
  const MaxYear: int := 9999

  datatype Date = Date(year: int, month: int, day: int)

  /** The Gregorian leap-year rule: every fourth year, except centuries not
      divisible by 400. */
  predicate IsLeapYear(y: int) {
    y % 4 == 0 && (y % 100 != 0 || y % 400 == 0)
  }

  function DaysInMonth(y: int, m: int): (n: int)
    requires 1 <= m <= 12
    ensures 28 <= n <= 31
    ensures m == 2 ==> (n == 29 <==> IsLeapYear(y))
    ensures m == 2 && !IsLeapYear(y) ==> n == 28
    ensures m != 2 ==> (n == 30 <==> m in {4, 6, 9, 11})
    ensures m in {1, 3, 5, 7, 8, 10, 12} ==> n == 31
  {
    if m == 2 then (if IsLeapYear(y) then 29 else 28)
    else if m == 4 || m == 6 || m == 9 || m == 11 then 30
    else 31
  }

  /** What `datetime.date(year, month, day)` accepts without raising
      ValueError. */
  predicate ValidDate(d: Date) {
    && MinYear <= d.year <= MaxYear
    && 1 <= d.month <= 12
    && 1 <= d.day <= DaysInMonth(d.year, d.month)
  }

  /** A `datetime.date` object: a date that passed construction. */
  type CalendarDate = d: Date | ValidDate(d) witness Date(1, 1, 1)

  /** `datetime.date(year, month, day)`: the date, or `None` where Python
      raises ValueError. */
  function MakeDate(year: int, month: int, day: int): (r: Option<CalendarDate>)
    ensures r.Some? <==> ValidDate(Date(year, month, day))
    ensures r.Some? ==> r.value.year == year && r.value.month == month && r.value.day == day
  {
    var d := Date(year, month, day);
    if ValidDate(d) then Some(d) else None
  }

  /** A component of 0, the default the scraper substitutes for a missing
      field, never forms a date. */
  lemma ZeroNeverValid(year: int, month: int, day: int)
    requires year == 0 || month == 0 || day == 0
    ensures MakeDate(year, month, day).None?
  {
  }

  /** Date order: by year, then month, then day. */
  predicate Before(a: Date, b: Date) {
    a.year < b.year
    || (a.year == b.year && a.month < b.month)
    || (a.year == b.year && a.month == b.month && a.day < b.day)
  }

  /** `Before` is a strict total order. */
  lemma BeforeStrictTotal(a: Date, b: Date, c: Date)
    ensures !Before(a, a)
    ensures Before(a, b) && Before(b, c) ==> Before(a, c)
    ensures a != b ==> Before(a, b) || Before(b, a)
    ensures !(Before(a, b) && Before(b, a))
  {
  }

  /** Strictly ascending, hence also free of duplicates. */
  predicate StrictlySorted(s: seq<Date>) {
    forall i, j :: 0 <= i < j < |s| ==> Before(s[i], s[j])
  }

  // ---------------------------------------------------------------------
  // ISO 8601 rendering
  // ---------------------------------------------------------------------

  function TwoDigits(n: int): (r: string)
    requires 0 <= n < 100
    ensures |r| == 2 && AllDigits(r)
  {
    [DigitChar(n / 10), DigitChar(n % 10)]
  }

  function FourDigits(n: int): (r: string)
    requires 0 <= n < 10000
    ensures |r| == 4 && AllDigits(r)
  {
    [DigitChar(n / 1000), DigitChar(n / 100 % 10), DigitChar(n / 10 % 10), DigitChar(n % 10)]
  }

  /** `date.strftime("%Y-%m-%d")`: a 4-digit year, a 2-digit month and a
      2-digit day, zero-padded and joined by hyphens. */
  function FormatIso(d: CalendarDate): (r: string)
    ensures |r| == 10 && r[4] == '-' && r[7] == '-'
    ensures AllDigits(r[..4]) && AllDigits(r[5..7]) && AllDigits(r[8..])
  {
    FourDigits(d.year) + "-" + TwoDigits(d.month) + "-" + TwoDigits(d.day)
  }

  /** Reads a `YYYY-MM-DD` string back; the inverse the rendering is checked
      against. */
  function ParseIso(s: string): (r: Option<CalendarDate>)
    ensures r.Some? ==> |s| == 10
  {
    if |s| == 10 && s[4] == '-' && s[7] == '-'
       && AllDigits(s[..4]) && AllDigits(s[5..7]) && AllDigits(s[8..])
    then MakeDate(DigitsValue(s[..4]), DigitsValue(s[5..7]), DigitsValue(s[8..]))
    else None
  }

  lemma TwoDigitsValue(n: int)
    requires 0 <= n < 100
    ensures DigitsValue(TwoDigits(n)) == n
  {
    var a, b := DigitChar(n / 10), DigitChar(n % 10);
    DigitsValueSnoc([], a);
    DigitsValueSnoc([a], b);
    assert [] + [a] == [a] && [a] + [b] == TwoDigits(n);
  }

  lemma FourDigitsValue(n: int)
    requires 0 <= n < 10000
    ensures DigitsValue(FourDigits(n)) == n
  {
    var a, b, c, d := DigitChar(n / 1000), DigitChar(n / 100 % 10), DigitChar(n / 10 % 10), DigitChar(n % 10);
    DigitsValueSnoc([], a);
    DigitsValueSnoc([a], b);
    DigitsValueSnoc([a, b], c);
    DigitsValueSnoc([a, b, c], d);
    assert [] + [a] == [a] && [a] + [b] == [a, b] && [a, b] + [c] == [a, b, c];
    assert [a, b, c] + [d] == FourDigits(n);
    var q := n / 10;
    var p := q / 10;
    assert p == n / 100 && p / 10 == n / 1000;
    assert n / 1000 * 10 + p % 10 == p;
    assert p * 10 + q % 10 == q;
    assert q * 10 + n % 10 == n;
  }

  /** Reading a rendered date back gives the date: the rendering loses
      nothing. */
  lemma {:induction false} IsoRoundTrip(d: CalendarDate)
    ensures ParseIso(FormatIso(d)) == Some(d)
  {
    var s := FormatIso(d);
    assert s[..4] == FourDigits(d.year);
    assert s[5..7] == TwoDigits(d.month);
    assert s[8..] == TwoDigits(d.day);
    FourDigitsValue(d.year);
    TwoDigitsValue(d.month);
    TwoDigitsValue(d.day);
  }

  /** Distinct dates render to distinct strings. */
  lemma IsoInjective(a: CalendarDate, b: CalendarDate)
    requires FormatIso(a) == FormatIso(b)
    ensures a == b
  {
    IsoRoundTrip(a);
    IsoRoundTrip(b);
  }

  /** `date(2023, 10, 27)` renders as `2023-10-27`. */
  lemma IsoExample()
    ensures FormatIso(Date(2023, 10, 27)) == "2023-10-27"
  {
  }
}
