/**
 * Calendar dates as the transaction form and API exchange them: the date-only
 * ISO 8601 form "YYYY-MM-DD" that an HTML date input produces and that
 * `Date.parse` / `new Date(val)` read as midnight UTC of that day.
 */
module Calendar {
  import opened Wrappers
  import opened Digits

  datatype CalendarDate = CalendarDate(year: nat, month: nat, day: nat)

  /** Gregorian leap years (the proleptic calendar JavaScript dates use). */
  predicate IsLeapYear(y: nat) {
    y % 4 == 0 && (y % 100 != 0 || y % 400 == 0)
  }

  function DaysInMonth(y: nat, m: nat): (n: nat)
    requires 1 <= m <= 12
    ensures 28 <= n <= 31
    ensures n == 29 <==> m == 2 && IsLeapYear(y)
  {
    if m == 2 then (if IsLeapYear(y) then 29 else 28)
    else if m == 4 || m == 6 || m == 9 || m == 11 then 30
    else 31
  }

  /** A day that exists in the Gregorian calendar, in any year. */
  predicate RealDay(d: CalendarDate) {
    1 <= d.month <= 12 && 1 <= d.day <= DaysInMonth(d.year, d.month)
  }

  /** A day that exists and that the four-digit year form can write. */
  predicate ValidDate(d: CalendarDate) {
    d.year <= 9999 && RealDay(d)
  }

  /**
   * `Date.parse(val)` on the date-only form: `None` is NaN. A month outside
   * 1..12 or a day past the end of its month is rejected; this is the strict
   * reading of ECMAScript's date time string format, which does not list such
   * strings as instances of the format.
   */
  function ParseDate(s: string): (r: Option<CalendarDate>)
    ensures r.Some? ==> ValidDate(r.value)
  {
    if |s| == 10 && s[4] == '-' && s[7] == '-'
       && AllDigits(s[..4]) && AllDigits(s[5..7]) && AllDigits(s[8..])
    then
      var d := CalendarDate(DigitsValue(s[..4]), DigitsValue(s[5..7]), DigitsValue(s[8..]));
      if 1 <= d.month <= 12 && 1 <= d.day <= DaysInMonth(d.year, d.month) then Some(d) else None
    else
      None
  }

  /** The "YYYY-MM-DD" rendering of a date (what `toISOString().split('T')[0]` yields). */
  function FormatDate(d: CalendarDate): (s: string)
    requires ValidDate(d)
    ensures |s| == 10
  {
    PadDigits(d.year, 4) + "-" + PadDigits(d.month, 2) + "-" + PadDigits(d.day, 2)
  }

  /** Every valid date is read back from its rendering. */
  lemma ParseFormatDate(d: CalendarDate)
    requires ValidDate(d)
    ensures ParseDate(FormatDate(d)) == Some(d)
  {
    var s := FormatDate(d);
    assert s[..4] == PadDigits(d.year, 4);
    assert s[5..7] == PadDigits(d.month, 2);
    assert s[8..] == PadDigits(d.day, 2);
    PadDigitsValue(d.year, 4);
    PadDigitsValue(d.month, 2);
    PadDigitsValue(d.day, 2);
  }

  /** Every string the parser accepts is the rendering of the date it yields. */
  lemma FormatParseDate(s: string)
    requires ParseDate(s).Some?
    ensures FormatDate(ParseDate(s).value) == s
  {
    var d := ParseDate(s).value;
    assert d == CalendarDate(DigitsValue(s[..4]), DigitsValue(s[5..7]), DigitsValue(s[8..]));
    DigitsValuePad(s[..4]);
    DigitsValuePad(s[5..7]);
    DigitsValuePad(s[8..]);
    assert FormatDate(d) == s[..4] + "-" + s[5..7] + "-" + s[8..];
    SplitDateString(s);
  }

  lemma SplitDateString(s: string)
    requires |s| == 10 && s[4] == '-' && s[7] == '-'
    ensures s == s[..4] + "-" + s[5..7] + "-" + s[8..]
  {
  }

  /** Calendar order: earlier year, then earlier month, then earlier day. */
  predicate Before(a: CalendarDate, b: CalendarDate) {
    a.year < b.year
    || (a.year == b.year && a.month < b.month)
    || (a.year == b.year && a.month == b.month && a.day < b.day)
  }

  /** An integer that orders valid dates as their timestamps do. */
  function DateKey(d: CalendarDate): int {
    (d.year * 12 + d.month - 1) * 31 + d.day - 1
  }

  /** Comparing keys is comparing dates in calendar order. */
  lemma DateKeyOrder(a: CalendarDate, b: CalendarDate)
    requires RealDay(a) && RealDay(b)
    ensures DateKey(a) < DateKey(b) <==> Before(a, b)
    ensures DateKey(a) == DateKey(b) <==> a == b
  {
  }
}
