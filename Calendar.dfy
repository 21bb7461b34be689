/**
 * Python's `datetime.date` for the parts the dashboard uses: proleptic
 * Gregorian dates from 0001-01-01 to 9999-12-31, `date - timedelta(days=n)`
 * (which raises when the result leaves that range), `replace(day=1)` and
 * `isoformat()`.
 */
module Calendar {
  import opened Wrappers
  import Text

  datatype Date = Date(year: int, month: int, day: int)

  const MinYear: int := 1
  const MaxYear: int := 9999
  const FirstDate: Date := Date(MinYear, 1, 1)
  const LastDate: Date := Date(MaxYear, 12, 31)

  predicate IsLeap(y: int) {
    y % 4 == 0 && (y % 100 != 0 || y % 400 == 0)
  }

  function DaysInMonth(y: int, m: int): (n: int)
    requires 1 <= m <= 12
    ensures 28 <= n <= 31
  {
    if m == 2 then (if IsLeap(y) then 29 else 28)
    else if m == 4 || m == 6 || m == 9 || m == 11 then 30
    else 31
  }

  function DaysInYear(y: int): int {
    if IsLeap(y) then 366 else 365
  }

  predicate Valid(d: Date) {
    MinYear <= d.year <= MaxYear && 1 <= d.month <= 12 && 1 <= d.day <= DaysInMonth(d.year, d.month)
  }

  /** A value of Python's `date`: always a representable day. */
  type ValidDate = d: Date | Valid(d) witness FirstDate

  ghost function DaysBeforeYear(y: int): nat
    requires 1 <= y
  {
    if y == 1 then 0 else DaysBeforeYear(y - 1) + DaysInYear(y - 1)
  }

  ghost function DaysBeforeMonth(y: int, m: int): nat
    requires 1 <= m <= 12
  {
    if m == 1 then 0 else DaysBeforeMonth(y, m - 1) + DaysInMonth(y, m - 1)
  }

  /** `date.toordinal()`: 0001-01-01 is day 1 and each later day adds one. */
  ghost function Ordinal(d: Date): int
    requires Valid(d)
  {
    DaysBeforeYear(d.year) + DaysBeforeMonth(d.year, d.month) + d.day
  }

  /** The months before December fill the year except for December's 31 days. */
  lemma DaysBeforeDecember(y: int)
    ensures DaysBeforeMonth(y, 12) + 31 == DaysInYear(y)
  {
    assert DaysBeforeMonth(y, 2) == 31;
    assert DaysBeforeMonth(y, 3) == 31 + DaysInMonth(y, 2);
    assert DaysBeforeMonth(y, 4) == 62 + DaysInMonth(y, 2);
    assert DaysBeforeMonth(y, 5) == 92 + DaysInMonth(y, 2);
    assert DaysBeforeMonth(y, 6) == 123 + DaysInMonth(y, 2);
    assert DaysBeforeMonth(y, 7) == 153 + DaysInMonth(y, 2);
    assert DaysBeforeMonth(y, 8) == 184 + DaysInMonth(y, 2);
    assert DaysBeforeMonth(y, 9) == 215 + DaysInMonth(y, 2);
    assert DaysBeforeMonth(y, 10) == 245 + DaysInMonth(y, 2);
    assert DaysBeforeMonth(y, 11) == 276 + DaysInMonth(y, 2);
    assert DaysBeforeMonth(y, 12) == 306 + DaysInMonth(y, 2);
  }

  /** A day of month `m` lies before the end of the year. */
  lemma {:induction false} DaysBeforeMonthBound(y: int, m: int)
    requires 1 <= m <= 12
    ensures DaysBeforeMonth(y, m) + DaysInMonth(y, m) <= DaysInYear(y)
    decreases 12 - m
  {
    if m == 12 {
      DaysBeforeDecember(y);
    } else {
      DaysBeforeMonthBound(y, m + 1);
    }
  }

  /** How the three quotients of the leap-year rule move from `p` to `p + 1`. */
  lemma DivStep(p: int)
    requires p >= 0
    ensures (p + 1) / 4 - p / 4 == if (p + 1) % 4 == 0 then 1 else 0
    ensures (p + 1) / 100 - p / 100 == if (p + 1) % 100 == 0 then 1 else 0
    ensures (p + 1) / 400 - p / 400 == if (p + 1) % 400 == 0 then 1 else 0
  {
  }

  /** The leap-year rule as the sum of its three divisibility tests. */
  lemma YearLength(q: int)
    ensures DaysInYear(q) == 365 + (if q % 4 == 0 then 1 else 0) - (if q % 100 == 0 then 1 else 0) + (if q % 400 == 0 then 1 else 0)
  {
    if q % 400 == 0 {
      assert q == 100 * (4 * (q / 400));
    }
    if q % 100 == 0 {
      assert q == 4 * (25 * (q / 100));
    }
  }

  /** The closed form CPython's `_days_before_year` computes. */
  lemma {:induction false} DaysBeforeYearClosedForm(y: int)
    requires 1 <= y
    ensures DaysBeforeYear(y) == 365 * (y - 1) + (y - 1) / 4 - (y - 1) / 100 + (y - 1) / 400
    decreases y
  {
    if y > 1 {
      var q := y - 1;
      DaysBeforeYearClosedForm(q);
      DivStep(q - 1);
      YearLength(q);
      assert DaysBeforeYear(y) == DaysBeforeYear(q) + DaysInYear(q);
    }
  }

  lemma {:induction false} DaysBeforeYearMonotone(a: int, b: int)
    requires 1 <= a <= b
    ensures DaysBeforeYear(a) <= DaysBeforeYear(b)
    decreases b - a
  {
    if a < b {
      DaysBeforeYearMonotone(a + 1, b);
    }
  }

  /** `date.max.toordinal()`. */
  const MaxOrdinal: int := 3652059

  lemma LastDateOrdinal()
    ensures Ordinal(LastDate) == MaxOrdinal
  {
    var y := MaxYear;
    DaysBeforeYearClosedForm(y);
    DaysBeforeDecember(y);
  }

  /** Every representable date has an ordinal between those of the first and the last date. */
  lemma OrdinalRange(d: Date)
    requires Valid(d)
    ensures 1 <= Ordinal(d) <= MaxOrdinal
  {
    DaysBeforeMonthBound(d.year, d.month);
    DaysBeforeYearMonotone(d.year + 1, MaxYear + 1);
    LastDateOrdinal();
  }

  /** The day before `d`, or `None` when `d` is the first representable date. */
  function PrevDay(d: Date): (r: Option<Date>)
    requires Valid(d)
    ensures r.Some? <==> d != FirstDate
    ensures r.Some? ==> Valid(r.value) && Ordinal(r.value) == Ordinal(d) - 1
  {
    if d.day > 1 then Some(Date(d.year, d.month, d.day - 1))
    else if d.month > 1 then Some(Date(d.year, d.month - 1, DaysInMonth(d.year, d.month - 1)))
    else if d.year > MinYear then
      DaysBeforeDecember(d.year - 1);
      Some(Date(d.year - 1, 12, 31))
    else None
  }

  /** The day after `d`, or `None` when `d` is the last representable date. */
  function NextDay(d: Date): (r: Option<Date>)
    requires Valid(d)
    ensures r.Some? <==> d != LastDate
    ensures r.Some? ==> Valid(r.value) && Ordinal(r.value) == Ordinal(d) + 1
  {
    if d.day < DaysInMonth(d.year, d.month) then Some(Date(d.year, d.month, d.day + 1))
    else if d.month < 12 then Some(Date(d.year, d.month + 1, 1))
    else if d.year < MaxYear then
      DaysBeforeDecember(d.year);
      Some(Date(d.year + 1, 1, 1))
    else None
  }

  /**
   * `d + timedelta(days=n)`: `None` stands for the `OverflowError` Python
   * raises when the result is not a representable date.
   */
  function AddDays(d: Date, n: int): Option<Date>
    requires Valid(d)
    decreases if n < 0 then -n else n
  {
    if n == 0 then Some(d)
    else if n < 0 then
      match PrevDay(d)
      case None => None
      case Some(p) => AddDays(p, n + 1)
    else
      match NextDay(d)
      case None => None
      case Some(q) => AddDays(q, n - 1)
  }

  lemma {:induction false} AddDaysBackward(d: Date, n: nat)
    requires Valid(d)
    ensures AddDays(d, -(n as int)).Some? <==> 1 <= Ordinal(d) - n
    ensures AddDays(d, -(n as int)).Some? ==> Valid(AddDays(d, -(n as int)).value) && Ordinal(AddDays(d, -(n as int)).value) == Ordinal(d) - n
    decreases n
  {
    OrdinalRange(d);
    if n > 0 {
      match PrevDay(d)
      case None =>
        assert d == FirstDate;
      case Some(p) =>
        AddDaysBackward(p, n - 1);
    }
  }

  lemma {:induction false} AddDaysForward(d: Date, n: nat)
    requires Valid(d)
    ensures AddDays(d, n).Some? <==> Ordinal(d) + n <= MaxOrdinal
    ensures AddDays(d, n).Some? ==> Valid(AddDays(d, n).value) && Ordinal(AddDays(d, n).value) == Ordinal(d) + n
    decreases n
  {
    OrdinalRange(d);
    if n > 0 {
      match NextDay(d)
      case None =>
        assert d == LastDate;
        LastDateOrdinal();
      case Some(q) =>
        AddDaysForward(q, n - 1);
    }
  }

  /**
   * Adding `n` days moves the ordinal by exactly `n`, and fails exactly when
   * the target ordinal is outside the representable range.
   */
  lemma AddDaysOrdinal(d: Date, n: int)
    requires Valid(d)
    ensures AddDays(d, n).Some? <==> 1 <= Ordinal(d) + n <= MaxOrdinal
    ensures AddDays(d, n).Some? ==> Valid(AddDays(d, n).value) && Ordinal(AddDays(d, n).value) == Ordinal(d) + n
  {
    OrdinalRange(d);
    if n < 0 {
      AddDaysBackward(d, -n);
    } else {
      AddDaysForward(d, n);
    }
  }

  /** `d - timedelta(days=k)`: `None` exactly when the target ordinal leaves the calendar. */
  function SubtractDays(d: Date, k: int): (r: Option<Date>)
    requires Valid(d)
    ensures r.Some? <==> 1 <= Ordinal(d) - k <= MaxOrdinal
    ensures r.Some? ==> Valid(r.value) && Ordinal(r.value) == Ordinal(d) - k
  {
    AddDaysOrdinal(d, -k);
    AddDays(d, -k)
  }

  /** The day before the first of a month is the previous month's last day. */
  lemma DayBeforeFirst(d: Date)
    requires Valid(d) && d.day == 1
    ensures AddDays(d, -1) == PrevDay(d)
  {
    if PrevDay(d).Some? {
      assert AddDays(PrevDay(d).value, 0) == PrevDay(d);
    }
  }

  /** `d.replace(day=1)`. */
  function FirstOfMonth(d: Date): (r: Date)
    requires Valid(d)
    ensures Valid(r) && r.day == 1 && r.year == d.year && r.month == d.month
    ensures Ordinal(r) == Ordinal(d) - d.day + 1
  {
    Date(d.year, d.month, 1)
  }

  /** `d.isoformat()`: `YYYY-MM-DD` with zero padding. */
  function IsoFormat(d: Date): (s: string)
    requires Valid(d)
    ensures |s| == 10 && s[4] == '-' && s[7] == '-'
  {
    Text.NatToStringLength(d.year, 4);
    Text.ZeroPad(Text.NatToString(d.year), 4) + "-" + Text.TwoDigits(d.month) + "-" + Text.TwoDigits(d.day)
  }

  /** Reading `YYYY-MM-DD` back: the year, month and day fields as decimal numbers. */
  function ParseIsoFormat(s: string): Date
    requires |s| == 10
  {
    Date(Text.DecimalValue(s[..4]), Text.DecimalValue(s[5..7]), Text.DecimalValue(s[8..]))
  }

  /** `isoformat()` loses nothing: the text reads back as the same date. */
  lemma IsoFormatRoundTrip(d: Date)
    requires Valid(d)
    ensures ParseIsoFormat(IsoFormat(d)) == d
  {
    Text.NatToStringLength(d.year, 4);
    var s := IsoFormat(d);
    assert s[..4] == Text.ZeroPad(Text.NatToString(d.year), 4);
    assert s[5..7] == Text.TwoDigits(d.month);
    assert s[8..] == Text.TwoDigits(d.day);
    Text.ZeroPadValue(Text.NatToString(d.year), 4);
    Text.NatToStringValue(d.year);
    Text.TwoDigitsValue(d.month);
    Text.TwoDigitsValue(d.day);
  }

  /** Two dates print the same exactly when they are the same date. */
  lemma IsoFormatInjective(a: Date, b: Date)
    requires Valid(a) && Valid(b)
    ensures IsoFormat(a) == IsoFormat(b) <==> a == b
  {
    IsoFormatRoundTrip(a);
    IsoFormatRoundTrip(b);
  }

  /** Two `start to end` texts are equal exactly when both starts and both ends are. */
  lemma IsoRangeInjective(a: Date, b: Date, c: Date, d: Date)
    requires Valid(a) && Valid(b) && Valid(c) && Valid(d)
    ensures IsoFormat(a) + " to " + IsoFormat(b) == IsoFormat(c) + " to " + IsoFormat(d) <==> a == c && b == d
  {
    var left, right := IsoFormat(a) + " to " + IsoFormat(b), IsoFormat(c) + " to " + IsoFormat(d);
    assert left[..10] == IsoFormat(a) && left[14..] == IsoFormat(b);
    assert right[..10] == IsoFormat(c) && right[14..] == IsoFormat(d);
    IsoFormatInjective(a, c);
    IsoFormatInjective(b, d);
  }

  /** The day before the day after `d` is `d`. */
  lemma PrevDayOfNextDay(d: Date)
    requires Valid(d) && d != LastDate
    ensures PrevDay(NextDay(d).value) == Some(d)
  {
  }

  /** Adding a day and then subtracting one returns to the start. */
  lemma AddDayThenSubtract(d: Date)
    requires Valid(d) && d != LastDate
    ensures AddDays(d, 1) == NextDay(d)
    ensures AddDays(NextDay(d).value, -1) == Some(d)
  {
    var q := NextDay(d).value;
    assert AddDays(q, 0) == Some(q);
    PrevDayOfNextDay(d);
    assert AddDays(d, 0) == Some(d);
  }
}
