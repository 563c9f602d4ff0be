/**
 * Calendar dates as the journal writes and reads them: `strftime("%Y-%m-%d")`,
 * `strptime(s, "%Y-%m-%d")`, `date.toordinal()`, and the instant
 * `datetime.now() - timedelta(days=k)` that the readers compare entry dates against.
 */
module Dates {
  import opened Wrappers
  import opened Text

  datatype Date = Date(year: int, month: int, day: int)

  predicate IsLeap(y: int) {
    y % 4 == 0 && (y % 100 != 0 || y % 400 == 0)
  }

  function DaysInMonth(y: int, m: int): int
    requires 1 <= m <= 12
  {
    if m == 2 then (if IsLeap(y) then 29 else 28)
    else if m == 4 || m == 6 || m == 9 || m == 11 then 30
    else 31
  }

  /** A date Python's `date` type accepts (years 1 through 9999). */
  predicate Valid(d: Date) {
    1 <= d.year <= 9999 && 1 <= d.month <= 12 && 1 <= d.day <= DaysInMonth(d.year, d.month)
  }

  /** Lexicographic order on (year, month, day), the order Python compares dates in. */
  predicate Earlier(a: Date, b: Date) {
    a.year < b.year || (a.year == b.year && (a.month < b.month || (a.month == b.month && a.day < b.day)))
  }

  function DaysBeforeYear(y: int): int
    requires y >= 1
  {
    var p := y - 1;
    p * 365 + p / 4 - p / 100 + p / 400
  }

  function DaysBeforeMonth(y: int, m: int): int
    requires 1 <= m <= 12
  {
    [0, 31, 59, 90, 120, 151, 181, 212, 243, 273, 304, 334][m - 1] + (if m > 2 && IsLeap(y) then 1 else 0)
  }

  /** Python's `date.toordinal()`: day number 1 is 0001-01-01. */
  function Ordinal(d: Date): int
    requires Valid(d)
  {
    DaysBeforeYear(d.year) + DaysBeforeMonth(d.year, d.month) + d.day
  }

  lemma MonthsAdd(y: int, m: int)
    requires 1 <= m < 12
    ensures DaysBeforeMonth(y, m + 1) == DaysBeforeMonth(y, m) + DaysInMonth(y, m)
  {
  }

  lemma YearsAdd(y: int)
    requires y >= 1
    ensures DaysBeforeYear(y + 1) == DaysBeforeYear(y) + DaysBeforeMonth(y, 12) + DaysInMonth(y, 12)
  {
    var p := y - 1;
    assert (p + 1) / 4 == p / 4 + (if y % 4 == 0 then 1 else 0);
    assert (p + 1) / 100 == p / 100 + (if y % 100 == 0 then 1 else 0);
    assert (p + 1) / 400 == p / 400 + (if y % 400 == 0 then 1 else 0);
  }

  /** The last day of a month and the first day of the next are consecutive ordinals. */
  lemma {:induction false} OrdinalBelowNextMonth(d: Date)
    requires Valid(d)
    ensures d.month < 12 ==> Ordinal(d) < DaysBeforeYear(d.year) + DaysBeforeMonth(d.year, d.month + 1) + 1
    ensures Ordinal(d) < DaysBeforeYear(d.year + 1) + 1
  {
    if d.month < 12 {
      MonthsAdd(d.year, d.month);
    }
    var m := d.month;
    while m < 12
      invariant d.month <= m <= 12
      invariant DaysBeforeMonth(d.year, d.month) + d.day <= DaysBeforeMonth(d.year, m) + DaysInMonth(d.year, m)
    {
      MonthsAdd(d.year, m);
      m := m + 1;
    }
    YearsAdd(d.year);
  }

  lemma {:induction false} YearsGrow(a: int, b: int)
    requires 1 <= a < b
    ensures DaysBeforeYear(a + 1) <= DaysBeforeYear(b)
    decreases b - a
  {
    if a + 1 < b {
      YearsGrow(a + 1, b);
      YearsAdd(a + 1);
    }
  }

  /** `toordinal` is strictly increasing in calendar order, so comparing ordinals compares dates. */
  lemma OrdinalMonotone(a: Date, b: Date)
    requires Valid(a) && Valid(b) && Earlier(a, b)
    ensures Ordinal(a) < Ordinal(b)
  {
    OrdinalBelowNextMonth(a);
    if a.year < b.year {
      YearsGrow(a.year, b.year);
    } else if a.month < b.month {
      var m := a.month + 1;
      while m < b.month
        invariant a.month < m <= b.month
        invariant DaysBeforeMonth(a.year, a.month + 1) <= DaysBeforeMonth(a.year, m)
      {
        MonthsAdd(a.year, m);
        m := m + 1;
      }
    }
  }

  // ----- strftime("%Y-%m-%d") ------------------------------------------------

  function Pad2(n: int): (r: string)
    requires 0 <= n < 100
    ensures |r| == 2 && IsDigit(r[0]) && IsDigit(r[1])
  {
    [DigitChar(n / 10), DigitChar(n % 10)]
  }

  function Pad4(n: int): (r: string)
    requires 0 <= n < 10000
    ensures |r| == 4 && forall i :: 0 <= i < 4 ==> IsDigit(r[i])
  {
    Pad2(n / 100) + Pad2(n % 100)
  }

  /** `date.strftime("%Y-%m-%d")` with a zero-padded four-digit year. */
  function Format(d: Date): (r: string)
    requires Valid(d)
    ensures |r| == 10 && r[4] == '-' && r[7] == '-'
    ensures forall i :: 0 <= i < |r| ==> IsDigit(r[i]) || r[i] == '-'
  {
    Pad4(d.year) + "-" + Pad2(d.month) + "-" + Pad2(d.day)
  }

  // ----- strptime(s, "%Y-%m-%d") ---------------------------------------------

  /** `%m` matches `1[0-2]`, `0[1-9]` or `[1-9]`, and a `-` must follow it. */
  function MonthToken(t: string): Option<int>
  {
    if |t| == 2 && t[0] == '1' && '0' <= t[1] <= '2' then Some(10 + DigitValue(t[1]))
    else if |t| == 2 && t[0] == '0' && '1' <= t[1] <= '9' then Some(DigitValue(t[1]))
    else if |t| == 1 && '1' <= t[0] <= '9' then Some(DigitValue(t[0]))
    else None
  }

  /**
   * `%d` matches the first of `3[01]`, `[12]\d`, `0[1-9]`, `[1-9]`, ` [1-9]` that fits, and
   * nothing may follow it ("unconverted data remains"): exactly these whole tokens are accepted.
   */
  function DayToken(t: string): Option<int>
  {
    if |t| == 2 && t[0] == '3' && (t[1] == '0' || t[1] == '1') then Some(30 + DigitValue(t[1]))
    else if |t| == 2 && (t[0] == '1' || t[0] == '2') && IsDigit(t[1]) then Some(10 * DigitValue(t[0]) + DigitValue(t[1]))
    else if |t| == 2 && t[0] == '0' && '1' <= t[1] <= '9' then Some(DigitValue(t[1]))
    else if |t| == 1 && '1' <= t[0] <= '9' then Some(DigitValue(t[0]))
    else if |t| == 2 && t[0] == ' ' && '1' <= t[1] <= '9' then Some(DigitValue(t[1]))
    else None
  }

  function TwoDigits(s: string): (n: int)
    requires |s| == 2 && IsDigit(s[0]) && IsDigit(s[1])
    ensures 0 <= n < 100
  {
    10 * DigitValue(s[0]) + DigitValue(s[1])
  }

  function FourDigits(s: string): (n: int)
    requires |s| == 4 && forall i :: 0 <= i < 4 ==> IsDigit(s[i])
    ensures 0 <= n < 10000
  {
    100 * TwoDigits(s[..2]) + TwoDigits(s[2..])
  }

  /**
   * `datetime.strptime(s, "%Y-%m-%d")`: `None` where Python raises `ValueError`
   * (no match, text left over, year 0, or a day past the end of the month).
   */
  function Parse(s: string): (r: Option<Date>)
    ensures r.Some? ==> Valid(r.value)
  {
    if |s| < 5 || !(forall i :: 0 <= i < 4 ==> IsDigit(s[i])) || s[4] != '-' then None
    else
      var year := FourDigits(s[..4]);
      var rest := s[5..];
      var j := Find(rest, '-');
      if j == |rest| then None
      else
        match (MonthToken(rest[..j]), DayToken(rest[j + 1..]))
        case (Some(m), Some(d)) =>
          if 1 <= year && d <= DaysInMonth(year, m) then Some(Date(year, m, d)) else None
        case _ => None
  }

  lemma FourDigitsPad4(y: int)
    requires 0 <= y < 10000
    ensures FourDigits(Pad4(y)) == y
  {
    var s := Pad4(y);
    assert s[..2] == Pad2(y / 100) && s[2..] == Pad2(y % 100);
    TwoDigitsPad2(y / 100);
    TwoDigitsPad2(y % 100);
  }

  lemma TwoDigitsPad2(n: int)
    requires 0 <= n < 100
    ensures TwoDigits(Pad2(n)) == n
  {
    assert DigitValue(Pad2(n)[0]) == n / 10;
    assert DigitValue(Pad2(n)[1]) == n % 10;
  }

  lemma MonthTokenPad2(m: int)
    requires 1 <= m <= 12
    ensures MonthToken(Pad2(m)) == Some(m)
  {
    assert DigitValue(Pad2(m)[0]) == m / 10;
    assert DigitValue(Pad2(m)[1]) == m % 10;
  }

  lemma DayTokenPad2(d: int)
    requires 1 <= d <= 31
    ensures DayToken(Pad2(d)) == Some(d)
  {
    assert DigitValue(Pad2(d)[0]) == d / 10;
    assert DigitValue(Pad2(d)[1]) == d % 10;
  }

  /** What the journal writes is what the journal reads back. */
  lemma ParseFormat(d: Date)
    requires Valid(d)
    ensures Parse(Format(d)) == Some(d)
  {
    var s := Format(d);
    var y, m, dd := d.year, d.month, d.day;
    assert s[..4] == Pad4(y);
    FourDigitsPad4(y);
    var rest := s[5..];
    assert rest == Pad2(m) + "-" + Pad2(dd);
    assert Find(rest, '-') == 2;
    assert rest[..2] == Pad2(m);
    assert rest[3..] == Pad2(dd);
    MonthTokenPad2(m);
    DayTokenPad2(dd);
  }

  // ----- now and the look-back cutoff -----------------------------------------

  const MICROS_PER_DAY: int := 86400000000

  /** `datetime.now()`: today's date and the microsecond of the day. */
  datatype Clock = Clock(today: Date, micros: int)

  predicate ValidClock(c: Clock) {
    Valid(c.today) && 0 <= c.micros < MICROS_PER_DAY
  }

  /** The instant `datetime.now() - timedelta(days=days)`, in microseconds since day 0 of the ordinal count. */
  function Cutoff(now: Clock, days: int): int
    requires ValidClock(now)
  {
    (Ordinal(now.today) - days) * MICROS_PER_DAY + now.micros
  }

  /** `date.max.toordinal()`, the ordinal of 9999-12-31. */
  const MAX_ORDINAL: int := 3652059

  /** Every date Python accepts has an ordinal from 1 (0001-01-01) to `MAX_ORDINAL` (9999-12-31). */
  lemma OrdinalRange(d: Date)
    requires Valid(d)
    ensures 1 <= Ordinal(d) <= MAX_ORDINAL
  {
    var first, last := Date(1, 1, 1), Date(9999, 12, 31);
    LastOrdinal();
    if d != first {
      OrdinalMonotone(first, d);
    }
    if d != last {
      OrdinalMonotone(d, last);
    }
  }

  lemma LastOrdinal()
    ensures Ordinal(Date(9999, 12, 31)) == MAX_ORDINAL
  {
    assert DaysBeforeYear(9999) == 3651694;
    assert DaysBeforeMonth(9999, 12) == 334;
  }

  /**
   * `datetime.now() - timedelta(days=days)` succeeds only when the day it lands on is still a
   * date Python accepts; otherwise it raises `OverflowError`.
   */
  predicate CutoffDefined(now: Clock, days: int)
    requires ValidClock(now)
  {
    1 <= Ordinal(now.today) - days <= MAX_ORDINAL
  }

  /**
   * A defined cutoff needs fewer than `MAX_ORDINAL` days either way, so `timedelta`'s own limit
   * of 999999999 days is never the one that decides; and every look-back from zero days up to
   * the day before 0001-01-01 is defined.
   */
  lemma CutoffDefinedBounds(now: Clock, days: int)
    requires ValidClock(now)
    ensures CutoffDefined(now, days) ==> -MAX_ORDINAL < days < MAX_ORDINAL
    ensures 0 <= days < Ordinal(now.today) ==> CutoffDefined(now, days)
  {
    OrdinalRange(now.today);
  }

  /** `datetime(d) < cutoff`: the entry's midnight lies before the cutoff instant. */
  predicate Before(d: Date, cutoff: int)
    requires Valid(d)
  {
    Ordinal(d) * MICROS_PER_DAY < cutoff
  }

  /**
   * The window is exact to the day: an entry counts when its date is after `today - days`, or
   * equal to it only when the clock stands exactly at midnight.
   */
  lemma WindowBoundary(d: Date, now: Clock, days: int)
    requires Valid(d) && ValidClock(now)
    ensures !Before(d, Cutoff(now, days)) <==>
      (Ordinal(d) > Ordinal(now.today) - days || (Ordinal(d) == Ordinal(now.today) - days && now.micros == 0))
  {
    var a := Ordinal(d) - (Ordinal(now.today) - days);
    assert Ordinal(d) * MICROS_PER_DAY - (Ordinal(now.today) - days) * MICROS_PER_DAY == a * MICROS_PER_DAY;
    if a >= 1 {
      assert a * MICROS_PER_DAY >= MICROS_PER_DAY;
    } else if a <= -1 {
      assert a * MICROS_PER_DAY <= -MICROS_PER_DAY;
    }
  }
}
