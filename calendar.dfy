/**
 * Python `datetime` values as a count of microseconds since 0001-01-01T00:00:00 on
 * the proleptic Gregorian calendar, and their calendar fields.
 *
 * `ToOrdinal` is Python's own date-to-ordinal rule (days before the year, days
 * before the month, plus the day). `CivilOfDay` goes the other way by walking
 * year and month lengths; `CivilRoundTrip` proves the two agree.
 */
module Calendar {

  const MicrosPerSecond: nat := 1_000_000
  const MicrosPerMinute: nat := 60_000_000
  const MicrosPerDay: nat := 86_400_000_000
  const SecondsPerDay: nat := 86_400

  /** A point in time: microseconds since 0001-01-01T00:00:00. */
  type Instant = nat

  datatype Date = Date(year: nat, month: nat, day: nat)

  datatype DateTime = DateTime(date: Date, hour: nat, minute: nat, second: nat, micro: nat)

  predicate IsLeap(y: nat)
  {
    y % 4 == 0 && (y % 100 != 0 || y % 400 == 0)
  }

  function DaysInYear(y: nat): nat
  {
    if IsLeap(y) then 366 else 365
  }

  function DaysInMonth(y: nat, m: nat): nat
  {
    if m == 2 then (if IsLeap(y) then 29 else 28)
    else if m == 4 || m == 6 || m == 9 || m == 11 then 30
    else 31
  }

  /** Days in the years before `y` (Python's `_days_before_year`). */
  function DaysBeforeYear(y: nat): nat
    requires y >= 1
  {
    var p := y - 1;
    p * 365 + p / 4 - p / 100 + p / 400
  }

  /** Days in the months of year `y` before month `m` (Python's `_days_before_month`). */
  function DaysBeforeMonth(y: nat, m: nat): nat
    requires 1 <= m <= 12
  {
    var before :=
      if m == 1 then 0 else if m == 2 then 31 else if m == 3 then 59
      else if m == 4 then 90 else if m == 5 then 120 else if m == 6 then 151
      else if m == 7 then 181 else if m == 8 then 212 else if m == 9 then 243
      else if m == 10 then 273 else if m == 11 then 304 else 334;
    before + (if m > 2 && IsLeap(y) then 1 else 0)
  }

  predicate ValidDate(d: Date)
  {
    d.year >= 1 && 1 <= d.month <= 12 && 1 <= d.day <= DaysInMonth(d.year, d.month)
  }

  /** Python's `date.toordinal()`: 0001-01-01 is day 1. */
  function ToOrdinal(d: Date): nat
    requires ValidDate(d)
  {
    DaysBeforeYear(d.year) + DaysBeforeMonth(d.year, d.month) + d.day
  }

  /** The date `n` days after 0001-01-01. */
  function CivilOfDay(n: nat): (d: Date)
    ensures ValidDate(d)
  {
    YearSearch(n, 1)
  }

  /** The date `n` days after January 1st of year `y`. */
  function YearSearch(n: nat, y: nat): (d: Date)
    requires y >= 1
    ensures ValidDate(d)
    decreases n
  {
    if n < DaysInYear(y) then MonthSearch(y, n, 1) else YearSearch(n - DaysInYear(y), y + 1)
  }

  /** The date `n` days after the first of month `m` of year `y`, with `n` inside the year. */
  function MonthSearch(y: nat, n: nat, m: nat): (d: Date)
    requires y >= 1 && 1 <= m <= 12
    requires DaysBeforeMonth(y, m) + n < DaysInYear(y)
    ensures ValidDate(d)
    decreases 12 - m
  {
    if n < DaysInMonth(y, m) then Date(y, m, n + 1)
    else MonthSearch(y, n - DaysInMonth(y, m), m + 1)
  }

  lemma YearStep(y: nat)
    requires y >= 1
    ensures DaysBeforeYear(y + 1) == DaysBeforeYear(y) + DaysInYear(y)
  {
    var p := y - 1;
    var a, b, c := p / 4, p / 100, p / 400;
    var a', b', c' := y / 4, y / 100, y / 400;
    assert a' == a + (if y % 4 == 0 then 1 else 0) by { DivStep(p, 4); }
    assert b' == b + (if y % 100 == 0 then 1 else 0) by { DivStep(p, 100); }
    assert c' == c + (if y % 400 == 0 then 1 else 0) by { DivStep(p, 400); }
    assert DaysBeforeYear(y + 1) == y * 365 + a' - b' + c';
    assert DaysBeforeYear(y) == p * 365 + a - b + c;
    MultipleChain(y);
  }

  /** A multiple of 400 is a multiple of 100, and a multiple of 100 is a multiple of 4. */
  lemma MultipleChain(y: nat)
    ensures y % 400 == 0 ==> y % 100 == 0
    ensures y % 100 == 0 ==> y % 4 == 0
  {
    if y % 400 == 0 {
      DivModUnique(y, 100, y / 400 * 4, 0);
    }
    if y % 100 == 0 {
      DivModUnique(y, 4, y / 100 * 25, 0);
    }
  }

  /** The quotient grows by one exactly when the next number is a multiple of the divisor. */
  lemma DivStep(p: nat, c: nat)
    requires 0 < c
    ensures (p + 1) / c == p / c + (if (p + 1) % c == 0 then 1 else 0)
  {
    var q, r := p / c, p % c;
    assert p == q * c + r;
    if r + 1 == c {
      DivModUnique(p + 1, c, q + 1, 0);
    } else {
      DivModUnique(p + 1, c, q, r + 1);
    }
  }

  lemma MonthStep(y: nat, m: nat)
    requires 1 <= m < 12
    ensures DaysBeforeMonth(y, m + 1) == DaysBeforeMonth(y, m) + DaysInMonth(y, m)
  {
  }

  lemma YearEnd(y: nat)
    ensures DaysBeforeMonth(y, 12) + DaysInMonth(y, 12) == DaysInYear(y)
  {
  }

  lemma {:induction false} MonthSearchOrdinal(y: nat, n: nat, m: nat)
    requires y >= 1 && 1 <= m <= 12
    requires DaysBeforeMonth(y, m) + n < DaysInYear(y)
    ensures ToOrdinal(MonthSearch(y, n, m)) == DaysBeforeYear(y) + DaysBeforeMonth(y, m) + n + 1
    decreases 12 - m
  {
    if n >= DaysInMonth(y, m) {
      if m == 12 {
        YearEnd(y);
      } else {
        MonthStep(y, m);
        MonthSearchOrdinal(y, n - DaysInMonth(y, m), m + 1);
      }
    }
  }

  lemma {:induction false} YearSearchOrdinal(n: nat, y: nat)
    requires y >= 1
    ensures ToOrdinal(YearSearch(n, y)) == DaysBeforeYear(y) + n + 1
    decreases n
  {
    if n < DaysInYear(y) {
      MonthSearchOrdinal(y, n, 1);
    } else {
      YearStep(y);
      YearSearchOrdinal(n - DaysInYear(y), y + 1);
    }
  }

  /** The day-to-date walk agrees with Python's ordinal: day n is ordinal n + 1. */
  lemma CivilRoundTrip(n: nat)
    ensures ToOrdinal(CivilOfDay(n)) == n + 1
  {
    YearSearchOrdinal(n, 1);
  }

  /** Different days give different dates. */
  lemma CivilInjective(a: nat, b: nat)
    requires CivilOfDay(a) == CivilOfDay(b)
    ensures a == b
  {
    CivilRoundTrip(a);
    CivilRoundTrip(b);
  }

  /** Strict lexicographic order on (year, month, day). */
  predicate DateLess(a: Date, b: Date)
  {
    a.year < b.year
    || (a.year == b.year && a.month < b.month)
    || (a.year == b.year && a.month == b.month && a.day < b.day)
  }

  lemma {:induction false} DaysBeforeYearMonotone(y1: nat, y2: nat)
    requires 1 <= y1 <= y2
    ensures DaysBeforeYear(y1) <= DaysBeforeYear(y2)
    decreases y2 - y1
  {
    if y1 < y2 {
      YearStep(y1);
      DaysBeforeYearMonotone(y1 + 1, y2);
    }
  }

  lemma MonthsBeforeMonotone(y: nat, m1: nat, m2: nat)
    requires 1 <= m1 < m2 <= 12
    ensures DaysBeforeMonth(y, m1) + DaysInMonth(y, m1) <= DaysBeforeMonth(y, m2)
  {
  }

  lemma DayInsideYear(d: Date)
    requires ValidDate(d)
    ensures DaysBeforeMonth(d.year, d.month) + d.day <= DaysInYear(d.year)
  {
  }

  /** Python's ordinal respects calendar order, and only equal dates share an ordinal. */
  lemma OrdinalMonotone(a: Date, b: Date)
    requires ValidDate(a) && ValidDate(b)
    ensures DateLess(a, b) ==> ToOrdinal(a) < ToOrdinal(b)
  {
    if a.year < b.year {
      DayInsideYear(a);
      YearStep(a.year);
      DaysBeforeYearMonotone(a.year + 1, b.year);
    } else if a.year == b.year && a.month < b.month {
      MonthsBeforeMonotone(a.year, a.month, b.month);
    }
  }

  /** Later days give later dates. */
  lemma CivilMonotone(a: nat, b: nat)
    requires a < b
    ensures DateLess(CivilOfDay(a), CivilOfDay(b))
  {
    CivilRoundTrip(a);
    CivilRoundTrip(b);
    OrdinalMonotone(CivilOfDay(a), CivilOfDay(b));
    OrdinalMonotone(CivilOfDay(b), CivilOfDay(a));
  }

  /** The seconds since the epoch of an instant (what `%S` and coarser fields are read from). */
  function SecondsOf(t: Instant): nat
  {
    t / MicrosPerSecond
  }

  /** The index of the calendar minute an instant falls in. */
  function MinuteIndex(t: Instant): nat
  {
    SecondsOf(t) / 60
  }

  /** The index of the day an instant falls in (day 0 is 0001-01-01). */
  function DayIndex(t: Instant): nat
  {
    MinuteIndex(t) / 60 / 24
  }

  /** The calendar fields of an instant, as `datetime` reports them. */
  function Fields(t: Instant): (f: DateTime)
    ensures ValidDate(f.date)
    ensures f.hour < 24 && f.minute < 60 && f.second < 60 && f.micro < MicrosPerSecond
  {
    var mins := MinuteIndex(t);
    DateTime(CivilOfDay(mins / 60 / 24), mins / 60 % 24, mins % 60, SecondsOf(t) % 60, t % MicrosPerSecond)
  }

  /** The partition key of a minute: the fields a `year=/month=/day=/hour=/minute=` path shows. */
  datatype MinuteKey = MinuteKey(date: Date, hour: nat, minute: nat)

  function KeyOfMinute(k: nat): (key: MinuteKey)
    ensures ValidDate(key.date) && key.hour < 24 && key.minute < 60
  {
    MinuteKey(CivilOfDay(k / 60 / 24), k / 60 % 24, k % 60)
  }

  function KeyOf(t: Instant): (key: MinuteKey)
    ensures key.date == Fields(t).date && key.hour == Fields(t).hour && key.minute == Fields(t).minute
  {
    KeyOfMinute(MinuteIndex(t))
  }

  predicate KeyLess(a: MinuteKey, b: MinuteKey)
  {
    DateLess(a.date, b.date)
    || (a.date == b.date && a.hour < b.hour)
    || (a.date == b.date && a.hour == b.hour && a.minute < b.minute)
  }

  /** Later minutes have strictly greater keys. */
  lemma KeyMonotone(k1: nat, k2: nat)
    requires k1 < k2
    ensures KeyLess(KeyOfMinute(k1), KeyOfMinute(k2))
  {
    var h1, h2 := k1 / 60, k2 / 60;
    assert h1 <= h2;
    var d1, d2 := h1 / 24, h2 / 24;
    assert d1 <= d2;
    if d1 < d2 {
      CivilMonotone(d1, d2);
    } else if h1 == h2 {
      assert k1 % 60 < k2 % 60;
    } else {
      assert h1 % 24 < h2 % 24;
    }
  }

  /** Two instants have the same partition key exactly when they fall in the same minute. */
  lemma SameKeyIffSameMinute(t1: Instant, t2: Instant)
    ensures KeyOf(t1) == KeyOf(t2) <==> MinuteIndex(t1) == MinuteIndex(t2)
  {
    var k1, k2 := MinuteIndex(t1), MinuteIndex(t2);
    if k1 < k2 {
      KeyMonotone(k1, k2);
    } else if k2 < k1 {
      KeyMonotone(k2, k1);
    }
  }

  /** Advancing the cursor by one minute moves it to the next minute index. */
  lemma NextMinute(t: Instant)
    ensures MinuteIndex(t + MicrosPerMinute) == MinuteIndex(t) + 1
  {
  }

  lemma MulAtLeast(x: int, c: nat)
    requires 1 <= x
    ensures c <= x * c
  {
    if x > 1 {
      MulAtLeast(x - 1, c);
      assert x * c == (x - 1) * c + c;
    }
  }

  /** Quotient and remainder are the only such pair. */
  lemma DivModUnique(a: int, c: nat, q: int, r: int)
    requires 0 <= r < c && a == q * c + r
    ensures a / c == q && a % c == r
  {
    var q', r' := a / c, a % c;
    assert a == q' * c + r';
    assert (q - q') * c == r' - r;
    if q > q' {
      MulAtLeast(q - q', c);
      assert false;
    } else if q' > q {
      MulAtLeast(q' - q, c);
      assert false;
    }
  }

  /** Taking `k` multiples of `c` away lowers the quotient by `k` and keeps the remainder. */
  lemma DivShift(a: nat, k: nat, c: nat)
    requires 0 < c && k * c <= a
    ensures (a - k * c) / c == a / c - k && (a - k * c) % c == a % c
  {
    var q, r := a / c, a % c;
    assert a == q * c + r;
    assert a - k * c == (q - k) * c + r;
    DivModUnique(a - k * c, c, q - k, r);
  }

  lemma SecondsDaysEarlier(t: Instant, k: nat)
    requires k * MicrosPerDay <= t
    ensures SecondsOf(t - k * MicrosPerDay) == SecondsOf(t) - k * SecondsPerDay
    ensures (t - k * MicrosPerDay) % MicrosPerSecond == t % MicrosPerSecond
  {
    DivShift(t, k * SecondsPerDay, MicrosPerSecond);
  }

  lemma MinutesDaysEarlier(s: nat, k: nat)
    requires k * SecondsPerDay <= s
    ensures (s - k * SecondsPerDay) / 60 == s / 60 - k * 1440
    ensures (s - k * SecondsPerDay) % 60 == s % 60
  {
    DivShift(s, k * 1440, 60);
  }

  lemma HoursDaysEarlier(m: nat, k: nat)
    requires k * 1440 <= m
    ensures (m - k * 1440) % 60 == m % 60
    ensures (m - k * 1440) / 60 % 24 == m / 60 % 24
    ensures (m - k * 1440) / 60 / 24 == m / 60 / 24 - k
  {
    DivShift(m, k * 24, 60);
    DivShift(m / 60, k, 24);
  }

  /** Going back `k` whole days moves the date back `k` days and keeps the clock time. */
  lemma FieldsDaysEarlier(t: Instant, k: nat)
    requires k * MicrosPerDay <= t
    ensures k <= DayIndex(t)
    ensures var f := Fields(t);
      Fields(t - k * MicrosPerDay) == DateTime(CivilOfDay(DayIndex(t) - k), f.hour, f.minute, f.second, f.micro)
  {
    ClockDaysEarlier(t, k);
  }

  lemma ClockDaysEarlier(t: Instant, k: nat)
    requires k * MicrosPerDay <= t
    ensures var f, g := Fields(t), Fields(t - k * MicrosPerDay);
      g.hour == f.hour && g.minute == f.minute && g.second == f.second && g.micro == f.micro
    ensures DayIndex(t - k * MicrosPerDay) == DayIndex(t) - k
  {
    var u := t - k * MicrosPerDay;
    SecondsDaysEarlier(t, k);
    var su, st := SecondsOf(u), SecondsOf(t);
    MinutesDaysEarlier(st, k);
    var mu, mt := MinuteIndex(u), MinuteIndex(t);
    assert mu == mt - k * 1440;
    HoursDaysEarlier(mt, k);
    assert DayIndex(u) == DayIndex(t) - k;
  }
}
