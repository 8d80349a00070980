/**
 * Python `datetime.datetime` values as the extractors and formatters use them: the
 * proleptic Gregorian calendar, the tuple order of comparison, and the one-day step
 * `dt += datetime.timedelta(days=1)`.
 */
module Calendar {
  import opened Wrappers

  /** A datetime without microseconds (every value in this system has none). */
  datatype DateTime = DateTime(year: int, month: int, day: int, hour: int, minute: int, second: int)

  /** `datetime.MAXYEAR`. */
  const MaxYear := 9999

  predicate IsLeapYear(y: int) {
    y % 4 == 0 && (y % 100 != 0 || y % 400 == 0)
  }

  function DaysInMonth(y: int, m: int): (n: int)
    requires 1 <= m <= 12
    ensures 28 <= n <= 31
  {
    if m == 2 then (if IsLeapYear(y) then 29 else 28)
    else if m == 4 || m == 6 || m == 9 || m == 11 then 30
    else 31
  }

  /** A well-formed date and time of day (years are not bounded above here). */
  predicate Valid(t: DateTime) {
    && 1 <= t.year
    && 1 <= t.month <= 12
    && 1 <= t.day <= DaysInMonth(t.year, t.month)
    && 0 <= t.hour < 24 && 0 <= t.minute < 60 && 0 <= t.second < 60
  }

  /**
   * `datetime.datetime(y, m, d, hh, mm, ss)`: the value, or `None` where Python raises
   * `ValueError` (a field out of range, or a year outside 1..9999).
   */
  function Make(y: int, m: int, d: int, hh: int, mm: int, ss: int): (r: Option<DateTime>)
    ensures r.Some? <==> 1 <= y <= MaxYear && Valid(DateTime(y, m, d, hh, mm, ss))
    ensures r.Some? ==> r.value == DateTime(y, m, d, hh, mm, ss)
  {
    var t := DateTime(y, m, d, hh, mm, ss);
    if y <= MaxYear && Valid(t) then Some(t) else None
  }

  /** Midday of the given date, the time every dispatcher and extractor works at. */
  function Noon(y: int, m: int, d: int): DateTime {
    DateTime(y, m, d, 12, 0, 0)
  }

  predicate AtNoon(t: DateTime) {
    t.hour == 12 && t.minute == 0 && t.second == 0
  }

  predicate SameTimeOfDay(a: DateTime, b: DateTime) {
    a.hour == b.hour && a.minute == b.minute && a.second == b.second
  }

  /** `a < b` for datetimes: lexicographic on (year, month, day, hour, minute, second). */
  predicate Before(a: DateTime, b: DateTime) {
    || a.year < b.year
    || (a.year == b.year && a.month < b.month)
    || (a.year == b.year && a.month == b.month && a.day < b.day)
    || (a.year == b.year && a.month == b.month && a.day == b.day && a.hour < b.hour)
    || (a.year == b.year && a.month == b.month && a.day == b.day && a.hour == b.hour && a.minute < b.minute)
    || (a.year == b.year && a.month == b.month && a.day == b.day && a.hour == b.hour && a.minute == b.minute
        && a.second < b.second)
  }

  /** `a <= b` for datetimes. */
  predicate NotAfter(a: DateTime, b: DateTime) {
    a == b || Before(a, b)
  }

  /** `t + timedelta(days=1)`: the same time of day on the following calendar day. */
  function NextDay(t: DateTime): (r: DateTime)
    requires Valid(t)
    ensures Valid(r) && SameTimeOfDay(r, t) && Before(t, r)
  {
    if t.day < DaysInMonth(t.year, t.month) then t.(day := t.day + 1)
    else if t.month < 12 then t.(month := t.month + 1, day := 1)
    else t.(year := t.year + 1, month := 1, day := 1)
  }

  /**
   * The step is a successor: no datetime with the same time of day lies strictly
   * between `t` and `NextDay(t)`.
   */
  lemma NextDayImmediate(t: DateTime, x: DateTime)
    requires Valid(t) && Valid(x) && SameTimeOfDay(t, x)
    requires Before(t, x)
    ensures NotAfter(NextDay(t), x)
  {
    if t.year == x.year && t.month == x.month {
      assert t.day < x.day <= DaysInMonth(x.year, x.month);
    }
  }

  /**
   * The days that `while dt <= end: ...; dt += timedelta(days=1)` visits when it
   * starts at `start`, in visiting order.
   */
  function DaysFrom(start: DateTime, end: DateTime): (days: seq<DateTime>)
    requires Valid(start)
    decreases end.year + 1 - start.year, 12 - start.month, 31 - start.day
  {
    if NotAfter(start, end) then [start] + DaysFrom(NextDay(start), end) else []
  }

  /**
   * Every visited day is well formed, keeps the start's time of day and lies between
   * `start` and `end`, both inclusive.
   */
  lemma {:induction false} DaysFromWithin(start: DateTime, end: DateTime, i: nat)
    requires Valid(start) && i < |DaysFrom(start, end)|
    ensures var day := DaysFrom(start, end)[i];
      Valid(day) && SameTimeOfDay(day, start) && NotAfter(start, day) && NotAfter(day, end)
    decreases end.year + 1 - start.year, 12 - start.month, 31 - start.day
  {
    var next := NextDay(start);
    assert DaysFrom(start, end) == [start] + DaysFrom(next, end);
    if i > 0 {
      DaysFromWithin(next, end, i - 1);
    }
  }

  /** The walk visits its days in strictly increasing order, so each at most once. */
  lemma {:induction false} DaysFromIncreasing(start: DateTime, end: DateTime, i: nat, j: nat)
    requires Valid(start)
    requires i < j < |DaysFrom(start, end)|
    ensures Before(DaysFrom(start, end)[i], DaysFrom(start, end)[j])
    decreases end.year + 1 - start.year, 12 - start.month, 31 - start.day
  {
    var next := NextDay(start);
    assert DaysFrom(start, end) == [start] + DaysFrom(next, end);
    if i == 0 {
      DaysFromWithin(next, end, j - 1);
    } else {
      DaysFromIncreasing(next, end, i - 1, j - 1);
    }
  }

  /**
   * The walk misses nothing: every datetime with the start's time of day between
   * `start` and `end` (both inclusive) is visited.
   */
  lemma {:induction false} DaysFromComplete(start: DateTime, end: DateTime, x: DateTime)
    requires Valid(start) && Valid(x) && SameTimeOfDay(x, start)
    requires NotAfter(start, x) && NotAfter(x, end)
    ensures x in DaysFrom(start, end)
    decreases end.year + 1 - start.year, 12 - start.month, 31 - start.day
  {
    assert DaysFrom(start, end) == [start] + DaysFrom(NextDay(start), end);
    if x != start {
      NextDayImmediate(start, x);
      DaysFromComplete(NextDay(start), end, x);
    }
  }

  /**
   * A walk between two middays in different years splits at the year end: the days up
   * to 31 December of the first year, then the days from 1 January of the next.
   */
  lemma {:induction false} DaysFromAcrossYearEnd(s: DateTime, e: DateTime)
    requires Valid(s) && Valid(e) && AtNoon(s) && AtNoon(e)
    requires s.year < e.year
    ensures DaysFrom(s, e) == DaysFrom(s, Noon(s.year, 12, 31)) + DaysFrom(Noon(s.year + 1, 1, 1), e)
    decreases 12 - s.month, 31 - s.day
  {
    var dec31 := Noon(s.year, 12, 31);
    var n := NextDay(s);
    assert DaysFrom(s, e) == [s] + DaysFrom(n, e);
    if s == dec31 {
      assert n == Noon(s.year + 1, 1, 1);
      assert DaysFrom(n, dec31) == [];
    } else {
      assert Before(s, dec31);
      assert DaysFrom(s, dec31) == [s] + DaysFrom(n, dec31);
      DaysFromAcrossYearEnd(n, e);
    }
  }
}
