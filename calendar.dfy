/**
 * Calendar dates with the semantics of Python's `datetime.date`, which every part of the
 * bot uses: the proleptic Gregorian calendar, `toordinal()`, `weekday()`, chronological
 * comparison, `+`/`-` of a `timedelta` in days, `timetuple().tm_yday` and
 * `isocalendar().week`.
 */
module Calendar {

  /** A calendar date as (year, month, day); `Valid` says it names an existing day. */
  datatype Date = Date(year: int, month: int, day: int)

  predicate IsLeap(y: int) {
    y % 4 == 0 && (y % 100 != 0 || y % 400 == 0)
  }

  function DaysInMonth(y: int, m: int): (n: int)
    requires 1 <= m <= 12
    ensures 28 <= n <= 31
    ensures n == 29 <==> m == 2 && IsLeap(y)
  {
    if m == 2 then (if IsLeap(y) then 29 else 28)
    else if m == 4 || m == 6 || m == 9 || m == 11 then 30
    else 31
  }

  predicate Valid(d: Date) {
    1 <= d.month <= 12 && 1 <= d.day <= DaysInMonth(d.year, d.month)
  }

  /** The years Python's `date` can represent (`MINYEAR` to `MAXYEAR`). */
  predicate InPythonRange(d: Date) {
    Valid(d) && 1 <= d.year <= 9999
  }

  function DaysInYear(y: int): int {
    if IsLeap(y) then 366 else 365
  }

  /** Number of days of year `y` before the first of month `m` (Python's `_days_before_month`). */
  function DaysBeforeMonth(y: int, m: int): int
    requires 1 <= m <= 12
  {
    var table := [0, 31, 59, 90, 120, 151, 181, 212, 243, 273, 304, 334];
    table[m - 1] + (if m > 2 && IsLeap(y) then 1 else 0)
  }

  /** Month `m` ends where month `m + 1` starts; December ends the year. */
  lemma DaysBeforeMonthStep(y: int, m: int)
    requires 1 <= m <= 12
    ensures DaysBeforeMonth(y, m) + DaysInMonth(y, m)
            == if m == 12 then DaysInYear(y) else DaysBeforeMonth(y, m + 1)
  {
  }

  /** Day of the year, 1 for January 1st (Python's `timetuple().tm_yday`). */
  function DayOfYear(d: Date): (n: int)
    requires Valid(d)
    ensures 1 <= n <= DaysInYear(d.year)
  {
    DaysBeforeMonthStep(d.year, d.month);
    DaysBeforeMonth(d.year, d.month) + d.day
  }

  /** Number of days before January 1st of year `y` (Python's `_days_before_year`). */
  function DaysBeforeYear(y: int): int {
    var x := y - 1;
    x * 365 + x / 4 - x / 100 + x / 400
  }

  /** Python's `date.toordinal()`: January 1st of year 1 is day 1. */
  function Ordinal(d: Date): int
    requires Valid(d)
  {
    DaysBeforeYear(d.year) + DayOfYear(d)
  }

  /** Python's `date.weekday()`: Monday is 0 and Sunday is 6. */
  function Weekday(d: Date): (w: int)
    requires Valid(d)
    ensures 0 <= w <= 6
  {
    (Ordinal(d) + 6) % 7
  }

  /** Python's date comparison `a <= b`: lexicographic on (year, month, day). */
  predicate DateLe(a: Date, b: Date) {
    a.year < b.year ||
    (a.year == b.year && (a.month < b.month || (a.month == b.month && a.day <= b.day)))
  }

  lemma DivStep(x: int)
    ensures (x + 1) / 4 - x / 4 == (if (x + 1) % 4 == 0 then 1 else 0)
    ensures (x + 1) / 100 - x / 100 == (if (x + 1) % 100 == 0 then 1 else 0)
    ensures (x + 1) / 400 - x / 400 == (if (x + 1) % 400 == 0 then 1 else 0)
  {
  }

  /** A year is as long as the distance between its January 1st and the next. */
  lemma DaysBeforeYearStep(y: int)
    ensures DaysBeforeYear(y + 1) == DaysBeforeYear(y) + DaysInYear(y)
  {
    var x := y - 1;
    DivStep(x);
    LeapDivisibility(y);
    assert DaysBeforeYear(y + 1) - DaysBeforeYear(y) == 365 + (y / 4 - x / 4) - (y / 100 - x / 100) + (y / 400 - x / 400);
  }

  lemma LeapDivisibility(y: int)
    ensures y % 400 == 0 ==> y % 100 == 0
    ensures y % 100 == 0 ==> y % 4 == 0
  {
    if y % 400 == 0 {
      CenturyOfMultiple(y / 400, y);
    }
    if y % 100 == 0 {
      LeapOfMultiple(y / 100, y);
    }
  }

  lemma CenturyOfMultiple(q: int, y: int)
    requires y == 400 * q
    ensures y % 100 == 0
  {
    assert y == 100 * (4 * q);
  }

  lemma LeapOfMultiple(q: int, y: int)
    requires y == 100 * q
    ensures y % 4 == 0
  {
    assert y == 4 * (25 * q);
  }

  /** Python's `d + timedelta(days=1)`. */
  function NextDay(d: Date): (r: Date)
    requires Valid(d)
    ensures Valid(r) && Ordinal(r) == Ordinal(d) + 1
  {
    DaysBeforeMonthStep(d.year, d.month);
    DaysBeforeYearStep(d.year);
    if d.day < DaysInMonth(d.year, d.month) then Date(d.year, d.month, d.day + 1)
    else if d.month < 12 then Date(d.year, d.month + 1, 1)
    else Date(d.year + 1, 1, 1)
  }

  /** Python's `d - timedelta(days=1)`. */
  function PrevDay(d: Date): (r: Date)
    requires Valid(d)
    ensures Valid(r) && Ordinal(r) == Ordinal(d) - 1
  {
    DaysBeforeYearStep(d.year - 1);
    if d.day > 1 then Date(d.year, d.month, d.day - 1)
    else if d.month > 1 then
      DaysBeforeMonthStep(d.year, d.month - 1);
      Date(d.year, d.month - 1, DaysInMonth(d.year, d.month - 1))
    else Date(d.year - 1, 12, 31)
  }

  /** Python's `d + timedelta(days=k)` for any integer `k`. */
  function AddDays(d: Date, k: int): (r: Date)
    requires Valid(d)
    ensures Valid(r) && Ordinal(r) == Ordinal(d) + k
    decreases if k >= 0 then k else -k
  {
    if k == 0 then d
    else if k > 0 then AddDays(NextDay(d), k - 1)
    else AddDays(PrevDay(d), k + 1)
  }

  /** `d - timedelta(days=d.weekday())`: the Monday starting the week of `d`. */
  function MondayOf(d: Date): (r: Date)
    requires Valid(d)
    ensures Valid(r) && Weekday(r) == 0
    ensures Ordinal(d) - Ordinal(r) == Weekday(d)
  {
    var r := AddDays(d, -Weekday(d));
    BackToMonday(Ordinal(d));
    r
  }

  /** A week earlier is the same weekday. */
  lemma WeekdayWeekEarlier(d: Date)
    requires Valid(d)
    ensures Weekday(AddDays(d, -7)) == Weekday(d)
  {
    WeekEarlierMod(Ordinal(d) + 6);
  }

  lemma WeekEarlierMod(n: int)
    ensures (n - 7) % 7 == n % 7
  {
    assert n - 7 == 7 * (n / 7 - 1) + n % 7;
  }

  lemma BackToMonday(n: int)
    ensures (n - (n + 6) % 7 + 6) % 7 == 0
  {
    var q := (n + 6) / 7;
    assert n + 6 == 7 * q + (n + 6) % 7;
    assert n - (n + 6) % 7 + 6 == 7 * q;
  }

  lemma {:induction false} DaysBeforeYearMonotone(y1: int, y2: int)
    requires y1 <= y2
    ensures DaysBeforeYear(y1) + (y2 - y1) * 365 <= DaysBeforeYear(y2)
    decreases y2 - y1
  {
    if y1 < y2 {
      DaysBeforeYearMonotone(y1, y2 - 1);
      DaysBeforeYearStep(y2 - 1);
    }
  }

  lemma {:induction false} DaysBeforeMonthMonotone(y: int, m1: int, m2: int)
    requires 1 <= m1 < m2 <= 12
    ensures DaysBeforeMonth(y, m1) + DaysInMonth(y, m1) <= DaysBeforeMonth(y, m2)
    decreases m2 - m1
  {
    DaysBeforeMonthStep(y, m1);
    if m1 + 1 < m2 {
      DaysBeforeMonthMonotone(y, m1 + 1, m2);
    }
  }

  /** Chronological comparison agrees with comparing ordinals. */
  lemma OrdinalMonotone(a: Date, b: Date)
    requires Valid(a) && Valid(b)
    ensures DateLe(a, b) <==> Ordinal(a) <= Ordinal(b)
    ensures a == b <==> Ordinal(a) == Ordinal(b)
  {
    forall a: Date, b: Date | Valid(a) && Valid(b) && !DateLe(b, a)
      ensures Ordinal(a) < Ordinal(b)
    {
      if a.year < b.year {
        DaysBeforeYearMonotone(a.year + 1, b.year);
        DaysBeforeYearStep(a.year);
      } else if a.month < b.month {
        DaysBeforeMonthMonotone(a.year, a.month, b.month);
      }
    }
  }

  /** The Monday closest to day `n` (ties impossible): the start of the week holding `n + 3`. */
  function NearestMonday(n: int): int {
    var weekday := (n + 6) % 7;
    if weekday > 3 then n - weekday + 7 else n - weekday
  }

  lemma NearestMondayFacts(n: int)
    ensures (NearestMonday(n) + 6) % 7 == 0
    ensures n - 3 <= NearestMonday(n) <= n + 3
  {
  }

  /** Two Mondays are a whole number of weeks apart. */
  lemma MondaysApart(a: int, b: int)
    requires (a + 6) % 7 == 0 && (b + 6) % 7 == 0
    ensures (b - a) % 7 == 0
  {
    var p, q := (a + 6) / 7, (b + 6) / 7;
    assert a == 7 * p - 6 && b == 7 * q - 6;
    assert b - a == 7 * (q - p);
  }

  /** The ordinal of the Monday starting ISO week 1 of year `y` (Python's `_isoweek1monday`). */
  function IsoWeek1Monday(y: int): int {
    NearestMonday(DaysBeforeYear(y) + 1)
  }

  /** Python's `date.isocalendar().week`. */
  function IsoWeek(d: Date): int
    requires Valid(d)
  {
    IsoWeekNumber(Ordinal(d), IsoWeek1Monday(d.year - 1), IsoWeek1Monday(d.year), IsoWeek1Monday(d.year + 1))
  }

  /**
   * The week computation of Python's `isocalendar` for the day with ordinal `n`, given week 1's
   * Monday of the date's year (`monday`), of the year before and of the year after.
   */
  function IsoWeekNumber(n: int, mondayBefore: int, monday: int, mondayAfter: int): int {
    var week := (n - monday) / 7;
    if week < 0 then (n - mondayBefore) / 7 + 1
    else if week >= 52 && n >= mondayAfter then 1
    else week + 1
  }

  /** Which of three consecutive ISO years holds day `n` of a calendar year `[first, last]`. */
  lemma IsoWeekNumberSelects(n: int, first: int, last: int, w0: int, w1: int, w2: int, w3: int)
    returns (lo: int, hi: int)
    requires first <= n <= last && 364 <= last - first
    requires first - 3 <= w1 <= first + 3 && last - 2 <= w2 <= last + 4
    requires w1 - w0 >= 364 && w2 - w1 >= 364 && w3 - w2 >= 364
    ensures (lo, hi) == (w0, w1) || (lo, hi) == (w1, w2) || (lo, hi) == (w2, w3)
    ensures lo <= n < hi
    ensures IsoWeekNumber(n, w0, w1, w2) == (n - lo) / 7 + 1
  {
    if n < w1 {
      lo, hi := w0, w1;
    } else if n >= w2 {
      lo, hi := w2, w3;
    } else {
      lo, hi := w1, w2;
    }
  }

  /** ISO years are 52 or 53 weeks long. */
  lemma IsoYearLength(y: int)
    ensures IsoWeek1Monday(y + 1) - IsoWeek1Monday(y) == 364 ||
            IsoWeek1Monday(y + 1) - IsoWeek1Monday(y) == 371
  {
    var a, b := IsoWeek1Monday(y), IsoWeek1Monday(y + 1);
    NearestMondayFacts(DaysBeforeYear(y) + 1);
    NearestMondayFacts(DaysBeforeYear(y + 1) + 1);
    DaysBeforeYearStep(y);
    MondaysApart(a, b);
    var k := (b - a) / 7;
    assert b - a == 7 * k;
  }

  /** Where the week-1 Mondays of the years around `y` lie relative to year `y`. */
  lemma IsoMondaysAround(y: int)
    ensures var first := DaysBeforeYear(y) + 1;
            var last := DaysBeforeYear(y) + DaysInYear(y);
            && 364 <= last - first
            && first - 3 <= IsoWeek1Monday(y) <= first + 3
            && last - 2 <= IsoWeek1Monday(y + 1) <= last + 4
            && IsoWeek1Monday(y) - IsoWeek1Monday(y - 1) >= 364
            && IsoWeek1Monday(y + 1) - IsoWeek1Monday(y) >= 364
            && IsoWeek1Monday(y + 2) - IsoWeek1Monday(y + 1) >= 364
  {
    NearestMondayFacts(DaysBeforeYear(y) + 1);
    NearestMondayFacts(DaysBeforeYear(y + 1) + 1);
    IsoYearLength(y - 1);
    IsoYearLength(y);
    IsoYearLength(y + 1);
    DaysBeforeYearStep(y);
  }

  /** The ISO year `iy` that contains `d` and the week number counted from its week 1. */
  lemma IsoWeekWithin(d: Date) returns (iy: int)
    requires Valid(d)
    ensures IsoWeek1Monday(iy) <= Ordinal(d) < IsoWeek1Monday(iy + 1)
    ensures IsoWeek(d) == (Ordinal(d) - IsoWeek1Monday(iy)) / 7 + 1
  {
    var y := d.year;
    IsoMondaysAround(y);
    var w0, w1, w2, w3 := IsoWeek1Monday(y - 1), IsoWeek1Monday(y), IsoWeek1Monday(y + 1), IsoWeek1Monday(y + 2);
    var n := Ordinal(d);
    assert DaysBeforeYear(y) + 1 <= n <= DaysBeforeYear(y) + DaysInYear(y);
    var lo, hi := IsoWeekNumberSelects(n, DaysBeforeYear(y) + 1, DaysBeforeYear(y) + DaysInYear(y), w0, w1, w2, w3);
    assert IsoWeek(d) == IsoWeekNumber(n, w0, w1, w2);
    if lo == w0 {
      iy := y - 1;
    } else if lo == w1 {
      iy := y;
    } else {
      iy := y + 1;
    }
  }

  lemma IsoWeek1MondayMonotone(y1: int, y2: int)
    requires y1 < y2
    ensures IsoWeek1Monday(y1) + 364 <= IsoWeek1Monday(y2)
    decreases y2 - y1
  {
    IsoYearLength(y1);
    if y1 + 1 < y2 {
      IsoWeek1MondayMonotone(y1 + 1, y2);
    }
  }

  /** Within one ISO year, the week number of day `n` differs from that of day `n - 1` iff `n` is a Monday. */
  lemma WeekStep(n: int, monday: int)
    requires (monday + 6) % 7 == 0
    ensures (n - 1 - monday) / 7 == (n - monday) / 7 <==> (n + 6) % 7 != 0
  {
    var p := (monday + 6) / 7;
    assert monday == 7 * p - 6;
    assert n - monday == (n + 6) - 7 * p;
    assert (n - monday) / 7 == (n + 6) / 7 - p;
    assert (n - 1 - monday) / 7 == (n + 5) / 7 - p;
  }

  /** The arithmetic core of `ConsecutiveIsoWeeks`, on the week-1 Mondays of the ISO years of the two days. */
  lemma ConsecutiveWeekNumbers(m: int, n: int, w: int, wNext: int, v: int, vNext: int)
    requires m + 1 == n && (w + 6) % 7 == 0
    requires w <= n < wNext && v <= m < vNext
    requires (v == w && vNext == wNext) || (vNext <= w && w - v >= 364)
    ensures (m - v) / 7 == (n - w) / 7 <==> (n + 6) % 7 != 0
  {
    if v == w {
      WeekStep(n, w);
    }
  }

  /** Consecutive days lie in the same ISO year, or the second one starts the next ISO year. */
  lemma IsoYearsOfConsecutiveDays(m: int, iy': int, n: int, iy: int)
    requires m + 1 == n
    requires IsoWeek1Monday(iy) <= n < IsoWeek1Monday(iy + 1)
    requires IsoWeek1Monday(iy') <= m < IsoWeek1Monday(iy' + 1)
    ensures || iy' == iy
            || (IsoWeek1Monday(iy' + 1) <= IsoWeek1Monday(iy) && IsoWeek1Monday(iy) - IsoWeek1Monday(iy') >= 364)
  {
    if iy' < iy {
      EarlierIsoYear(iy', iy);
    } else if iy' > iy {
      EarlierIsoYear(iy, iy');
    }
  }

  lemma EarlierIsoYear(y1: int, y2: int)
    requires y1 < y2
    ensures IsoWeek1Monday(y1 + 1) <= IsoWeek1Monday(y2)
    ensures IsoWeek1Monday(y2) - IsoWeek1Monday(y1) >= 364
  {
    if y1 + 1 < y2 {
      IsoWeek1MondayMonotone(y1 + 1, y2);
    }
    IsoYearLength(y1);
  }

  /** Two consecutive days share an ISO week number exactly when the second is not a Monday. */
  lemma ConsecutiveIsoWeeks(yesterday: Date, today: Date)
    requires Valid(yesterday) && Valid(today) && Ordinal(yesterday) + 1 == Ordinal(today)
    ensures IsoWeek(yesterday) == IsoWeek(today) <==> (Ordinal(today) + 6) % 7 != 0
  {
    var m, n := Ordinal(yesterday), Ordinal(today);
    var iy := IsoWeekWithin(today);
    var iy' := IsoWeekWithin(yesterday);
    IsoYearsOfConsecutiveDays(m, iy', n, iy);
    WeekNumbersOfConsecutiveDays(m, iy', n, iy);
  }

  /** `ConsecutiveIsoWeeks` for days `m` and `n` lying in ISO years `iy'` and `iy`. */
  lemma WeekNumbersOfConsecutiveDays(m: int, iy': int, n: int, iy: int)
    requires m + 1 == n
    requires IsoWeek1Monday(iy) <= n < IsoWeek1Monday(iy + 1)
    requires IsoWeek1Monday(iy') <= m < IsoWeek1Monday(iy' + 1)
    requires || iy' == iy
             || (IsoWeek1Monday(iy' + 1) <= IsoWeek1Monday(iy) && IsoWeek1Monday(iy) - IsoWeek1Monday(iy') >= 364)
    ensures (m - IsoWeek1Monday(iy')) / 7 == (n - IsoWeek1Monday(iy)) / 7 <==> (n + 6) % 7 != 0
  {
    NearestMondayFacts(DaysBeforeYear(iy) + 1);
    ConsecutiveWeekNumbers(m, n, IsoWeek1Monday(iy), IsoWeek1Monday(iy + 1),
                           IsoWeek1Monday(iy'), IsoWeek1Monday(iy' + 1));
  }

  /**
   * The day before `today` has the same ISO week number as `today` exactly when `today`
   * is not a Monday: consecutive days share a week unless a new week starts.
   */
  lemma SameIsoWeekAsPrevDay(today: Date)
    requires Valid(today)
    ensures IsoWeek(PrevDay(today)) == IsoWeek(today) <==> Weekday(today) != 0
  {
    ConsecutiveIsoWeeks(PrevDay(today), today);
  }
}
