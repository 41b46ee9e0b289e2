/**
 * The day alignment behind the yearly chart: every day of the current year gets the
 * count of the first point, in each year's series, that falls on the same month and day,
 * so last year's counts line up with this year's calendar. The plotting itself is not
 * modelled.
 */
module Grapher {
  import opened Wrappers
  import opened Calendar
  import opened Models

  /** Same month and day, whatever the years. */
  predicate SameCalendarDay(a: Date, b: Date) {
    a.month == b.month && a.day == b.day
  }

  /**
   * `get_count_for`: the count of the first point on the same month and day as `day`, or
   * `None` when no point is.
   */
  function GetCountFor(day: Date, data: CounterData): (r: Option<int>)
    ensures r.None? <==> forall i :: 0 <= i < |data| ==> !SameCalendarDay(data[i].date, day)
    ensures r.Some? ==> exists i :: 0 <= i < |data| && SameCalendarDay(data[i].date, day) && r.value == data[i].count &&
                                    forall j :: 0 <= j < i ==> !SameCalendarDay(data[j].date, day)
  {
    if data == [] then None
    else if SameCalendarDay(data[0].date, day) then Some(data[0].count)
    else
      var r := GetCountFor(day, data[1..]);
      assert forall j :: 1 <= j < |data| ==> data[j] == data[1..][j - 1];
      if r.Some? then
        var i :| 0 <= i < |data[1..]| && SameCalendarDay(data[1..][i].date, day) && r.value == data[1..][i].count &&
                 forall j :: 0 <= j < i ==> !SameCalendarDay(data[1..][j].date, day);
        assert data[i + 1] == data[1..][i];
        r
      else r
  }

  /** The year of the queried day plays no part in the lookup. */
  lemma {:induction false} YearIgnored(day: Date, other: Date, data: CounterData)
    requires SameCalendarDay(day, other)
    ensures GetCountFor(day, data) == GetCountFor(other, data)
    decreases |data|
  {
    if data != [] {
      YearIgnored(day, other, data[1..]);
    }
  }

  /**
   * A point of another year lands on the same month and day of any year: the first point
   * on its calendar day supplies the value shown for that day.
   */
  lemma PointAlignsOnCalendarDay(data: CounterData, i: nat, year: int)
    requires i < |data|
    requires forall j :: 0 <= j < i ==> !SameCalendarDay(data[j].date, data[i].date)
    ensures GetCountFor(Date(year, data[i].date.month, data[i].date.day), data) == Some(data[i].count)
  {
    var day := Date(year, data[i].date.month, data[i].date.day);
    var r := GetCountFor(day, data);
    assert r.Some?;
    var k :| 0 <= k < |data| && SameCalendarDay(data[k].date, day) && r.value == data[k].count &&
             forall j :: 0 <= j < k ==> !SameCalendarDay(data[j].date, day);
    assert k == i;
  }

  /** `n` consecutive days starting at `d`. */
  function DaysFrom(d: Date, n: nat): (r: seq<Date>)
    requires Valid(d)
    ensures |r| == n
    ensures forall i :: 0 <= i < n ==> Valid(r[i]) && Ordinal(r[i]) == Ordinal(d) + i
    decreases n
  {
    if n == 0 then [] else [d] + DaysFrom(NextDay(d), n - 1)
  }

  /** The day with ordinal `DaysBeforeYear(y) + n` lies in year `y` when `1 <= n <= DaysInYear(y)`, and is its `n`-th day. */
  lemma OrdinalInYear(x: Date, y: int, n: int)
    requires Valid(x) && 1 <= n <= DaysInYear(y)
    requires Ordinal(x) == DaysBeforeYear(y) + n
    ensures x.year == y && DayOfYear(x) == n
  {
    var z := x.year;
    if z < y {
      DaysBeforeYearStep(z);
      DaysBeforeYearMonotone(z + 1, y);
    } else if z > y {
      DaysBeforeYearStep(y);
      DaysBeforeYearMonotone(y + 1, z);
    }
  }

  /** `Arrow.range("day", January 1st, December 31st)`: every day of year `y`, in order. */
  function YearDays(y: int): (r: seq<Date>)
    ensures |r| == DaysInYear(y)
    ensures forall i :: 0 <= i < |r| ==> Valid(r[i]) && r[i].year == y && DayOfYear(r[i]) == i + 1
    ensures r[0] == Date(y, 1, 1) && r[|r| - 1] == Date(y, 12, 31)
  {
    var r := DaysFrom(Date(y, 1, 1), DaysInYear(y));
    forall i | 0 <= i < |r|
      ensures r[i].year == y && DayOfYear(r[i]) == i + 1
    {
      OrdinalInYear(r[i], y, i + 1);
    }
    var last := r[|r| - 1];
    assert DayOfYear(last) == DaysInYear(y);
    assert last.month == 12 by {
      if last.month < 12 {
        DaysBeforeMonthMonotone(y, last.month, 12);
        DaysBeforeMonthStep(y, 12);
      }
    }
    DaysBeforeMonthStep(y, 12);
    r
  }

  /** One value per day: `[get_count_for(day, data) for day in days]`. */
  function ValuesFor(days: seq<Date>, data: CounterData): (r: seq<Option<int>>)
    ensures |r| == |days| && forall i :: 0 <= i < |days| ==> r[i] == GetCountFor(days[i], data)
  {
    seq(|days|, i requires 0 <= i < |days| => GetCountFor(days[i], data))
  }

  /** What the yearly chart is drawn from. */
  datatype YearlyValues = YearlyValues(
    days: seq<Date>,
    previousYear: seq<Option<int>>,
    currentYear: seq<Option<int>>,
    cutoffDayIndex: int)

  /**
   * The values of `generate_yearly_plot`: an `IndexError` when either series is empty
   * (the first point of each is read); otherwise the days of the current series' first
   * year, both series' values aligned on them, and the day-of-year index, counted from 0,
   * of the current series' last point.
   */
  function YearlyPlotValues(previous: CounterData, current: CounterData): (r: Outcome<YearlyValues>)
    requires forall i :: 0 <= i < |current| ==> Valid(current[i].date)
    ensures r.Err? <==> previous == [] || current == []
    ensures r.Err? ==> r.error == IndexError
    ensures r.Ok? ==>
      var v := r.value;
      var y := current[0].date.year;
      v.days == YearDays(y) &&
      |v.days| == |v.previousYear| == |v.currentYear| == DaysInYear(y) &&
      v.days[0] == Date(y, 1, 1) && v.days[|v.days| - 1] == Date(y, 12, 31) &&
      (forall i :: 0 <= i < |v.days| ==>
         v.previousYear[i] == GetCountFor(v.days[i], previous) && v.currentYear[i] == GetCountFor(v.days[i], current)) &&
      0 <= v.cutoffDayIndex < DaysInYear(current[|current| - 1].date.year) &&
      v.cutoffDayIndex == DayOfYear(current[|current| - 1].date) - 1
  {
    if previous == [] || current == [] then Err(IndexError)
    else
      var days := YearDays(current[0].date.year);
      Ok(YearlyValues(days, ValuesFor(days, previous), ValuesFor(days, current), DayOfYear(current[|current| - 1].date) - 1))
  }

  /**
   * When the current series ends in the year it starts in, the cutoff index picks that last
   * day among the chart's days, and the current values hold a count for it.
   */
  lemma CutoffIndexesLastDay(previous: CounterData, current: CounterData)
    requires forall i :: 0 <= i < |current| ==> Valid(current[i].date)
    requires previous != [] && current != []
    requires current[|current| - 1].date.year == current[0].date.year
    ensures var v := YearlyPlotValues(previous, current).value;
      v.days[v.cutoffDayIndex] == current[|current| - 1].date && v.currentYear[v.cutoffDayIndex].Some?
  {
    var v := YearlyPlotValues(previous, current).value;
    var last := current[|current| - 1].date;
    var day := v.days[v.cutoffDayIndex];
    assert Ordinal(day) == Ordinal(last);
    OrdinalMonotone(day, last);
    assert SameCalendarDay(current[|current| - 1].date, day);
  }
}
