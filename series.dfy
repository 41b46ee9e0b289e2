/**
 * The list functions over one counter's series that both revisions of the bot share
 * word for word: looking up a day, cutting out a date window, and summing the counts.
 */
module Series {
  import opened Wrappers
  import opened Calendar
  import opened Models
  import opened Sums

  /** The index `next(filter(lambda p: p.date == day, data), None)` stops at. */
  function FirstWithDate(data: CounterData, day: Date): (r: Option<nat>)
    ensures r.Some? ==> r.value < |data| && data[r.value].date == day &&
                        forall j :: 0 <= j < r.value ==> data[j].date != day
    ensures r.None? ==> forall j :: 0 <= j < |data| ==> data[j].date != day
  {
    if data == [] then None
    else if data[0].date == day then Some(0)
    else match FirstWithDate(data[1..], day)
      case None => None
      case Some(i) => Some(i + 1)
  }

  /**
   * `get_count_for_day`: the count of the first point dated `day`; `NoDataFoundException`
   * for an empty series and for a series without that day.
   */
  function GetCountForDay(data: CounterData, day: Date): (r: Outcome<int>)
    ensures r.Err? <==> forall j :: 0 <= j < |data| ==> data[j].date != day
    ensures r.Err? ==> r.error == NoDataFound(day)
    ensures r.Ok? ==> exists i :: 0 <= i < |data| && data[i].date == day && r.value == data[i].count &&
                                  forall j :: 0 <= j < i ==> data[j].date != day
  {
    if |data| == 0 then Err(NoDataFound(day))
    else match FirstWithDate(data, day)
      case None => Err(NoDataFound(day))
      case Some(i) => Ok(data[i].count)
  }

  /** Adding points after a day's first occurrence does not change what is found for it. */
  lemma GetCountForDayPrefix(data: CounterData, more: CounterData, day: Date)
    requires GetCountForDay(data, day).Ok?
    ensures GetCountForDay(data + more, day) == GetCountForDay(data, day)
  {
    var i := FirstWithDate(data, day).value;
    assert (data + more)[i] == data[i];
    assert forall j :: 0 <= j < i ==> (data + more)[j] == data[j];
  }

  /** `start <= date <= end` with Python's date comparison. */
  predicate InWindow(d: Date, start: Date, end: Date) {
    DateLe(start, d) && DateLe(d, end)
  }

  /** `a` can be obtained from `b` by deleting elements. */
  predicate IsSubsequence<T(==)>(a: seq<T>, b: seq<T>)
    decreases |b|
  {
    a == [] || (b != [] && if a[0] == b[0] then IsSubsequence(a[1..], b[1..]) else IsSubsequence(a, b[1..]))
  }

  /** `filter_counts_by_date`: the points inside the inclusive window, in their original order. */
  function FilterCountsByDate(data: CounterData, start: Date, end: Date): (r: CounterData)
    ensures forall i :: 0 <= i < |r| ==> InWindow(r[i].date, start, end)
  {
    if data == [] then []
    else
      var rest := FilterCountsByDate(data[1..], start, end);
      if InWindow(data[0].date, start, end) then [data[0]] + rest else rest
  }

  /**
   * The filtered series is a subsequence of the input and keeps every in-window point
   * exactly as often as it occurs: filtering drops only out-of-window points.
   */
  lemma {:induction false} FilterKeepsExactlyInWindow(data: CounterData, start: Date, end: Date)
    ensures IsSubsequence(FilterCountsByDate(data, start, end), data)
    ensures forall p :: multiset(FilterCountsByDate(data, start, end))[p] == if InWindow(p.date, start, end) then multiset(data)[p] else 0
    decreases |data|
  {
    if data != [] {
      var rest := FilterCountsByDate(data[1..], start, end);
      FilterKeepsExactlyInWindow(data[1..], start, end);
      assert data == [data[0]] + data[1..];
      if InWindow(data[0].date, start, end) {
        assert ([data[0]] + rest)[1..] == rest;
      } else {
        assert rest != [] ==> rest[0] != data[0];
      }
    }
  }

  /** Filtering distributes over concatenation. */
  lemma {:induction false} FilterConcat(a: CounterData, b: CounterData, start: Date, end: Date)
    ensures FilterCountsByDate(a + b, start, end) == FilterCountsByDate(a, start, end) + FilterCountsByDate(b, start, end)
    decreases |a|
  {
    if a != [] {
      assert (a + b)[0] == a[0] && (a + b)[1..] == a[1..] + b;
      var x, y := FilterCountsByDate(a[1..], start, end), FilterCountsByDate(b, start, end);
      FilterConcat(a[1..], b, start, end);
      assert [a[0]] + (x + y) == ([a[0]] + x) + y;
    } else {
      assert a + b == b;
    }
  }

  /** A window that holds every date of the series keeps the whole series. */
  lemma {:induction false} FilterKeepsAll(data: CounterData, start: Date, end: Date)
    requires forall i :: 0 <= i < |data| ==> InWindow(data[i].date, start, end)
    ensures FilterCountsByDate(data, start, end) == data
    decreases |data|
  {
    if data != [] {
      FilterKeepsAll(data[1..], start, end);
      assert [data[0]] + data[1..] == data;
    }
  }

  /** A window that ends before it starts keeps nothing. */
  lemma FilterEmptyWindow(data: CounterData, start: Date, end: Date)
    requires Valid(start) && Valid(end) && Ordinal(end) < Ordinal(start)
    ensures FilterCountsByDate(data, start, end) == []
  {
    OrdinalMonotone(start, end);
    assert !DateLe(start, end);
    var r := FilterCountsByDate(data, start, end);
    assert forall i :: 0 <= i < |r| ==> !InWindow(r[i].date, start, end);
  }

  function PointCount(p: DataPoint): int {
    p.count
  }

  /** `sum_counts`: `reduce(lambda acc, p: acc + p.count, data, 0)`. */
  function SumCounts(data: CounterData): int {
    SumOf(data, PointCount)
  }

  /** The sum of no counts is 0, and sums add up over concatenation. */
  lemma SumCountsAdditive(a: CounterData, b: CounterData)
    ensures SumCounts([]) == 0
    ensures SumCounts(a + b) == SumCounts(a) + SumCounts(b)
  {
    SumOfConcat(a, b, PointCount);
  }

  /** Sums of non-negative counts are non-negative. */
  lemma {:induction false} SumCountsNonNegative(data: CounterData)
    requires forall i :: 0 <= i < |data| ==> data[i].count >= 0
    ensures SumCounts(data) >= 0
    decreases |data|
  {
    if data != [] {
      SumCountsNonNegative(data[..|data| - 1]);
    }
  }

  lemma SumCountsExample()
    ensures SumCounts([]) == 0
    ensures SumCounts([DataPoint(Date(2024, 1, 1), 5), DataPoint(Date(2024, 1, 2), 7)]) == 12
  {
  }
}
