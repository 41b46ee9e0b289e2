/**
 * The aggregation engine of the current revision: flattening per-counter series into one
 * total series by date (best effort: mismatches are only reported), fetching the series of
 * every counter for a period, and extracting a period's highlights.
 */
module CounterService {
  import opened Wrappers
  import opened Calendar
  import opened Models
  import opened Sums
  import opened Series
  import Ranking

  /** The dates of a series, in order. */
  function Dates(data: CounterData): (r: seq<Date>)
    ensures |r| == |data| && forall i :: 0 <= i < |data| ==> r[i] == data[i].date
  {
    seq(|data|, i requires 0 <= i < |data| => data[i].date)
  }

  /** What one series contributes to the flattened count of `day`: its first point of that day, or nothing. */
  function CountOn(data: CounterData, day: Date): int {
    match FirstWithDate(data, day)
    case None => 0
    case Some(i) => data[i].count
  }

  /** `CountOn` for a fixed day, as the summand of `DateTotal`. */
  function Contribution(day: Date): CounterData -> int {
    (data: CounterData) => CountOn(data, day)
  }

  /** The flattened count of `day`: the contributions of all series added up. */
  function DateTotal(series: seq<CounterData>, day: Date): int {
    SumOf(series, Contribution(day))
  }

  lemma DateTotalStep(series: seq<CounterData>, k: nat, day: Date)
    requires k < |series|
    ensures DateTotal(series[..k + 1], day) == DateTotal(series[..k], day) + CountOn(series[k], day)
  {
    assert series[..k + 1][..k] == series[..k];
  }

  /** `max(series, key=len)`: the index of the first series of greatest length. */
  function LongestIndex(series: seq<CounterData>): (r: nat)
    requires |series| > 0
    ensures r < |series|
    ensures forall k :: 0 <= k < |series| ==> |series[k]| <= |series[r]|
    ensures forall k :: 0 <= k < r ==> |series[k]| < |series[r]|
  {
    if |series| == 1 then 0
    else
      var i := LongestIndex(series[..|series| - 1]);
      assert forall k :: 0 <= k < |series| - 1 ==> series[..|series| - 1][k] == series[k];
      if |series[|series| - 1]| > |series[i]| then |series| - 1 else i
  }

  predicate HasEmptySeries(series: seq<CounterData>) {
    exists k :: 0 <= k < |series| && |series[k]| == 0
  }

  /**
   * `flatten` as a value: an `IndexError` when there are no series or one of them is empty
   * (the mismatch check reads `series[k][0]` of each); otherwise one point per point of the
   * first longest series, with its date and the sum over all series of their first point
   * with that date (series lacking the date add nothing).
   */
  function FlattenByDate(series: seq<CounterData>): (r: Outcome<CounterData>)
    ensures r.Err? <==> |series| == 0 || HasEmptySeries(series)
    ensures r.Err? ==> r.error == IndexError
    ensures r.Ok? ==> |r.value| > 0
    ensures r.Ok? ==> forall i :: 0 <= i < |r.value| ==> r.value[i].count == DateTotal(series, r.value[i].date)
  {
    if |series| == 0 || HasEmptySeries(series) then Err(IndexError)
    else Ok(TotalsOn(Dates(series[LongestIndex(series)]), series))
  }

  /** One point per date of `dates`, carrying that date's total over `series`. */
  function TotalsOn(dates: seq<Date>, series: seq<CounterData>): (r: CounterData)
    ensures |r| == |dates|
    ensures forall i :: 0 <= i < |dates| ==> r[i] == DataPoint(dates[i], DateTotal(series, dates[i]))
  {
    seq(|dates|, i requires 0 <= i < |dates| => DataPoint(dates[i], DateTotal(series, dates[i])))
  }

  /**
   * The flattened series has exactly the dates, in order, of the first of the longest
   * input series.
   */
  lemma FlattenSpine(series: seq<CounterData>)
    requires FlattenByDate(series).Ok?
    ensures var k := LongestIndex(series);
      Dates(FlattenByDate(series).value) == Dates(series[k]) &&
      (forall l :: 0 <= l < |series| ==> |series[l]| <= |series[k]|) &&
      (forall l :: 0 <= l < k ==> |series[l]| < |series[k]|)
  {
    var dates := Dates(series[LongestIndex(series)]);
    assert Dates(TotalsOn(dates, series)) == dates;
  }

  /** What `flatten` logs. */
  datatype Warning =
    | LikelyMismatch             // a series differs from the first in length, first or last date
    | MissingDataPoint(day: Date) // a series has no point for a date of the spine

  /** The mismatch test of the validation loop, against the first series `check`. */
  predicate Mismatch(check: CounterData, data: CounterData) {
    |data| != |check| ||
    (|data| > 0 && |check| > 0 &&
     (data[0].date != check[0].date || data[|data| - 1].date != check[|check| - 1].date))
  }

  /** One `LikelyMismatch` per mismatching series, in order. */
  function MismatchWarnings(check: CounterData, series: seq<CounterData>): seq<Warning> {
    if series == [] then []
    else
      MismatchWarnings(check, series[..|series| - 1]) +
      (if Mismatch(check, series[|series| - 1]) then [LikelyMismatch] else [])
  }

  /** One `MissingDataPoint` per date of `dates` that `data` lacks, in order. */
  function MissingIn(dates: seq<Date>, data: CounterData): seq<Warning> {
    if dates == [] then []
    else
      MissingIn(dates[..|dates| - 1], data) +
      (if FirstWithDate(data, dates[|dates| - 1]).None? then [MissingDataPoint(dates[|dates| - 1])] else [])
  }

  /** The missing-point warnings of the summing loops: series by series, date by date. */
  function MissingWarnings(dates: seq<Date>, series: seq<CounterData>): seq<Warning> {
    if series == [] then []
    else MissingWarnings(dates, series[..|series| - 1]) + MissingIn(dates, series[|series| - 1])
  }

  /** A mismatch is reported exactly when some series mismatches the first. */
  lemma {:induction false} MismatchReported(check: CounterData, series: seq<CounterData>)
    ensures LikelyMismatch in MismatchWarnings(check, series) <==> exists k :: 0 <= k < |series| && Mismatch(check, series[k])
    decreases |series|
  {
    if series != [] {
      var init := series[..|series| - 1];
      MismatchReported(check, init);
      assert forall k :: 0 <= k < |init| ==> init[k] == series[k];
      if exists k :: 0 <= k < |series| && Mismatch(check, series[k]) {
        var k :| 0 <= k < |series| && Mismatch(check, series[k]);
        if k < |init| {
          assert Mismatch(check, init[k]);
        }
      }
    }
  }

  /**
   * The validation loop of `flatten`: reads the first and last point of every series
   * (an `IndexError` for an empty one) and logs a `LikelyMismatch` for each series that
   * differs from the first; it never fails on a mismatch.
   */
  method CheckSeries(bikeCounts: seq<CounterData>) returns (ok: bool, warnings: seq<Warning>)
    ensures ok <==> |bikeCounts| > 0 && !HasEmptySeries(bikeCounts)
    ensures ok ==> warnings == MismatchWarnings(bikeCounts[0], bikeCounts)
  {
    warnings := [];
    if |bikeCounts| == 0 {
      return false, warnings;
    }
    var check := bikeCounts[0];
    if |check| == 0 {
      assert |bikeCounts[0]| == 0;
      return false, warnings;
    }
    var k := 0;
    while k < |bikeCounts|
      invariant 0 <= k <= |bikeCounts|
      invariant forall l :: 0 <= l < k ==> |bikeCounts[l]| > 0
      invariant warnings == MismatchWarnings(check, bikeCounts[..k])
    {
      var bikeCount := bikeCounts[k];
      if |bikeCount| == 0 {
        assert |bikeCounts[k]| == 0;
        return false, warnings;
      }
      assert bikeCounts[..k + 1][..k] == bikeCounts[..k];
      if Mismatch(check, bikeCount) {
        warnings := warnings + [LikelyMismatch];
      }
      k := k + 1;
    }
    assert bikeCounts[..k] == bikeCounts;
    return true, warnings;
  }

  /**
   * The inner summing loop of `flatten`: adds to every point of `flattened` the count of
   * the first point of `count` with the same date, and logs the dates `count` lacks.
   */
  method AddMatches(flattened: array<DataPoint>, count: CounterData) returns (missing: seq<Warning>)
    modifies flattened
    ensures forall i :: 0 <= i < flattened.Length ==>
      flattened[i] == DataPoint(old(flattened[i]).date, old(flattened[i]).count + CountOn(count, old(flattened[i]).date))
    ensures missing == MissingIn(Dates(old(flattened[..])), count)
  {
    ghost var dates := Dates(flattened[..]);
    missing := [];
    var j := 0;
    while j < flattened.Length
      invariant 0 <= j <= flattened.Length
      invariant forall i :: 0 <= i < j ==>
        flattened[i] == DataPoint(old(flattened[i]).date, old(flattened[i]).count + CountOn(count, old(flattened[i]).date))
      invariant forall i :: j <= i < flattened.Length ==> flattened[i] == old(flattened[i])
      invariant missing == MissingIn(dates[..j], count)
    {
      var referenceDate := flattened[j].date;
      assert dates[..j + 1][..j] == dates[..j];
      var matchInCount := FirstWithDate(count, referenceDate);
      if matchInCount.Some? {
        flattened[j] := DataPoint(referenceDate, flattened[j].count + count[matchInCount.value].count);
      } else {
        missing := missing + [MissingDataPoint(referenceDate)];
      }
      j := j + 1;
    }
    assert dates[..j] == dates;
  }

  /**
   * The outer summing loop of `flatten`: starting from a zero-count spine, adds the
   * matching counts of every series in turn, so each point ends with its date's total.
   */
  method SumIntoSpine(flattened: array<DataPoint>, bikeCounts: seq<CounterData>) returns (missing: seq<Warning>)
    requires forall j :: 0 <= j < flattened.Length ==> flattened[j].count == 0
    modifies flattened
    ensures flattened[..] == TotalsOn(Dates(old(flattened[..])), bikeCounts)
    ensures missing == MissingWarnings(Dates(old(flattened[..])), bikeCounts)
  {
    ghost var dates := Dates(flattened[..]);
    missing := [];
    var k := 0;
    while k < |bikeCounts|
      invariant 0 <= k <= |bikeCounts|
      invariant forall j :: 0 <= j < flattened.Length ==> flattened[j] == DataPoint(dates[j], DateTotal(bikeCounts[..k], dates[j]))
      invariant missing == MissingWarnings(dates, bikeCounts[..k])
    {
      assert Dates(flattened[..]) == dates;
      var missingInCount := AddMatches(flattened, bikeCounts[k]);
      forall j | 0 <= j < flattened.Length
        ensures flattened[j] == DataPoint(dates[j], DateTotal(bikeCounts[..k + 1], dates[j]))
      {
        DateTotalStep(bikeCounts, k, dates[j]);
      }
      assert bikeCounts[..k + 1][..k] == bikeCounts[..k];
      missing := missing + missingInCount;
      k := k + 1;
    }
    assert bikeCounts[..k] == bikeCounts;
    assert flattened[..] == TotalsOn(dates, bikeCounts);
  }

  /**
   * `flatten`: validate (log only), build a zero-count spine from the longest series in a
   * fresh array, then add every series' matching counts to it. The input is not changed,
   * and the result equals `FlattenByDate`.
   */
  method Flatten(bikeCounts: seq<CounterData>) returns (r: Outcome<CounterData>, warnings: seq<Warning>)
    ensures r == FlattenByDate(bikeCounts)
    ensures r.Ok? ==> warnings == MismatchWarnings(bikeCounts[0], bikeCounts) + MissingWarnings(Dates(r.value), bikeCounts)
  {
    var ok;
    ok, warnings := CheckSeries(bikeCounts);
    if !ok {
      return Err(IndexError), warnings;
    }
    var longest := bikeCounts[LongestIndex(bikeCounts)];
    var flattened := new DataPoint[|longest|](i requires 0 <= i < |longest| => DataPoint(longest[i].date, 0));
    assert Dates(flattened[..]) == Dates(longest);
    var missing := SumIntoSpine(flattened, bikeCounts);
    assert Dates(flattened[..]) == Dates(longest);
    r := Ok(flattened[..]);
    warnings := warnings + missing;
  }

  /** One series with distinct dates flattens to itself. */
  lemma FlattenSingle(data: CounterData)
    requires |data| > 0
    requires forall i, j :: 0 <= i < j < |data| ==> data[i].date != data[j].date
    ensures FlattenByDate([data]) == Ok(data)
  {
    var f := FlattenByDate([data]).value;
    forall i | 0 <= i < |data|
      ensures f[i] == data[i]
    {
      var d := data[i].date;
      SumOfSingleton(data, Contribution(d));
      assert FirstWithDate(data, d) == Some(i);
    }
    assert f == data;
  }

  /** All series carry the same dates in the same order. */
  predicate Aligned(series: seq<CounterData>) {
    forall k, l :: 0 <= k < |series| && 0 <= l < |series| ==> Dates(series[k]) == Dates(series[l])
  }

  /** Flattening aligned series does not depend on their order. */
  lemma FlattenPermutation(series: seq<CounterData>, reordered: seq<CounterData>)
    requires multiset(series) == multiset(reordered)
    requires Aligned(series)
    ensures FlattenByDate(series) == FlattenByDate(reordered)
  {
    assert forall x :: x in reordered <==> x in series by {
      forall x
        ensures x in reordered <==> x in series
      {
        assert x in reordered <==> x in multiset(reordered);
        assert x in series <==> x in multiset(series);
      }
    }
    assert |series| == |multiset(series)| == |reordered|;
    assert HasEmptySeries(series) ==> HasEmptySeries(reordered) by {
      if HasEmptySeries(series) {
        var k :| 0 <= k < |series| && |series[k]| == 0;
        assert series[k] in reordered;
      }
    }
    assert HasEmptySeries(reordered) ==> HasEmptySeries(series) by {
      if HasEmptySeries(reordered) {
        var l :| 0 <= l < |reordered| && |reordered[l]| == 0;
        assert reordered[l] in series;
      }
    }
    if |series| > 0 && !HasEmptySeries(series) {
      var a := FlattenByDate(series).value;
      var b := FlattenByDate(reordered).value;
      FlattenSpine(series);
      FlattenSpine(reordered);
      var ka, kb := LongestIndex(series), LongestIndex(reordered);
      assert reordered[kb] in series;
      var k :| 0 <= k < |series| && series[k] == reordered[kb];
      assert Dates(a) == Dates(b);
      forall i | 0 <= i < |a|
        ensures a[i] == b[i]
      {
        assert a[i].date == b[i].date;
        SumOfPermutation(series, reordered, Contribution(a[i].date));
      }
      assert a == b;
    }
  }

  /** `get_counts_for_period`'s fetch, with the service behind it as a parameter. */
  type Fetch = (CounterConfig, DateRange) -> Outcome<CounterData>

  /**
   * `get_counts_for_period`: each counter paired with its fetched series, in the order of
   * `counters`; the first fetch that fails (in that order) fails the whole call.
   */
  function GetCountsForPeriod(counters: seq<CounterConfig>, period: DateRange, fetch: Fetch): (r: Outcome<seq<CounterWithCounts>>)
    ensures r.Ok? ==>
      |r.value| == |counters| &&
      (forall i :: 0 <= i < |counters| ==>
         fetch(counters[i], period).Ok? &&
         r.value[i] == CounterWithCounts(counters[i], fetch(counters[i], period).value))
    ensures r.Err? ==>
      (exists i :: 0 <= i < |counters| && fetch(counters[i], period) == Err(r.error) &&
         (forall j :: 0 <= j < i ==> fetch(counters[j], period).Ok?))
  {
    if counters == [] then Ok([])
    else match fetch(counters[0], period)
      case Err(e) => Err(e)
      case Ok(counts) =>
        match GetCountsForPeriod(counters[1..], period, fetch)
        case Err(e) =>
          var i :| 0 <= i < |counters[1..]| && fetch(counters[1..][i], period) == Err(e) &&
                   forall j :: 0 <= j < i ==> fetch(counters[1..][j], period).Ok?;
          assert fetch(counters[i + 1], period) == Err(e);
          Err(e)
        case Ok(rest) => Ok([CounterWithCounts(counters[0], counts)] + rest)
  }

  /** The series of each counter, in order. */
  function CountsOf(counters: seq<CounterWithCounts>): (r: seq<CounterData>)
    ensures |r| == |counters| && forall i :: 0 <= i < |counters| ==> r[i] == counters[i].counts
  {
    seq(|counters|, i requires 0 <= i < |counters| => counters[i].counts)
  }

  /**
   * Every counter with its count on `day`, in order; the first counter without that day
   * raises `NoDataFound(day)`.
   */
  function CountsForDay(counters: seq<CounterWithCounts>, day: Date): (r: Outcome<seq<CounterWithSingleCount>>)
    ensures r.Err? <==> exists i :: 0 <= i < |counters| && GetCountForDay(counters[i].counts, day).Err?
    ensures r.Err? ==> r.error == NoDataFound(day)
    ensures r.Ok? ==>
      |r.value| == |counters| &&
      (forall i :: 0 <= i < |counters| ==>
         r.value[i] == CounterWithSingleCount(counters[i].counter, GetCountForDay(counters[i].counts, day).value))
  {
    if counters == [] then Ok([])
    else match GetCountForDay(counters[0].counts, day)
      case Err(e) => Err(e)
      case Ok(c) =>
        match CountsForDay(counters[1..], day)
        case Err(e) =>
          assert exists i :: 0 <= i < |counters[1..]| && GetCountForDay(counters[1..][i].counts, day).Err?;
          Err(e)
        case Ok(rest) =>
          assert forall i :: 1 <= i < |counters| ==> counters[i] == counters[1..][i - 1];
          Ok([CounterWithSingleCount(counters[0].counter, c)] + rest)
  }

  function SingleCount(c: CounterWithSingleCount): int {
    c.count
  }

  /**
   * `extract_highlights`: flatten all series, take the last flattened point as the most
   * recent day, rank the counters by their count on that day, and total the flattened
   * series. Errors of `flatten` and `get_count_for_day` are passed on unchanged.
   */
  function ExtractHighlights(counters: seq<CounterWithCounts>): (r: Outcome<CountHighlights>)
    ensures FlattenByDate(CountsOf(counters)).Err? ==> r == Err(IndexError)
    ensures r.Ok? ==>
      r.value.flattenedCounts == FlattenByDate(CountsOf(counters)).value &&
      |r.value.flattenedCounts| > 0 &&
      r.value.mostRecentFlattenedCount == r.value.flattenedCounts[|r.value.flattenedCounts| - 1].count &&
      r.value.periodTotalCount == SumCounts(r.value.flattenedCounts)
  {
    match FlattenByDate(CountsOf(counters))
    case Err(e) => Err(e)
    case Ok(flattened) =>
      var mostRecent := flattened[|flattened| - 1];
      match CountsForDay(counters, mostRecent.date)
      case Err(e) => Err(e)
      case Ok(singles) =>
        Ok(CountHighlights(flattened, mostRecent.count, Ranking.SortDescending(singles), SumCounts(flattened)))
  }

  /** Once flattening succeeds, highlights fail exactly when some counter lacks the most recent day, with `NoDataFound` for that day. */
  lemma HighlightsNoData(counters: seq<CounterWithCounts>)
    requires FlattenByDate(CountsOf(counters)).Ok?
    ensures var flattened := FlattenByDate(CountsOf(counters)).value;
      var day := flattened[|flattened| - 1].date;
      (ExtractHighlights(counters).Err? <==>
         exists i :: 0 <= i < |counters| && GetCountForDay(counters[i].counts, day).Err?) &&
      (ExtractHighlights(counters).Err? ==> ExtractHighlights(counters).error == NoDataFound(day))
  {
  }

  /**
   * The ranking of a highlights value is the counters with their counts on the most recent
   * day, sorted descending and stably, and those counts add up to the most recent
   * flattened total.
   */
  lemma HighlightsRanking(counters: seq<CounterWithCounts>)
    requires ExtractHighlights(counters).Ok?
    ensures var h := ExtractHighlights(counters).value;
      var day := h.flattenedCounts[|h.flattenedCounts| - 1].date;
      CountsForDay(counters, day).Ok? &&
      Ranking.SortedDescending(h.mostRecentCountsSorted) &&
      multiset(h.mostRecentCountsSorted) == multiset(CountsForDay(counters, day).value) &&
      (forall c :: Ranking.WithCount(h.mostRecentCountsSorted, c) == Ranking.WithCount(CountsForDay(counters, day).value, c)) &&
      SumOf(h.mostRecentCountsSorted, SingleCount) == h.mostRecentFlattenedCount
  {
    var series := CountsOf(counters);
    var flattened := FlattenByDate(series).value;
    var day := flattened[|flattened| - 1].date;
    var singles := CountsForDay(counters, day).value;
    var h := ExtractHighlights(counters).value;
    assert h.mostRecentCountsSorted == Ranking.SortDescending(singles);
    assert h.mostRecentFlattenedCount == DateTotal(series, day);
    SinglesAddUp(counters, day);
    SumOfPermutation(singles, h.mostRecentCountsSorted, SingleCount);
  }

  /** The counters' counts on a day they all have add up to that day's flattened total. */
  lemma SinglesAddUp(counters: seq<CounterWithCounts>, day: Date)
    requires CountsForDay(counters, day).Ok?
    ensures SumOf(CountsForDay(counters, day).value, SingleCount) == DateTotal(CountsOf(counters), day)
  {
    var series := CountsOf(counters);
    var singles := CountsForDay(counters, day).value;
    forall i | 0 <= i < |series|
      ensures Contribution(day)(series[i]) == SingleCount(singles[i])
    {
      assert GetCountForDay(series[i], day).Ok?;
    }
    SumOfPointwise(series, Contribution(day), singles, SingleCount);
  }
}
