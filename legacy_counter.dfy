/**
 * The older, single-file revision of the bot (a script). Its `flatten` fails hard on any
 * mismatch and otherwise sums by position into the first series' own data points, so the
 * caller's first series becomes the combined series. Its fetch passes the end date as
 * given, and its report compares this week so far with the same days of last week,
 * anchored on today.
 *
 * The lookup, filter and sum functions of this revision are word for word those of the
 * current one and are the ones in module `Series`.
 */
module LegacyCounter {
  import opened Wrappers
  import opened Calendar
  import opened Models
  import opened Sums
  import opened Series
  import opened CounterApi
  import CounterService
  import Ranking

  // ---------------------------------------------------------------------------------------
  // Fetching

  /** The request of the legacy `get_counts`: both dates rendered as given, `DD/MM/YYYY`. */
  function RequestAsGiven(start: Date, end: Date, interval: Interval): (r: TemplateValues)
    requires InPythonRange(start) && InPythonRange(end)
    ensures r.startDate == FormatForApi(start) && r.endDate == FormatForApi(end)
    ensures ParseDate(r.startDate, false) == Ok(start)
    ensures ParseDate(r.endDate, false) == Ok(end)
    ensures r.interval == IntervalCode(interval)
  {
    FormatParseRoundTrip(start, false);
    FormatParseRoundTrip(end, false);
    TemplateValues(FormatForApi(start), FormatForApi(end), IntervalCode(interval))
  }

  /**
   * The legacy `get_counts`: ask the server with the dates as given; a status other than
   * 200 raises an `EcoCounterApiError` with the response text, otherwise every row becomes
   * one point, in order.
   */
  function GetCounts(counter: CounterConfig, start: Date, end: Date, interval: Interval, server: Server): (r: Outcome<CounterData>)
    requires InPythonRange(start) && InPythonRange(end)
    ensures var response := server(counter, RequestAsGiven(start, end, interval));
      (response.status != 200 ==> r == Err(ApiError(response.text))) &&
      (response.status == 200 ==> r == DecodeRows(response.rows)) &&
      (response.status == 200 && r.Ok? ==>
         |r.value| == |response.rows| &&
         forall i :: 0 <= i < |response.rows| ==> DecodeRow(response.rows[i]) == Ok(r.value[i]))
  {
    DecodeResponse(server(counter, RequestAsGiven(start, end, interval)))
  }

  lemma NextOfPrevDay(d: Date)
    requires Valid(d)
    ensures NextDay(PrevDay(d)) == d
  {
    OrdinalMonotone(NextDay(PrevDay(d)), d);
  }

  /**
   * The two revisions differ in the end date only: the legacy fetch up to `end` is the
   * current fetch of the inclusive range ending the day before, so the legacy series never
   * holds `end` itself unless the service ignores the exclusive end.
   */
  lemma LegacyFetchEndsADayEarlier(counter: CounterConfig, start: Date, end: Date, interval: Interval, server: Server)
    requires InPythonRange(start) && InPythonRange(end) && InPythonRange(PrevDay(end))
    ensures CounterApi.GetCounts(counter, start, PrevDay(end), interval, server) == GetCounts(counter, start, end, interval, server)
  {
    NextOfPrevDay(end);
  }

  // ---------------------------------------------------------------------------------------
  // Validation

  /** Series `data` passes the check against `check`: it is not empty and it matches. */
  predicate Matches(check: CounterData, data: CounterData) {
    data != [] && !CounterService.Mismatch(check, data)
  }

  /** The index of the first series of `series` that fails the check against `check`, or `|series|`. */
  function FailureIndex(check: CounterData, series: seq<CounterData>): (r: nat)
    ensures r <= |series|
    ensures forall j :: 0 <= j < r ==> Matches(check, series[j])
    ensures r < |series| ==> !Matches(check, series[r])
  {
    if series == [] || !Matches(check, series[0]) then 0
    else
      assert forall j :: 1 <= j < |series| ==> series[j] == series[1..][j - 1];
      1 + FailureIndex(check, series[1..])
  }

  /**
   * The validation loop over `series` against the first series `check`, in order: the
   * first series that is empty raises `IndexError` (reading its first point), the first
   * that differs in length, first or last date raises `CounterDataMismatch`.
   */
  function FirstFailure(check: CounterData, series: seq<CounterData>): (r: Option<Error>)
    ensures r.None? <==> forall k :: 0 <= k < |series| ==> Matches(check, series[k])
    ensures r.Some? ==> var k := FailureIndex(check, series);
      k < |series| && r.value == (if series[k] == [] then IndexError else DataMismatch)
  {
    var k := FailureIndex(check, series);
    if k == |series| then None
    else Some(if series[k] == [] then IndexError else DataMismatch)
  }

  /**
   * What the legacy `flatten` raises before it sums, if anything: `IndexError` without
   * series or with an empty first series, else the first failure of the validation loop.
   * No error means every series has the first one's length and first and last date.
   */
  function CheckError(series: seq<CounterData>): (r: Option<Error>)
    ensures r.None? <==> (|series| > 0 && series[0] != [] && forall k :: 0 <= k < |series| ==> Matches(series[0], series[k]))
    ensures r.None? ==> forall k :: 0 <= k < |series| ==> |series[k]| == |series[0]|
    ensures r.Some? ==> r.value == IndexError || r.value == DataMismatch
  {
    if |series| == 0 || series[0] == [] then Some(IndexError)
    else FirstFailure(series[0], series)
  }

  /** The contents of the series, in order. */
  function Snapshot(bikeCounts: seq<array<DataPoint>>): (r: seq<CounterData>)
    reads set a | a in bikeCounts
    ensures |r| == |bikeCounts| && forall k :: 0 <= k < |bikeCounts| ==> r[k] == bikeCounts[k][..]
  {
    if bikeCounts == [] then [] else [bikeCounts[0][..]] + Snapshot(bikeCounts[1..])
  }

  /** The validation loop of the legacy `flatten`, on the series in place. */
  method Validate(bikeCounts: seq<array<DataPoint>>) returns (err: Option<Error>)
    ensures err == CheckError(Snapshot(bikeCounts))
  {
    if |bikeCounts| == 0 || bikeCounts[0].Length == 0 {
      return Some(IndexError);
    }
    ghost var series := Snapshot(bikeCounts);
    var check := bikeCounts[0];
    var k := 0;
    while k < |bikeCounts|
      invariant 0 <= k <= |bikeCounts|
      invariant forall j :: 0 <= j < k ==> Matches(check[..], series[j])
    {
      var data := bikeCounts[k];
      if data.Length == 0 {
        return Some(IndexError);
      }
      if data.Length != check.Length || data[0].date != check[0].date || data[data.Length - 1].date != check[check.Length - 1].date {
        return Some(DataMismatch);
      }
      k := k + 1;
    }
    return None;
  }

  // ---------------------------------------------------------------------------------------
  // Summing by position, in place

  /** One pass of the summing loop: `acc[i]` plus the count of `other[i]`, for every index. */
  function AddPass(acc: CounterData, other: CounterData): (r: CounterData)
    requires |other| == |acc|
    ensures |r| == |acc|
    ensures forall i :: 0 <= i < |acc| ==> r[i] == DataPoint(acc[i].date, acc[i].count + other[i].count)
  {
    seq(|acc|, i requires 0 <= i < |acc| => DataPoint(acc[i].date, acc[i].count + other[i].count))
  }

  /** Series of one common length, as validation leaves them. */
  predicate EqualLengths(series: seq<CounterData>) {
    |series| > 0 && forall k :: 0 <= k < |series| ==> |series[k]| == |series[0]|
  }

  /**
   * The first series after the passes over series `1..n-1`. `shares[k]` says whether the
   * k-th argument is the first list itself: such a pass adds the first series' current
   * counts (so it doubles them), any other pass adds that series' own counts.
   */
  function Passes(series: seq<CounterData>, shares: seq<bool>, n: nat): (r: CounterData)
    requires EqualLengths(series) && |shares| == |series| && 1 <= n <= |series|
    ensures |r| == |series[0]|
    ensures forall i :: 0 <= i < |r| ==> r[i].date == series[0][i].date
    decreases n
  {
    if n == 1 then series[0]
    else
      var acc := Passes(series, shares, n - 1);
      AddPass(acc, if shares[n - 1] then acc else series[n - 1])
  }

  /** The combined series the legacy `flatten` leaves in its first argument. */
  function IndexFlatten(series: seq<CounterData>, shares: seq<bool>): (r: CounterData)
    requires EqualLengths(series) && |shares| == |series|
  {
    Passes(series, shares, |series|)
  }

  /** For each argument, whether it is the very list passed first. */
  function SharesFirst(bikeCounts: seq<array<DataPoint>>): (r: seq<bool>)
    requires |bikeCounts| > 0
    ensures |r| == |bikeCounts| && forall k :: 0 <= k < |bikeCounts| ==> (r[k] <==> bikeCounts[k] == bikeCounts[0])
  {
    seq(|bikeCounts|, k requires 0 <= k < |bikeCounts| => bikeCounts[k] == bikeCounts[0])
  }

  /** The inner loop: `flattened[i].count += other[i].count` for every index, in order. */
  method AddInto(flattened: array<DataPoint>, other: array<DataPoint>)
    requires other.Length == flattened.Length
    modifies flattened
    ensures flattened[..] == AddPass(old(flattened[..]), old(other[..]))
  {
    var i := 0;
    while i < flattened.Length
      invariant 0 <= i <= flattened.Length
      invariant forall j :: 0 <= j < i ==>
        flattened[j] == DataPoint(old(flattened[j]).date, old(flattened[j]).count + old(other[j]).count)
      invariant forall j :: i <= j < flattened.Length ==> flattened[j] == old(flattened[j]) && other[j] == old(other[j])
    {
      flattened[i] := DataPoint(flattened[i].date, flattened[i].count + other[i].count);
      i := i + 1;
    }
  }

  /**
   * The legacy `flatten`. On a validation error nothing has changed. Otherwise the result
   * is the first argument itself, now holding `IndexFlatten` of the old contents; every
   * argument that is not the first list is unchanged.
   */
  method Flatten(bikeCounts: seq<array<DataPoint>>) returns (r: Outcome<array<DataPoint>>)
    modifies if |bikeCounts| > 0 then {bikeCounts[0]} else {}
    ensures CheckError(old(Snapshot(bikeCounts))).Some? ==>
      r == Err(CheckError(old(Snapshot(bikeCounts))).value) &&
      forall k :: 0 <= k < |bikeCounts| ==> bikeCounts[k][..] == old(bikeCounts[k][..])
    ensures CheckError(old(Snapshot(bikeCounts))).None? ==>
      r == Ok(bikeCounts[0]) && bikeCounts[0][..] == IndexFlatten(old(Snapshot(bikeCounts)), SharesFirst(bikeCounts))
    ensures forall k :: 0 <= k < |bikeCounts| && bikeCounts[k] != bikeCounts[0] ==> bikeCounts[k][..] == old(bikeCounts[k][..])
  {
    var err := Validate(bikeCounts);
    if err.Some? {
      return Err(err.value);
    }
    SumIntoFirst(bikeCounts);
    r := Ok(bikeCounts[0]);
  }

  /** The summing loops of the legacy `flatten`: every later argument is added into the first one, pass by pass. */
  method SumIntoFirst(bikeCounts: seq<array<DataPoint>>)
    requires EqualLengths(Snapshot(bikeCounts))
    modifies bikeCounts[0]
    ensures bikeCounts[0][..] == IndexFlatten(old(Snapshot(bikeCounts)), SharesFirst(bikeCounts))
    ensures forall k :: 0 <= k < |bikeCounts| && bikeCounts[k] != bikeCounts[0] ==> bikeCounts[k][..] == old(bikeCounts[k][..])
  {
    ghost var series := Snapshot(bikeCounts);
    ghost var shares := SharesFirst(bikeCounts);
    var flattened := bikeCounts[0];
    var k := 1;
    while k < |bikeCounts|
      invariant 1 <= k <= |bikeCounts|
      invariant flattened[..] == Passes(series, shares, k)
      invariant forall j :: 0 <= j < |bikeCounts| && bikeCounts[j] != flattened ==> bikeCounts[j][..] == series[j]
    {
      ghost var other := bikeCounts[k][..];
      assert other == if shares[k] then flattened[..] else series[k];
      AddInto(flattened, bikeCounts[k]);
      assert flattened[..] == AddPass(Passes(series, shares, k), other);
      k := k + 1;
    }
  }

  /** The count at index `i` of a series (0 past its end), as a summand. */
  function CountAt(i: nat): CounterData -> int {
    (data: CounterData) => if i < |data| then data[i].count else 0
  }

  lemma {:induction false} PassesSumColumns(series: seq<CounterData>, shares: seq<bool>, n: nat)
    requires EqualLengths(series) && |shares| == |series| && 1 <= n <= |series|
    requires forall k :: 1 <= k < |shares| ==> !shares[k]
    ensures forall i :: 0 <= i < |series[0]| ==>
      Passes(series, shares, n)[i] == DataPoint(series[0][i].date, SumOf(series[..n], CountAt(i)))
    decreases n
  {
    if n == 1 {
      forall i | 0 <= i < |series[0]|
        ensures SumOf(series[..1], CountAt(i)) == series[0][i].count
      {
        assert series[..1] == [series[0]];
        SumOfSingleton(series[0], CountAt(i));
      }
    } else {
      PassesSumColumns(series, shares, n - 1);
      assert series[..n][..n - 1] == series[..n - 1];
    }
  }

  /**
   * Without aliasing, the legacy result sums by position: the point at index `i` keeps the
   * first series' date and carries the sum of the index-`i` counts of all series, whatever
   * their dates at that index.
   */
  lemma IndexFlattenSumsColumns(series: seq<CounterData>, shares: seq<bool>)
    requires EqualLengths(series) && |shares| == |series|
    requires forall k :: 1 <= k < |shares| ==> !shares[k]
    ensures |IndexFlatten(series, shares)| == |series[0]|
    ensures forall i :: 0 <= i < |series[0]| ==>
      IndexFlatten(series, shares)[i] == DataPoint(series[0][i].date, SumOf(series, CountAt(i)))
  {
    PassesSumColumns(series, shares, |series|);
    assert series[..|series|] == series;
  }

  /**
   * Aliasing is visible: passing the first list again after another series adds the
   * running total, not the original counts, so `flatten(a, b, a)` yields `2a + 2b`.
   */
  lemma RepeatedFirstAddsRunningTotal(a: CounterData, b: CounterData)
    requires |a| == |b|
    ensures forall i :: 0 <= i < |a| ==>
      IndexFlatten([a, b, a], [true, false, true])[i].count == 2 * (a[i].count + b[i].count)
  {
    var series, shares := [a, b, a], [true, false, true];
    var once := Passes(series, shares, 2);
    assert once == AddPass(a, b);
    assert IndexFlatten(series, shares) == AddPass(once, once);
  }

  /** Distinct dates: no date occurs twice in the series. */
  predicate DistinctDates(data: CounterData) {
    forall i, j :: 0 <= i < j < |data| ==> data[i].date != data[j].date
  }

  /**
   * Where the two revisions agree: when every series has the dates of the first, in the
   * same order and without repeats, summing by position (legacy, no aliasing) gives the
   * same series as summing by date (current).
   */
  lemma AgreesWithFlattenByDate(series: seq<CounterData>, shares: seq<bool>)
    requires EqualLengths(series) && |shares| == |series| && series[0] != []
    requires forall k :: 1 <= k < |shares| ==> !shares[k]
    requires forall k :: 0 <= k < |series| ==> CounterService.Dates(series[k]) == CounterService.Dates(series[0])
    requires DistinctDates(series[0])
    ensures CounterService.FlattenByDate(series) == Ok(IndexFlatten(series, shares))
  {
    assert !CounterService.HasEmptySeries(series);
    var longest := CounterService.LongestIndex(series);
    assert longest == 0;
    var a := CounterService.FlattenByDate(series).value;
    var b := IndexFlatten(series, shares);
    IndexFlattenSumsColumns(series, shares);
    forall i | 0 <= i < |a|
      ensures a[i] == b[i]
    {
      var day := series[0][i].date;
      forall k | 0 <= k < |series|
        ensures CounterService.Contribution(day)(series[k]) == CountAt(i)(series[k])
      {
        assert CounterService.Dates(series[k])[i] == day;
        assert series[k][i].date == day;
        var f := FirstWithDate(series[k], day);
        assert f.Some?;
        assert CounterService.Dates(series[k])[f.value] == CounterService.Dates(series[0])[f.value];
        assert series[0][f.value].date == day;
        assert f.value == i;
      }
      SumOfPointwise(series, CounterService.Contribution(day), series, CountAt(i));
    }
    assert a == b;
  }

  // ---------------------------------------------------------------------------------------
  // The report script

  /** The windows of the script, all relative to `today`. */
  datatype Windows = Windows(thisWeekStart: Date, thisWeekEnd: Date, lastWeekStart: Date, lastWeekRelativeEnd: Date)

  /**
   * This week starts on the Monday of today's week and ends yesterday; last week's window
   * is that one shifted back by exactly seven days at both ends.
   */
  function WeekWindows(today: Date): (w: Windows)
    requires Valid(today)
    ensures Valid(w.thisWeekStart) && Valid(w.thisWeekEnd) && Valid(w.lastWeekStart) && Valid(w.lastWeekRelativeEnd)
    ensures Weekday(w.thisWeekStart) == 0 && Ordinal(today) - Ordinal(w.thisWeekStart) == Weekday(today)
    ensures Ordinal(w.thisWeekEnd) == Ordinal(today) - 1
    ensures Ordinal(w.lastWeekStart) == Ordinal(w.thisWeekStart) - 7
    ensures Ordinal(w.lastWeekRelativeEnd) == Ordinal(w.thisWeekEnd) - 7
  {
    var thisWeekStart := MondayOf(today);
    var thisWeekEnd := AddDays(today, -1);
    Windows(thisWeekStart, thisWeekEnd, AddDays(thisWeekStart, -7), AddDays(thisWeekEnd, -7))
  }

  /** The counter names of the script's ranking; this revision's counters have only a name. */
  const GlacisCounter := CounterConfig("glacis", "glacis")
  const ViaducCounter := CounterConfig("viaduc", "viaduc")
  const LiftCounter := CounterConfig("lift", "lift")

  /** The script's three counters with the series it reads for yesterday's counts. */
  function ScriptCounters(glacis: CounterData, viaduc: CounterData, lift: CounterData): (r: seq<CounterWithCounts>)
    ensures |r| == 3 && CounterService.CountsOf(r) == [glacis, viaduc, lift]
  {
    [CounterWithCounts(GlacisCounter, glacis), CounterWithCounts(ViaducCounter, viaduc), CounterWithCounts(LiftCounter, lift)]
  }

  /** `(this - last) / last * 100`: a `ZeroDivisionError` when last week's total is 0. */
  function PercentageChange(thisWeek: int, lastWeek: int): (r: Outcome<real>)
    ensures r.Err? <==> lastWeek == 0
    ensures r.Err? ==> r.error == ZeroDivisionError
    ensures r.Ok? ==> r.value * (lastWeek as real) == ((thisWeek - lastWeek) as real) * 100.0
  {
    if lastWeek == 0 then Err(ZeroDivisionError)
    else Ok((thisWeek - lastWeek) as real / lastWeek as real * 100.0)
  }

  /** What the script prints. */
  datatype ScriptReport = ScriptReport(
    yesterdaysCountsSorted: seq<CounterWithSingleCount>,
    lastWeekRelativeTotal: int,
    thisWeekTotal: int,
    percentageChange: real)

  /**
   * The script after flattening: yesterday's count of every counter (from `counters`),
   * ranked; the totals of the combined series over last week's window and over this
   * week's start up to today; and their percentage change.
   */
  function Report(today: Date, summed: CounterData, counters: seq<CounterWithCounts>): (r: Outcome<ScriptReport>)
    requires Valid(today)
    ensures var w := WeekWindows(today);
      var last := SumCounts(FilterCountsByDate(summed, w.lastWeekStart, w.lastWeekRelativeEnd));
      var thisWeek := SumCounts(FilterCountsByDate(summed, w.thisWeekStart, today));
      (r.Err? <==> CounterService.CountsForDay(counters, PrevDay(today)).Err? || last == 0) &&
      (r.Err? ==> r.error == (if CounterService.CountsForDay(counters, PrevDay(today)).Err?
                              then NoDataFound(PrevDay(today)) else ZeroDivisionError)) &&
      (r.Ok? ==>
         r.value.yesterdaysCountsSorted == Ranking.SortDescending(CounterService.CountsForDay(counters, PrevDay(today)).value) &&
         r.value.lastWeekRelativeTotal == last && r.value.thisWeekTotal == thisWeek &&
         PercentageChange(thisWeek, last) == Ok(r.value.percentageChange))
  {
    match CounterService.CountsForDay(counters, PrevDay(today))
    case Err(e) => Err(e)
    case Ok(counts) =>
      var w := WeekWindows(today);
      var last := SumCounts(FilterCountsByDate(summed, w.lastWeekStart, w.lastWeekRelativeEnd));
      var thisWeek := SumCounts(FilterCountsByDate(summed, w.thisWeekStart, today));
      match PercentageChange(thisWeek, last)
      case Err(e) => Err(e)
      case Ok(p) => Ok(ScriptReport(Ranking.SortDescending(counts), last, thisWeek, p))
  }

  /**
   * The script as written: flattening sums into `glacis` itself, and yesterday's counts are
   * read afterwards, so glacis is ranked with the combined count.
   */
  method Script(today: Date, glacis: array<DataPoint>, viaduc: array<DataPoint>, lift: array<DataPoint>) returns (r: Outcome<ScriptReport>)
    requires Valid(today)
    requires glacis != viaduc && glacis != lift && viaduc != lift
    modifies glacis
    ensures var series := [old(glacis[..]), old(viaduc[..]), old(lift[..])];
      (CheckError(series).Some? ==> r == Err(CheckError(series).value) && glacis[..] == old(glacis[..])) &&
      (CheckError(series).None? ==>
         glacis[..] == IndexFlatten(series, [true, false, false]) &&
         r == Report(today, glacis[..], ScriptCounters(glacis[..], viaduc[..], lift[..])))
  {
    ghost var series := [glacis[..], viaduc[..], lift[..]];
    assert Snapshot([glacis, viaduc, lift]) == series;
    var summed := Flatten([glacis, viaduc, lift]);
    assert SharesFirst([glacis, viaduc, lift]) == [true, false, false];
    if summed.Err? {
      assert Snapshot([glacis, viaduc, lift]) == series;
      return Err(summed.error);
    }
    r := Report(today, summed.value[..], ScriptCounters(glacis[..], viaduc[..], lift[..]));
  }

  /** The script with yesterday's counts read before flattening, so each counter is ranked with its own count. */
  method CorrectedScript(today: Date, glacis: array<DataPoint>, viaduc: array<DataPoint>, lift: array<DataPoint>) returns (r: Outcome<ScriptReport>)
    requires Valid(today)
    requires glacis != viaduc && glacis != lift && viaduc != lift
    modifies glacis
    ensures var series := [old(glacis[..]), old(viaduc[..]), old(lift[..])];
      (CheckError(series).Some? ==> r == Err(CheckError(series).value) && glacis[..] == old(glacis[..])) &&
      (CheckError(series).None? ==>
         glacis[..] == IndexFlatten(series, [true, false, false]) &&
         r == Report(today, glacis[..], ScriptCounters(old(glacis[..]), viaduc[..], lift[..])))
  {
    ghost var series := [glacis[..], viaduc[..], lift[..]];
    var counters := ScriptCounters(glacis[..], viaduc[..], lift[..]);
    assert Snapshot([glacis, viaduc, lift]) == series;
    var summed := Flatten([glacis, viaduc, lift]);
    assert SharesFirst([glacis, viaduc, lift]) == [true, false, false];
    if summed.Err? {
      assert Snapshot([glacis, viaduc, lift]) == series;
      return Err(summed.error);
    }
    r := Report(today, summed.value[..], counters);
  }

  /**
   * One day with glacis 5, viaduc 30 and lift 20: after the in-place flatten the glacis
   * series holds 55 for that day, so the script ranks glacis with 55 instead of its own 5.
   */
  lemma GlacisRankedWithCombinedCount()
    ensures var y := Date(2024, 3, 5);
      var g, v, l := [DataPoint(y, 5)], [DataPoint(y, 30)], [DataPoint(y, 20)];
      var summed := IndexFlatten([g, v, l], [true, false, false]);
      summed == [DataPoint(y, 55)] &&
      GetCountForDay(summed, y) == Ok(55) &&
      GetCountForDay(g, y) == Ok(5)
  {
    var y := Date(2024, 3, 5);
    var g, v, l := [DataPoint(y, 5)], [DataPoint(y, 30)], [DataPoint(y, 20)];
    var series, shares := [g, v, l], [true, false, false];
    var once := Passes(series, shares, 2);
    assert once == AddPass(g, v) == [DataPoint(y, 35)];
    assert IndexFlatten(series, shares) == AddPass(once, l) == [DataPoint(y, 55)];
    assert FirstWithDate([DataPoint(y, 55)], y) == Some(0);
    assert FirstWithDate(g, y) == Some(0);
  }

  /**
   * On a Monday this week's window ends before it starts, so last week's window is empty
   * too, last week's total is 0 and the percentage divides by zero.
   */
  lemma MondayDividesByZero(today: Date, summed: CounterData, counters: seq<CounterWithCounts>)
    requires Valid(today) && Weekday(today) == 0
    requires CounterService.CountsForDay(counters, PrevDay(today)).Ok?
    ensures Report(today, summed, counters) == Err(ZeroDivisionError)
  {
    var w := WeekWindows(today);
    FilterEmptyWindow(summed, w.lastWeekStart, w.lastWeekRelativeEnd);
    SumCountsAdditive([], []);
  }
}
