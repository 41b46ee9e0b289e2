/**
 * The report logic of the current bot: the two week windows compared, the percentage
 * change and its arrow, the "This"/"Last" week label, the tweet's template values, and
 * the error policy of publishing yesterday's results. "Today" is a parameter, and the
 * counter service and the tweet service are abstract.
 */
module Bot {
  import opened Wrappers
  import opened Calendar
  import opened Text
  import opened Models
  import opened Series
  import CounterApi
  import CounterService

  /** The current period: from the Monday of yesterday's week up to yesterday. */
  function CurrentPeriod(today: Date): (p: DateRange)
    requires Valid(today)
    ensures Valid(p.start) && Valid(p.end)
    ensures Ordinal(p.end) == Ordinal(today) - 1
    ensures Weekday(p.start) == 0
    ensures Ordinal(p.end) - Ordinal(p.start) == Weekday(p.end) <= 6
    ensures DateLe(p.start, p.end)
  {
    var yesterday := PrevDay(today);
    var monday := MondayOf(yesterday);
    OrdinalMonotone(monday, yesterday);
    DateRange(monday, yesterday)
  }

  /** The reference period: the current period one week (seven days) earlier at both ends. */
  function ReferencePeriod(current: DateRange): (p: DateRange)
    requires Valid(current.start) && Valid(current.end)
    ensures Valid(p.start) && Valid(p.end)
    ensures Ordinal(p.start) == Ordinal(current.start) - 7
    ensures Ordinal(p.end) == Ordinal(current.end) - 7
  {
    DateRange(AddDays(current.start, -7), AddDays(current.end, -7))
  }

  /**
   * The reference period covers the same weekdays of the preceding week: it starts on a
   * Monday, is as long as the current period, and ends before the current period starts.
   */
  lemma ReferenceIsPrecedingWeek(today: Date)
    requires Valid(today)
    ensures var current := CurrentPeriod(today);
      var reference := ReferencePeriod(current);
      Weekday(reference.start) == 0 &&
      Ordinal(reference.end) - Ordinal(reference.start) == Ordinal(current.end) - Ordinal(current.start) &&
      Ordinal(reference.end) < Ordinal(current.start) &&
      DateLe(reference.start, reference.end)
  {
    var current := CurrentPeriod(today);
    var reference := ReferencePeriod(current);
    WeekdayWeekEarlier(current.start);
    OrdinalMonotone(reference.start, reference.end);
  }

  /**
   * The current window is never empty: it holds yesterday, so every point of yesterday
   * survives filtering by it (on a Monday too, where the window is that one day).
   */
  lemma CurrentPeriodKeepsYesterday(today: Date, data: CounterData)
    requires Valid(today)
    ensures var p := CurrentPeriod(today);
      forall i :: 0 <= i < |data| && data[i].date == PrevDay(today) ==> data[i] in FilterCountsByDate(data, p.start, p.end)
  {
    var p := CurrentPeriod(today);
    var kept := FilterCountsByDate(data, p.start, p.end);
    FilterKeepsExactlyInWindow(data, p.start, p.end);
    forall i | 0 <= i < |data| && data[i].date == PrevDay(today)
      ensures data[i] in kept
    {
      assert InWindow(data[i].date, p.start, p.end);
      assert multiset(kept)[data[i]] == multiset(data)[data[i]] > 0;
    }
  }

  /** `is_current_week`: the ISO week numbers of the two days are equal (the ISO year is not compared). */
  predicate IsCurrentWeek(reference: Date, today: Date)
    requires Valid(reference) && Valid(today)
  {
    IsoWeek(reference) == IsoWeek(today)
  }

  /** The week label: "This" when yesterday lies in today's ISO week, which is every day but Monday. */
  function WeekReference(today: Date): (s: string)
    requires Valid(today)
    ensures s == "This" || s == "Last"
    ensures s == "This" <==> Weekday(today) != 0
  {
    SameIsoWeekAsPrevDay(today);
    if IsCurrentWeek(PrevDay(today), today) then "This" else "Last"
  }

  /**
   * `(current - reference) / current * 100`: the change is taken relative to the current
   * total, and a current total of 0 raises `ZeroDivisionError`.
   */
  function PercentageChange(current: int, reference: int): (r: Outcome<real>)
    ensures r.Err? <==> current == 0
    ensures r.Err? ==> r.error == ZeroDivisionError
    ensures r.Ok? ==> r.value * (current as real) == ((current - reference) as real) * 100.0
  {
    if current == 0 then Err(ZeroDivisionError)
    else Ok((current - reference) as real / current as real * 100.0)
  }

  datatype Emoji = DownRightArrow | UpRightArrow

  /** The arrow shown next to the percentage. */
  function ChangeEmoji(percentage: real): (e: Emoji)
    ensures e == DownRightArrow <==> percentage < 0.0
  {
    if percentage < 0.0 then DownRightArrow else UpRightArrow
  }

  /**
   * The arrow points down exactly when the totals moved away from the current total's
   * sign: for a positive current total (the usual case), exactly when it is below the
   * reference total.
   */
  lemma EmojiSign(current: int, reference: int)
    requires current != 0
    ensures ChangeEmoji(PercentageChange(current, reference).value) == DownRightArrow <==>
      (current > 0 && current < reference) || (current < 0 && current > reference)
  {
    var p := PercentageChange(current, reference).value;
    var c := current as real;
    var d := (current - reference) as real * 100.0;
    assert p * c == d;
    if current > 0 {
      assert p < 0.0 <==> d < 0.0;
    } else {
      assert p < 0.0 <==> d > 0.0;
    }
  }

  /** `strftime("%d/%m")`: zero-padded day and month. */
  function DayMonth(d: Date): (s: string)
    requires Valid(d)
    ensures |s| == 5 && s[2] == '/'
    ensures AllDigits(s[..2]) && DigitsValue(s[..2]) == d.day
    ensures AllDigits(s[3..]) && DigitsValue(s[3..]) == d.month
  {
    PadTwoDigits(d.day);
    PadTwoDigits(d.month);
    var s := PadNat(d.day, 2) + "/" + PadNat(d.month, 2);
    assert s[..2] == PadNat(d.day, 2) && s[3..] == PadNat(d.month, 2);
    s
  }

  /** The values substituted into the tweet template. */
  datatype TweetParams = TweetParams(
    yesterdaysDate: string,
    countTotal: int,
    counterName1: string, counterName2: string, counterName3: string,
    counterCount1: int, counterCount2: int, counterCount3: int,
    weekReference: string,
    countLastWeekTotal: int,
    countPrecedingWeekTotal: int,
    percentageChangeEmoji: Emoji,
    percentageChange: real)

  /**
   * The tweet's values from the two periods' highlights. The percentage is computed first
   * (a `ZeroDivisionError` when the current total is 0), then the three medal slots read
   * ranked entries 0, 1 and 2 (an `IndexError` with fewer than three counters).
   */
  function TweetParamsFor(today: Date, current: CountHighlights, reference: CountHighlights): (r: Outcome<TweetParams>)
    requires Valid(today)
    ensures r.Err? <==> current.periodTotalCount == 0 || |current.mostRecentCountsSorted| < 3
    ensures r.Err? ==> r.error == if current.periodTotalCount == 0 then ZeroDivisionError else IndexError
    ensures r.Ok? ==>
      var p := r.value;
      var ranked := current.mostRecentCountsSorted;
      p.yesterdaysDate == DayMonth(PrevDay(today)) &&
      p.countTotal == current.mostRecentFlattenedCount &&
      p.counterName1 == ranked[0].counter.name && p.counterCount1 == ranked[0].count &&
      p.counterName2 == ranked[1].counter.name && p.counterCount2 == ranked[1].count &&
      p.counterName3 == ranked[2].counter.name && p.counterCount3 == ranked[2].count &&
      p.weekReference == WeekReference(today) &&
      p.countLastWeekTotal == current.periodTotalCount &&
      p.countPrecedingWeekTotal == reference.periodTotalCount &&
      PercentageChange(current.periodTotalCount, reference.periodTotalCount) == Ok(p.percentageChange) &&
      p.percentageChangeEmoji == ChangeEmoji(p.percentageChange)
  {
    match PercentageChange(current.periodTotalCount, reference.periodTotalCount)
    case Err(e) => Err(e)
    case Ok(change) =>
      var ranked := current.mostRecentCountsSorted;
      if |ranked| < 3 then Err(IndexError)
      else Ok(TweetParams(
        DayMonth(PrevDay(today)),
        current.mostRecentFlattenedCount,
        ranked[0].counter.name, ranked[1].counter.name, ranked[2].counter.name,
        ranked[0].count, ranked[1].count, ranked[2].count,
        WeekReference(today),
        current.periodTotalCount,
        reference.periodTotalCount,
        ChangeEmoji(change),
        change))
  }

  /** The counter service behind `get_counts`, for daily counts, answering through `server`. */
  function ApiFetch(server: CounterApi.Server): (fetch: CounterService.Fetch)
    ensures forall counter: CounterConfig, period: DateRange | InPythonRange(period.start) && InPythonRange(period.end) ::
      fetch(counter, period) == CounterApi.GetCounts(counter, period.start, period.end, Days, server)
  {
    (counter: CounterConfig, period: DateRange) =>
      if InPythonRange(period.start) && InPythonRange(period.end)
      then CounterApi.GetCounts(counter, period.start, period.end, Days, server)
      else Err(OverflowError)
  }

  /** `get_highlights_for_period`: fetch every counter's series for the period, then extract the highlights. */
  function HighlightsFor(counters: seq<CounterConfig>, period: DateRange, fetch: CounterService.Fetch): (r: Outcome<CountHighlights>)
    ensures CounterService.GetCountsForPeriod(counters, period, fetch).Err? ==>
      r == Err(CounterService.GetCountsForPeriod(counters, period, fetch).error)
    ensures CounterService.GetCountsForPeriod(counters, period, fetch).Ok? ==>
      r == CounterService.ExtractHighlights(CounterService.GetCountsForPeriod(counters, period, fetch).value)
  {
    match CounterService.GetCountsForPeriod(counters, period, fetch)
    case Err(e) => Err(e)
    case Ok(withCounts) => CounterService.ExtractHighlights(withCounts)
  }

  datatype LogLevel = LogWarning | LogError

  /** What `publish_yesterdays_results` decides before tweeting. */
  datatype Plan =
    | Abort(level: LogLevel, error: Error) // caught while getting highlights: logged, nothing tweeted
    | Raise(error: Error)                  // raised after the try block: not caught
    | Send(params: TweetParams)            // the tweet to send

  /**
   * The decision of `publish_yesterdays_results`. Only getting the two periods' highlights
   * is guarded: a `NoDataFoundException` is logged as a warning and any other error as an
   * error, and nothing is tweeted. An error while building the tweet's values escapes.
   */
  function PlanFor(today: Date, counters: seq<CounterConfig>, fetch: CounterService.Fetch): (plan: Plan)
    requires Valid(today)
    ensures var current := HighlightsFor(counters, CurrentPeriod(today), fetch);
      var reference := HighlightsFor(counters, ReferencePeriod(CurrentPeriod(today)), fetch);
      (plan.Abort? <==> current.Err? || reference.Err?) &&
      (plan.Abort? ==> plan.error == (if current.Err? then current.error else reference.error) &&
                       (plan.level == LogWarning <==> plan.error.NoDataFound?)) &&
      (plan.Raise? ==> TweetParamsFor(today, current.value, reference.value) == Err(plan.error)) &&
      (plan.Send? ==> TweetParamsFor(today, current.value, reference.value) == Ok(plan.params))
  {
    var current := CurrentPeriod(today);
    match HighlightsFor(counters, current, fetch)
    case Err(e) => Abort(if e.NoDataFound? then LogWarning else LogError, e)
    case Ok(currentHighlights) =>
      match HighlightsFor(counters, ReferencePeriod(current), fetch)
      case Err(e) => Abort(if e.NoDataFound? then LogWarning else LogError, e)
      case Ok(referenceHighlights) =>
        match TweetParamsFor(today, currentHighlights, referenceHighlights)
        case Err(e) => Raise(e)
        case Ok(params) => Send(params)
  }

  /** A zero current total reaches the percentage outside the try block, so it is raised, not logged. */
  lemma ZeroCurrentTotalRaises(today: Date, counters: seq<CounterConfig>, fetch: CounterService.Fetch)
    requires Valid(today)
    requires HighlightsFor(counters, CurrentPeriod(today), fetch).Ok?
    requires HighlightsFor(counters, ReferencePeriod(CurrentPeriod(today)), fetch).Ok?
    requires HighlightsFor(counters, CurrentPeriod(today), fetch).value.periodTotalCount == 0
    ensures PlanFor(today, counters, fetch) == Raise(ZeroDivisionError)
  {
  }

  /** The tweet service: the threads it has posted, and whether posting currently succeeds. */
  class TweetService {
    var posted: seq<TweetParams>
    var accepting: bool

    constructor(accepting: bool)
      ensures posted == [] && this.accepting == accepting
    {
      posted := [];
      this.accepting := accepting;
    }

    /** `tweet_thread`: posts the message when the service accepts it, and reports whether it did. */
    method TweetThread(params: TweetParams) returns (ok: bool)
      modifies this
      ensures ok == old(accepting) && accepting == old(accepting)
      ensures posted == old(posted) + (if ok then [params] else [])
    {
      ok := accepting;
      if ok {
        posted := posted + [params];
      }
    }
  }

  /** How one run of `publish_yesterdays_results` ends. */
  datatype Published =
    | Skipped(level: LogLevel, error: Error)
    | Raised(error: Error)
    | Tweeted(params: TweetParams)
    | TweetFailed(params: TweetParams) // the tweet service failed; logged as an error

  /**
   * `publish_yesterdays_results` for the configured counters: at most one tweet is posted,
   * and only when `PlanFor` decides to send one.
   */
  method PublishYesterdaysResults(today: Date, fetch: CounterService.Fetch, service: TweetService) returns (result: Published)
    requires Valid(today)
    modifies service
    ensures service.accepting == old(service.accepting)
    ensures var plan := PlanFor(today, Registry(), fetch);
      (plan.Abort? ==> result == Skipped(plan.level, plan.error) && service.posted == old(service.posted)) &&
      (plan.Raise? ==> result == Raised(plan.error) && service.posted == old(service.posted)) &&
      (plan.Send? ==>
         result == (if old(service.accepting) then Tweeted(plan.params) else TweetFailed(plan.params)) &&
         service.posted == old(service.posted) + (if old(service.accepting) then [plan.params] else []))
  {
    match PlanFor(today, Registry(), fetch)
    case Abort(level, e) =>
      return Skipped(level, e);
    case Raise(e) =>
      return Raised(e);
    case Send(params) =>
      var ok := service.TweetThread(params);
      result := if ok then Tweeted(params) else TweetFailed(params);
  }
}
