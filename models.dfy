/**
 * The records the bot passes around (DataPoint, CounterConfig, DateRange, the highlights of a
 * period), the request interval codes, the error kinds the source raises, and the registry of
 * counters in the order the bot fetches and ranks them.
 */
module Models {
  import opened Wrappers
  import opened Calendar

  /** Sampling granularity of a request. */
  datatype Interval = Days | Weeks | Months

  /** The numeric code the remote API expects for an interval. */
  function IntervalCode(interval: Interval): (code: int)
    ensures 4 <= code <= 6
    ensures interval == Days <==> code == 4
    ensures interval == Weeks <==> code == 5
    ensures interval == Months <==> code == 6
  {
    match interval
    case Days => 4
    case Weeks => 5
    case Months => 6
  }

  /** Distinct intervals are sent as distinct codes. */
  lemma IntervalCodeInjective(a: Interval, b: Interval)
    ensures IntervalCode(a) == IntervalCode(b) ==> a == b
  {
  }

  /** A counting station. Its URL template is not part of this model. */
  datatype CounterConfig = CounterConfig(id: string, name: string)

  /** One day's total for one counter. */
  datatype DataPoint = DataPoint(date: Date, count: int)

  /** A counter's series, in the order the API returned it. */
  type CounterData = seq<DataPoint>

  /** An inclusive range of days. */
  datatype DateRange = DateRange(start: Date, end: Date)

  datatype CounterWithCounts = CounterWithCounts(counter: CounterConfig, counts: CounterData)

  datatype CounterWithSingleCount = CounterWithSingleCount(counter: CounterConfig, count: int)

  datatype CountHighlights = CountHighlights(
    flattenedCounts: CounterData,
    mostRecentFlattenedCount: int,
    mostRecentCountsSorted: seq<CounterWithSingleCount>,
    periodTotalCount: int)

  /** The exceptions the modelled code raises, as values. */
  datatype Error =
    | NoDataFound(day: Date)       // NoDataFoundException
    | ApiError(body: string)       // EcoCounterApiError, carrying the response text
    | DataMismatch                 // CounterDataMismatch
    | ValueError                   // a date or a count that does not parse
    | IndexError                   // indexing an empty or too short list
    | ZeroDivisionError
    | OverflowError                // date arithmetic leaving years 1 to 9999

  type Outcome<T> = Result<T, Error>

  /** The configured counters, in registry order. */
  function Registry(): (counters: seq<CounterConfig>)
    ensures |counters| == 3
    ensures forall i, j :: 0 <= i < j < |counters| ==> counters[i].id != counters[j].id
  {
    [ CounterConfig("viaduc", "Viaduc"),
      CounterConfig("lift", "Pfaffenthal-Lift"),
      CounterConfig("glacis", "Glacis") ]
  }
}
