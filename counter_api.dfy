/**
 * The pure parts of the counter data fetcher: how request dates are rendered, how the
 * request's date range is built from an inclusive caller range, how response dates are
 * read, and how a response becomes a series. The HTTP exchange itself is a parameter
 * (`Server`), so the model fetches nothing.
 */
module CounterApi {
  import opened Wrappers
  import opened Calendar
  import opened Text
  import opened Models

  /** Digit strings hold no separator. */
  lemma DigitsHoldNoSlash(s: string)
    requires AllDigits(s)
    ensures '/' !in s
  {
    assert forall i :: 0 <= i < |s| ==> s[i] != '/';
  }

  /**
   * `strftime("%d/%m/%Y")` when `monthFirst` is false (the request format) and
   * `strftime("%m/%d/%Y")` when it is true (the response format): three zero-padded
   * decimal fields separated by '/'.
   */
  function FormatDate(d: Date, monthFirst: bool): (s: string)
    requires InPythonRange(d)
    ensures |s| == 10
    ensures var parts := Split(s, '/');
      |parts| == 3 &&
      |parts[0]| == 2 && |parts[1]| == 2 && |parts[2]| == 4 &&
      AllDigits(parts[0]) && AllDigits(parts[1]) && AllDigits(parts[2]) &&
      DigitsValue(parts[if monthFirst then 1 else 0]) == d.day &&
      DigitsValue(parts[if monthFirst then 0 else 1]) == d.month &&
      DigitsValue(parts[2]) == d.year
  {
    var day := PadNat(d.day, 2);
    var month := PadNat(d.month, 2);
    var year := PadNat(d.year, 4);
    PadTwoDigits(d.day);
    PadTwoDigits(d.month);
    PadFourDigits(d.year);
    DigitsHoldNoSlash(day);
    DigitsHoldNoSlash(month);
    DigitsHoldNoSlash(year);
    if monthFirst then
      SplitThree(month, day, year, '/');
      month + ['/'] + day + ['/'] + year
    else
      SplitThree(day, month, year, '/');
      day + ['/'] + month + ['/'] + year
  }

  /** `parse_date_for_api`: the date as the API's request parameters expect it, `DD/MM/YYYY`. */
  function FormatForApi(d: Date): (s: string)
    requires InPythonRange(d)
    ensures |s| == 10 && s[2] == '/' && s[5] == '/'
    ensures AllDigits(s[..2]) && DigitsValue(s[..2]) == d.day
    ensures AllDigits(s[3..5]) && DigitsValue(s[3..5]) == d.month
    ensures AllDigits(s[6..]) && DigitsValue(s[6..]) == d.year
  {
    var day, month, year := PadNat(d.day, 2), PadNat(d.month, 2), PadNat(d.year, 4);
    PadTwoDigits(d.day);
    PadTwoDigits(d.month);
    PadFourDigits(d.year);
    var s := FormatDate(d, false);
    assert s == day + ['/'] + month + ['/'] + year;
    assert s[..2] == day && s[3..5] == month && s[6..] == year;
    s
  }

  /** The `%m` directive of `strptime`: one or two digits denoting 1 to 12. */
  function MonthField(f: string): (r: Option<int>)
    ensures r.Some? ==> 1 <= r.value <= 12
  {
    if 1 <= |f| <= 2 && AllDigits(f) && 1 <= DigitsValue(f) <= 12 then Some(DigitsValue(f))
    else None
  }

  /** The `%d` directive of `strptime`: one or two digits denoting 1 to 31, or a space and a digit 1 to 9. */
  function DayField(f: string): (r: Option<int>)
    ensures r.Some? ==> 1 <= r.value <= 31
  {
    if 1 <= |f| <= 2 && AllDigits(f) && 1 <= DigitsValue(f) <= 31 then Some(DigitsValue(f))
    else if |f| == 2 && f[0] == ' ' && IsDigit(f[1]) && f[1] != '0' then Some(DigitValue(f[1]))
    else None
  }

  /** The `%Y` directive of `strptime`: exactly four digits. */
  function YearField(f: string): (r: Option<int>)
    ensures r.Some? ==> 0 <= r.value <= 9999
  {
    if |f| == 4 && AllDigits(f) then
      assert DigitsValue(f[..3]) <= 999 by {
        assert DigitsValue(f[..1]) <= 9;
        assert f[..3][..2] == f[..2] && f[..2][..1] == f[..1];
      }
      assert f[..4] == f;
      Some(DigitsValue(f))
    else None
  }

  /**
   * `datetime.strptime(s, "%m/%d/%Y").date()` (or `"%d/%m/%Y"` when `monthFirst` is false):
   * the whole string must match, and the fields must name an existing day of a year from
   * 1 to 9999; otherwise a `ValueError`.
   */
  function ParseDate(s: string, monthFirst: bool): (r: Outcome<Date>)
    ensures r.Ok? ==> InPythonRange(r.value)
    ensures r.Err? ==> r.error == ValueError
  {
    var parts := Split(s, '/');
    if |parts| != 3 then Err(ValueError)
    else
      var m := MonthField(if monthFirst then parts[0] else parts[1]);
      var d := DayField(if monthFirst then parts[1] else parts[0]);
      var y := YearField(parts[2]);
      if m.Some? && d.Some? && y.Some? && 1 <= y.value && d.value <= DaysInMonth(y.value, m.value) then
        Ok(Date(y.value, m.value, d.value))
      else Err(ValueError)
  }

  /** `parse_date_from_api`: response dates are month first, `MM/DD/YYYY`. */
  function ParseFromApi(s: string): Outcome<Date> {
    ParseDate(s, true)
  }

  /** Reading a rendered date back with the same field order gives the date back. */
  lemma FormatParseRoundTrip(d: Date, monthFirst: bool)
    requires InPythonRange(d)
    ensures ParseDate(FormatDate(d, monthFirst), monthFirst) == Ok(d)
  {
  }

  /** A date the API sends as `MM/DD/YYYY` is read as that date. */
  lemma ParseFromApiReadsMonthFirst(d: Date)
    requires InPythonRange(d)
    ensures ParseFromApi(FormatDate(d, true)) == Ok(d)
  {
    FormatParseRoundTrip(d, true);
  }

  /**
   * The request format and the response format differ: a request date read back as a
   * response date has day and month swapped, and fails when its day exceeds 12. So the
   * two agree exactly on the days whose day equals their month.
   */
  lemma RequestDateReadAsResponse(d: Date)
    requires InPythonRange(d)
    ensures ParseFromApi(FormatForApi(d))
         == if d.day <= 12 then Ok(Date(d.year, d.day, d.month)) else Err(ValueError)
    ensures ParseFromApi(FormatForApi(d)) == Ok(d) <==> d.day == d.month
  {
  }

  /** The values substituted into a counter's URL template. */
  datatype TemplateValues = TemplateValues(startDate: string, endDate: string, interval: int)

  /**
   * The request for the inclusive range `start..end`: the API's end date is exclusive, so
   * the day after `end` is sent. Python raises `OverflowError` when that day is past
   * year 9999.
   */
  function RequestValues(start: Date, end: Date, interval: Interval): (r: Outcome<TemplateValues>)
    requires InPythonRange(start) && InPythonRange(end)
    ensures r.Err? <==> end == Date(9999, 12, 31)
    ensures r.Err? ==> r.error == OverflowError
    ensures r.Ok? ==>
      InPythonRange(NextDay(end)) &&
      r.value.startDate == FormatForApi(start) && r.value.endDate == FormatForApi(NextDay(end)) &&
      ParseDate(r.value.startDate, false) == Ok(start) &&
      (exists after :: ParseDate(r.value.endDate, false) == Ok(after) && Ordinal(after) == Ordinal(end) + 1) &&
      r.value.interval == IntervalCode(interval)
  {
    var after := NextDay(end);
    assert DaysInMonth(end.year, 12) == 31;
    assert after.year > 9999 <==> end == Date(9999, 12, 31);
    if after.year > 9999 then Err(OverflowError)
    else
      FormatParseRoundTrip(start, false);
      FormatParseRoundTrip(after, false);
      var values := TemplateValues(FormatForApi(start), FormatForApi(after), IntervalCode(interval));
      assert ParseDate(values.endDate, false) == Ok(after);
      Ok(values)
  }

  /** An HTTP response: status code, raw text, and the decoded JSON rows. */
  datatype Response = Response(status: int, text: string, rows: seq<seq<string>>)

  /** What the remote service answers to a request for a counter. */
  type Server = (CounterConfig, TemplateValues) -> Response

  /**
   * One JSON row `[date, count]` as a DataPoint. Python evaluates `row[0]`, parses it,
   * then evaluates `row[1]` and `int(...)`, so the first of these to fail decides the error.
   */
  function DecodeRow(row: seq<string>): (r: Outcome<DataPoint>)
    ensures r.Ok? ==> |row| >= 2 && ParseFromApi(row[0]) == Ok(r.value.date) && ParseInt(row[1]) == Some(r.value.count)
    ensures r.Err? ==> r.error == (if |row| == 0 || (ParseFromApi(row[0]).Ok? && |row| == 1) then IndexError else ValueError)
  {
    if |row| == 0 then Err(IndexError)
    else match ParseFromApi(row[0])
      case Err(e) => Err(e)
      case Ok(d) =>
        if |row| == 1 then Err(IndexError)
        else match ParseInt(row[1])
          case None => Err(ValueError)
          case Some(c) => Ok(DataPoint(d, c))
  }

  /** `list(map(DecodeRow, rows))`: rows are decoded in order and the first failure is raised. */
  function DecodeRows(rows: seq<seq<string>>): (r: Outcome<CounterData>)
    ensures r.Ok? ==> |r.value| == |rows| && forall i :: 0 <= i < |rows| ==> DecodeRow(rows[i]) == Ok(r.value[i])
    ensures r.Err? ==> exists i :: 0 <= i < |rows| && DecodeRow(rows[i]) == Err(r.error) &&
                                  forall j :: 0 <= j < i ==> DecodeRow(rows[j]).Ok?
  {
    if rows == [] then Ok([])
    else match DecodeRow(rows[0])
      case Err(e) => Err(e)
      case Ok(p) =>
        match DecodeRows(rows[1..])
        case Err(e) =>
          var i :| 0 <= i < |rows[1..]| && DecodeRow(rows[1..][i]) == Err(e) &&
                   forall j :: 0 <= j < i ==> DecodeRow(rows[1..][j]).Ok?;
          assert DecodeRow(rows[i + 1]) == Err(e);
          Err(e)
        case Ok(ps) => Ok([p] + ps)
  }

  /** A response with status other than 200 is an `EcoCounterApiError` carrying its text; otherwise its rows. */
  function DecodeResponse(response: Response): (r: Outcome<CounterData>)
    ensures response.status != 200 ==> r == Err(ApiError(response.text))
    ensures response.status == 200 ==> r == DecodeRows(response.rows)
  {
    if response.status != 200 then Err(ApiError(response.text)) else DecodeRows(response.rows)
  }

  /** The rows a server sends for a series: `[MM/DD/YYYY, str(count)]`. */
  function EncodeRows(points: CounterData): (rows: seq<seq<string>>)
    requires forall i :: 0 <= i < |points| ==> InPythonRange(points[i].date)
    ensures |rows| == |points|
  {
    if points == [] then []
    else [[FormatDate(points[0].date, true), IntToString(points[0].count)]] + EncodeRows(points[1..])
  }

  /** A successful response carrying a series decodes to exactly that series. */
  lemma {:induction false} DecodeEncode(points: CounterData, text: string)
    requires forall i :: 0 <= i < |points| ==> InPythonRange(points[i].date)
    ensures DecodeResponse(Response(200, text, EncodeRows(points))) == Ok(points)
    decreases |points|
  {
    if points != [] {
      FormatParseRoundTrip(points[0].date, true);
      IntToStringRoundTrip(points[0].count);
      DecodeEncode(points[1..], text);
      assert [points[0]] + points[1..] == points;
    }
  }

  /** `get_counts`: build the request for the inclusive range, ask the server, decode the answer. */
  function GetCounts(counter: CounterConfig, start: Date, end: Date, interval: Interval, server: Server): (r: Outcome<CounterData>)
    requires InPythonRange(start) && InPythonRange(end)
    ensures RequestValues(start, end, interval).Err? ==> r == Err(OverflowError)
    ensures RequestValues(start, end, interval).Ok? ==>
      r == DecodeResponse(server(counter, RequestValues(start, end, interval).value))
  {
    match RequestValues(start, end, interval)
    case Err(e) => Err(e)
    case Ok(values) => DecodeResponse(server(counter, values))
  }

  /** A server that answers every request with the same series hands that series to the caller. */
  lemma GetCountsFromFaithfulServer(counter: CounterConfig, start: Date, end: Date, interval: Interval, points: CounterData, server: Server)
    requires InPythonRange(start) && InPythonRange(end) && end != Date(9999, 12, 31)
    requires forall i :: 0 <= i < |points| ==> InPythonRange(points[i].date)
    requires forall values :: server(counter, values).status == 200 && server(counter, values).rows == EncodeRows(points)
    ensures GetCounts(counter, start, end, interval, server) == Ok(points)
  {
    var values := RequestValues(start, end, interval).value;
    DecodeEncode(points, server(counter, values).text);
    assert server(counter, values) == Response(200, server(counter, values).text, EncodeRows(points));
  }
}
