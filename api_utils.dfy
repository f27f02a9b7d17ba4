/**
 * Shared helpers of the HTTP handlers: the relative time ranges accepted by
 * the `timeRange` query parameter, and the JSON bodies of success and error
 * responses. The clock is the parameter `now`, in Unix seconds.
 */
module ApiUtils {
  import opened Optional

  const HourSeconds: int := 3600
  const DaySeconds: int := 86400
  const WeekSeconds: int := 7 * 86400

  datatype TimeRange = TimeRange(startTime: Option<int>, endTime: Option<int>)

  /** Length in seconds of a recognised range name. */
  function RangeSpan(name: string): Option<int> {
    if name == "1h" then Some(HourSeconds)
    else if name == "24h" then Some(DaySeconds)
    else if name == "7d" then Some(WeekSeconds)
    else None
  }

  /**
   * The window ending now that a range name selects. No range, or the empty
   * string, gives no bounds; an unknown name bounds only the end.
   */
  function ParseTimeRange(timeRange: Option<string>, now: int): (r: TimeRange)
    ensures timeRange.None? || timeRange.value == [] ==> r.startTime.None? && r.endTime.None?
    ensures timeRange.Some? && timeRange.value != [] ==> r.endTime == Some(now)
    ensures r.startTime.Some? <==> timeRange.Some? && timeRange.value in {"1h", "24h", "7d"}
    ensures timeRange == Some("1h") ==> r.startTime == Some(now - 3600)
    ensures timeRange == Some("24h") ==> r.startTime == Some(now - 86400)
    ensures timeRange == Some("7d") ==> r.startTime == Some(now - 604800)
  {
    if timeRange.None? || timeRange.value == [] then TimeRange(None, None)
    else
      var span := RangeSpan(timeRange.value);
      TimeRange(if span.Some? then Some(now - span.value) else None, Some(now))
  }

  /** A bounded range ends `now` and spans a positive length, at most one week. */
  lemma TimeRangeWindow(timeRange: string, now: int)
    requires ParseTimeRange(Some(timeRange), now).startTime.Some?
    ensures var r := ParseTimeRange(Some(timeRange), now);
            r.endTime == Some(now) && now - 604800 <= r.startTime.value < now
  {
  }

  /** Longer range names select windows that contain the shorter ones. */
  lemma TimeRangesNested(now: int)
    ensures ParseTimeRange(Some("7d"), now).startTime.value
              < ParseTimeRange(Some("24h"), now).startTime.value
              < ParseTimeRange(Some("1h"), now).startTime.value
  {
  }

  /** A JSON response body: `success`, then `data` or `error`, and an optional `count`. */
  datatype Body<T> =
    | Success(data: T, count: Option<int>)
    | Failure(error: string)

  /** Field names of a body as it is serialised. */
  function Fields<T>(b: Body<T>): set<string> {
    match b
    case Success(_, count) => if count.Some? then {"success", "data", "count"} else {"success", "data"}
    case Failure(_) => {"success", "error"}
  }

  function SuccessFlag<T>(b: Body<T>): bool {
    b.Success?
  }

  /** The body of a successful response: the data, and the count only when one is given. */
  function SuccessResponse<T>(data: T, count: Option<int>): (r: Body<T>)
    ensures SuccessFlag(r) && r.data == data
    ensures "count" in Fields(r) <==> count.Some?
    ensures count.Some? ==> r.count == count
  {
    Success(data, count)
  }

  const DefaultErrorMessage: string := "Internal server error"

  /** The body and status of a failed response: the error's message, or a generic one when it has none. */
  function ErrorResponse<T>(message: Option<string>, statusCode: int := 500): (r: (Body<T>, int))
    ensures !SuccessFlag(r.0) && r.1 == statusCode
    ensures "error" in Fields(r.0) && "data" !in Fields(r.0)
    ensures message.Some? && message.value != [] ==> r.0.error == message.value
    ensures message.None? || message.value == [] ==> r.0.error == DefaultErrorMessage
  {
    (Failure(if message.Some? && message.value != [] then message.value else DefaultErrorMessage), statusCode)
  }
}
