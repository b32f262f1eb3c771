/** Shared value types of the statistics service: the response record, the
    daily price row the provider hands back, the error taxonomy, and the
    Option/Result wrappers that replace Python's `None` and exceptions. */
module Models {

  datatype Option<+T> = None | Some(value: T)

  datatype Result<+R, +E> = Success(value: R) | Failure(error: E)

  /** Calendar dates are proleptic Gregorian day numbers (day 1 is 0001-01-01). */
  type Day = int

  /** One daily row of provider data; only high, low and close are consumed,
      `day` is the row's date and orders the rows. */
  datatype Row = Row(day: Day, high: real, low: real, close: real)

  /** The response record of the stats endpoint. `start` and `end` are the
      resolved dates (the source renders them as ISO strings, an injective
      encoding of the day number). */
  datatype StatsResult = StatsResult(
    ticker: string,
    start: Day,
    end: Day,
    count: nat,
    high: real,
    low: real,
    avgClose: real,
    lastClose: Option<real>)

  /** The ways a stats request fails.
      InvalidRange: both dates given and start after end (a ValueError, 400 at the router).
      DateOverflow: defaulting the start date leaves the calendar (an OverflowError, 500 at the router).
      UpstreamError: the fetch step failed, wrapped with the ticker (a ValueError, 400 at the router). */
  datatype Error =
    | InvalidRange
    | DateOverflow
    | UpstreamError(ticker: string, cause: string)
}
