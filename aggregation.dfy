/** The reductions compute_stats applies to a non-empty series of daily rows:
    count, highest high, lowest low, mean close and last close. */
module Aggregation {
  import opened Models

  /** The highest `high` of the rows: an upper bound attained by some row. */
  function MaxHigh(rows: seq<Row>): (m: real)
    requires |rows| > 0
    ensures forall i :: 0 <= i < |rows| ==> rows[i].high <= m
    ensures exists i :: 0 <= i < |rows| && rows[i].high == m
  {
    if |rows| == 1 then rows[0].high
    else
      var rest := MaxHigh(rows[1..]);
      assert forall i :: 1 <= i < |rows| ==> rows[i] == rows[1..][i - 1];
      if rows[0].high >= rest then rows[0].high else rest
  }

  /** The lowest `low` of the rows: a lower bound attained by some row. */
  function MinLow(rows: seq<Row>): (m: real)
    requires |rows| > 0
    ensures forall i :: 0 <= i < |rows| ==> m <= rows[i].low
    ensures exists i :: 0 <= i < |rows| && rows[i].low == m
  {
    if |rows| == 1 then rows[0].low
    else
      var rest := MinLow(rows[1..]);
      assert forall i :: 1 <= i < |rows| ==> rows[i] == rows[1..][i - 1];
      if rows[0].low <= rest then rows[0].low else rest
  }

  /** The sum of the closes. */
  function SumClose(rows: seq<Row>): real {
    if |rows| == 0 then 0.0 else rows[0].close + SumClose(rows[1..])
  }

  /** The arithmetic mean of the closes: it is neither below every close
      nor above every close. */
  function AvgClose(rows: seq<Row>): (m: real)
    requires |rows| > 0
    ensures exists i :: 0 <= i < |rows| && rows[i].close <= m
    ensures exists i :: 0 <= i < |rows| && m <= rows[i].close
  {
    var n := |rows| as real;
    var mean := SumClose(rows) / n;
    assert mean * n == SumClose(rows);
    SumCloseStrict(rows, mean, mean);
    mean
  }

  /** Closes all strictly above lo sum to more than n * lo; closes all
      strictly below hi sum to less than n * hi. */
  lemma {:induction false} SumCloseStrict(rows: seq<Row>, lo: real, hi: real)
    requires |rows| > 0
    ensures (forall i :: 0 <= i < |rows| ==> lo < rows[i].close) ==> (|rows| as real) * lo < SumClose(rows)
    ensures (forall i :: 0 <= i < |rows| ==> rows[i].close < hi) ==> SumClose(rows) < (|rows| as real) * hi
    decreases |rows|
  {
    if |rows| > 1 {
      assert forall i :: 0 <= i < |rows| - 1 ==> rows[1..][i] == rows[i + 1];
      SumCloseStrict(rows[1..], lo, hi);
    }
  }

  /** The close of the final row, absent only for an empty series. */
  function LastClose(rows: seq<Row>): (r: Option<real>)
    ensures r.Some? <==> |rows| > 0
    ensures r.Some? ==> r.value == rows[|rows| - 1].close
  {
    if |rows| == 0 then None else Some(rows[|rows| - 1].close)
  }

  /** Packages the reductions of a non-empty series for `ticker` over the
      resolved range [start, end]. */
  function Summarize(ticker: string, start: Day, end: Day, rows: seq<Row>): (r: StatsResult)
    requires |rows| > 0
    ensures r.ticker == ticker && r.start == start && r.end == end
    ensures r.count == |rows|
    ensures forall i :: 0 <= i < |rows| ==> rows[i].high <= r.high && r.low <= rows[i].low
    ensures (exists i :: 0 <= i < |rows| && rows[i].high == r.high) &&
            (exists i :: 0 <= i < |rows| && rows[i].low == r.low)
    ensures r.avgClose * (r.count as real) == SumClose(rows)
    ensures r.lastClose == Some(rows[|rows| - 1].close)
  {
    var avg := AvgClose(rows);
    assert avg == SumClose(rows) / (|rows| as real);
    StatsResult(ticker, start, end, |rows|, MaxHigh(rows), MinLow(rows), avg, LastClose(rows))
  }

  /** Closes all within [lo, hi] give a sum within [n * lo, n * hi]. */
  lemma {:induction false} SumCloseBounds(rows: seq<Row>, lo: real, hi: real)
    requires forall i :: 0 <= i < |rows| ==> lo <= rows[i].close <= hi
    ensures (|rows| as real) * lo <= SumClose(rows) <= (|rows| as real) * hi
    decreases |rows|
  {
    if |rows| > 0 {
      assert forall i :: 0 <= i < |rows| - 1 ==> rows[1..][i] == rows[i + 1];
      SumCloseBounds(rows[1..], lo, hi);
    }
  }

  /** The mean close lies within any bounds that hold for every close. */
  lemma AvgCloseBetween(rows: seq<Row>, lo: real, hi: real)
    requires |rows| > 0
    requires forall i :: 0 <= i < |rows| ==> lo <= rows[i].close <= hi
    ensures lo <= AvgClose(rows) <= hi
  {
    var n := |rows| as real;
    SumCloseBounds(rows, lo, hi);
    assert n * lo <= SumClose(rows) <= n * hi;
    assert AvgClose(rows) * n == SumClose(rows);
  }

  /** A well-formed row has its close between its low and its high. */
  predicate WellFormed(row: Row) {
    row.low <= row.close <= row.high
  }

  /** On well-formed rows the statistics are consistent: low <= high, and the
      mean and last close both lie between them. */
  lemma SummarizeConsistent(ticker: string, start: Day, end: Day, rows: seq<Row>)
    requires |rows| > 0
    requires forall i :: 0 <= i < |rows| ==> WellFormed(rows[i])
    ensures var r := Summarize(ticker, start, end, rows);
      r.low <= r.high &&
      r.low <= r.avgClose <= r.high &&
      r.lastClose.Some? && r.low <= r.lastClose.value <= r.high
  {
    var r := Summarize(ticker, start, end, rows);
    assert forall i :: 0 <= i < |rows| ==> r.low <= rows[i].close <= r.high by {
      forall i | 0 <= i < |rows| ensures r.low <= rows[i].close <= r.high {
        assert WellFormed(rows[i]);
      }
    }
    AvgCloseBetween(rows, r.low, r.high);
    assert WellFormed(rows[0]);
  }

  /** Rows strictly ordered by date. */
  predicate ChronologicallyOrdered(rows: seq<Row>) {
    forall i, j :: 0 <= i < j < |rows| ==> rows[i].day < rows[j].day
  }

  /** On a chronologically ordered series the final row is the latest-dated
      one: every earlier row is strictly older, and the last close is the
      close of the row with the greatest date. */
  lemma LastCloseIsLatest(rows: seq<Row>, j: nat)
    requires ChronologicallyOrdered(rows)
    requires j < |rows|
    ensures rows[j].day <= rows[|rows| - 1].day
    ensures j < |rows| - 1 ==> rows[j].day < rows[|rows| - 1].day
    ensures rows[j].day == rows[|rows| - 1].day ==> LastClose(rows) == Some(rows[j].close)
  {
  }

  /** The three-row fixture of the smoke test (2024-01-02 .. 2024-01-04):
      count 3, high 106, low 99, mean close 103.5 and last close 105.5. The
      resolved range 2024-01-01 .. 2024-12-31 stands in for the test's
      clock-relative default range. */
  lemma SmokeSeries()
    ensures var rows := [Row(738887, 105.0, 99.0, 104.0), Row(738888, 103.0, 100.0, 101.0), Row(738889, 106.0, 101.0, 105.5)];
      var r := Summarize("MSFT", 738886, 739251, rows);
      r == StatsResult("MSFT", 738886, 739251, 3, 106.0, 99.0, 103.5, Some(105.5))
  {
  }
}
