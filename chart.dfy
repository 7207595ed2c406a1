/**
 * `ssi/chart.py`: the trailing moving averages and the two figure
 * builders.  A figure is the list of traces added to it, in order, and a
 * small layout record; styling that carries no logic is not modelled.
 */
module Chart {
  import opened Wrappers
  import opened Calendar
  import opened Table

  // ---------------------------------------------------------------------
  // calculate_moving_averages
  // ---------------------------------------------------------------------

  function Sum(s: seq<real>): real {
    if s == [] then 0.0 else Sum(s[..|s| - 1]) + s[|s| - 1]
  }

  function Mean(s: seq<real>): real
    requires |s| > 0
  {
    Sum(s) / |s| as real
  }

  /** First index of the trailing window of at most `n` values ending at `i`. */
  function WindowStart(i: nat, n: nat): nat
    requires n > 0
  {
    if i + 1 >= n then i + 1 - n else 0
  }

  /**
   * `series.rolling(window=n, min_periods=1).mean()`: the mean of the last
   * `n` values up to and including each index, over fewer near the start.
   */
  function RollingMean(xs: seq<real>, n: nat): seq<real>
    requires n > 0
  {
    seq(|xs|, i requires 0 <= i < |xs| => Mean(xs[WindowStart(i, n)..i + 1]))
  }

  lemma {:induction false} SumDropFirst(s: seq<real>)
    requires |s| > 0
    ensures Sum(s) == s[0] + Sum(s[1..])
  {
    if |s| > 1 {
      var n := |s| - 1;
      assert s[..n][1..] == s[1..][..n - 1];
      SumDropFirst(s[..n]);
    } else {
      assert s[..0] == [] && s[1..] == [];
    }
  }

  /** The window sum at `i` from the one before: add `xs[i]`, drop what falls out. */
  lemma WindowSumStep(xs: seq<real>, n: nat, i: nat)
    requires n > 0 && i < |xs|
    ensures var lo := if i >= n then i - n else 0;
      Sum(xs[WindowStart(i, n)..i + 1]) == Sum(xs[lo..i]) + xs[i] - (if i >= n then xs[lo] else 0.0)
  {
    var lo := if i >= n then i - n else 0;
    assert xs[lo..i + 1][..i - lo] == xs[lo..i];
    if i >= n {
      SumDropFirst(xs[lo..i + 1]);
      assert xs[lo..i + 1][1..] == xs[lo + 1..i + 1];
    }
  }

  /**
   * The rolling mean by a running window sum: add the new value, drop the
   * one that falls out of the window, divide by the window's length.
   */
  method RollingMeanOf(xs: seq<real>, n: nat) returns (ma: seq<real>)
    requires n > 0
    ensures ma == RollingMean(xs, n)
  {
    ma := [];
    var sum := 0.0;
    var i := 0;
    while i < |xs|
      invariant 0 <= i <= |xs|
      invariant |ma| == i
      invariant forall k :: 0 <= k < i ==> ma[k] == Mean(xs[WindowStart(k, n)..k + 1])
      invariant sum == Sum(xs[if i >= n then i - n else 0..i])
    {
      WindowSumStep(xs, n, i);
      sum := sum + xs[i];
      if i >= n {
        sum := sum - xs[i - n];
      }
      ghost var w := xs[WindowStart(i, n)..i + 1];
      assert sum == Sum(w) && |w| == i + 1 - WindowStart(i, n);
      ma := ma + [sum / (i + 1 - WindowStart(i, n)) as real];
      i := i + 1;
    }
  }

  /**
   * `calculate_moving_averages`: the 20- and 50-bar means of the closes,
   * one per bar.  The closes are a value and are not changed.
   */
  method CalculateMovingAverages(close: seq<real>) returns (ma20: seq<real>, ma50: seq<real>)
    ensures ma20 == RollingMean(close, 20) && ma50 == RollingMean(close, 50)
    ensures |ma20| == |close| && |ma50| == |close|
  {
    ma20 := RollingMeanOf(close, 20);
    ma50 := RollingMeanOf(close, 50);
  }

  /** With a minimum period of 1, the first average is the first close. */
  lemma RollingMeanFirst(xs: seq<real>, n: nat)
    requires n > 0 && |xs| > 0
    ensures RollingMean(xs, n)[0] == xs[0]
  {
    var w := xs[0..1];
    assert w[..0] == [];
    assert Sum(w) == xs[0];
  }

  /** Before the window fills, the average is the mean of the whole prefix. */
  lemma RollingMeanPrefix(xs: seq<real>, n: nat, i: nat)
    requires n > 0 && i < |xs| && i < n
    ensures RollingMean(xs, n)[i] == Mean(xs[..i + 1])
  {
    assert xs[0..i + 1] == xs[..i + 1];
  }

  /** For the first twenty bars the 20- and 50-bar averages coincide. */
  lemma ShortWindowsAgree(xs: seq<real>, i: nat)
    requires i < |xs| && i < 20
    ensures RollingMean(xs, 20)[i] == RollingMean(xs, 50)[i]
  {
    RollingMeanPrefix(xs, 20, i);
    RollingMeanPrefix(xs, 50, i);
  }

  /** No look-ahead: the average at `i` depends only on the values up to `i`. */
  lemma RollingMeanCausal(xs: seq<real>, ys: seq<real>, n: nat, i: nat)
    requires n > 0 && i < |xs| && i < |ys| && xs[..i + 1] == ys[..i + 1]
    ensures RollingMean(xs, n)[i] == RollingMean(ys, n)[i]
  {
    var w := WindowStart(i, n);
    assert xs[w..i + 1] == xs[..i + 1][w..];
    assert ys[w..i + 1] == ys[..i + 1][w..];
  }

  lemma {:induction false} SumBounds(s: seq<real>, lo: real, hi: real)
    requires forall k :: 0 <= k < |s| ==> lo <= s[k] <= hi
    ensures |s| as real * lo <= Sum(s) <= |s| as real * hi
  {
    if s != [] {
      SumBounds(s[..|s| - 1], lo, hi);
    }
  }

  /** Each average lies between the least and the greatest value it averages. */
  lemma RollingMeanBounded(xs: seq<real>, n: nat, lo: real, hi: real, i: nat)
    requires n > 0 && i < |xs|
    requires forall k :: 0 <= k < |xs| ==> lo <= xs[k] <= hi
    ensures lo <= RollingMean(xs, n)[i] <= hi
  {
    var w := xs[WindowStart(i, n)..i + 1];
    SumBounds(w, lo, hi);
    var m := |w| as real;
    DivideBounds(Sum(w), m, lo, hi);
  }

  lemma DivideBounds(s: real, m: real, lo: real, hi: real)
    requires m > 0.0 && m * lo <= s <= m * hi
    ensures lo <= s / m <= hi
  {
    assert s / m - lo == (s - m * lo) / m;
    assert hi - s / m == (m * hi - s) / m;
  }

  lemma {:induction false} SumArithmetic(s: seq<real>, a: real, d: real)
    requires forall k :: 0 <= k < |s| ==> s[k] == a + k as real * d
    ensures Sum(s) == |s| as real * a + (|s| * (|s| - 1) / 2) as real * d
  {
    if s != [] {
      var n := |s| - 1;
      SumArithmetic(s[..n], a, d);
      assert (n * (n - 1) / 2) + n == (n + 1) * n / 2 by {
        assert n * (n - 1) + 2 * n == (n + 1) * n;
      }
    }
  }

  /**
   * Closes rising from 100.0 by 0.1 a bar: the 20-bar average at bar 19 is
   * the mean of the first twenty closes, 100.95.
   */
  lemma RisingSeriesAverage(xs: seq<real>)
    requires |xs| >= 20
    requires forall k :: 0 <= k < |xs| ==> xs[k] == 100.0 + k as real * 0.1
    ensures RollingMean(xs, 20)[19] == Mean(xs[..20]) == 100.95
  {
    RollingMeanPrefix(xs, 20, 19);
    SumArithmetic(xs[..20], 100.0, 0.1);
  }

  // ---------------------------------------------------------------------
  // Figures
  // ---------------------------------------------------------------------

  /** One trace; `row` is the subplot row, 0 in a figure without subplots. */
  datatype Trace =
    | Candlestick(name: string, x: seq<real>, open: seq<real>, high: seq<real>,
                  low: seq<real>, close: seq<real>, row: nat)
    | Line(name: string, x: seq<real>, y: seq<real>, row: nat)
    | Bar(name: string, x: seq<real>, y: seq<real>, colors: seq<string>, row: nat)

  /** The layout: title, subplot row heights (none without subplots) and subplot titles. */
  datatype Layout = Layout(title: string, rowHeights: seq<real>, subplotTitles: seq<string>)

  datatype Figure = Figure(traces: seq<Trace>, layout: Layout)

  /** `go.Figure()`. */
  const EmptyFigure: Figure := Figure([], Layout("", [], []))

  const BullishColor: string := "#26A69A"
  const BearishColor: string := "#EF5350"

  function Title(symbol: string): string {
    symbol + " Price Chart"
  }

  /** The exceptions the builders can raise, by cause. */
  datatype BuildError =
    | MissingColumn(column: string)
    | NotComparable
    | NotANumber(column: string)
    | BadStartDate(start: string)

  /** A frame object whose traces are added one at a time (`fig.add_trace`). */
  class FigureBuilder {
    var traces: seq<Trace>
    var layout: Layout

    constructor (layout: Layout)
      ensures this.traces == [] && this.layout == layout
    {
      this.traces := [];
      this.layout := layout;
    }

    method AddTrace(t: Trace)
      modifies this
      ensures traces == old(traces) + [t] && layout == old(layout)
    {
      traces := traces + [t];
    }

    /** `fig.update_layout(title=...)`. */
    method SetTitle(title: string)
      modifies this
      ensures layout == old(layout).(title := title) && traces == old(traces)
    {
      layout := layout.(title := title);
    }

    function Snapshot(): Figure
      reads this
    {
      Figure(traces, layout)
    }
  }

  // ---------------------------------------------------------------------
  // df[df['tradingDate'] >= start_date]
  // ---------------------------------------------------------------------

  /**
   * The start date as the comparison reads it: the instant its day begins;
   * the empty string reads as NaT, which no date reaches.
   */
  function StartBound(start: string): Result<Option<real>, BuildError> {
    if start == "" then Ok(None)
    else match ParseDate(start)
      case None => Err(BadStartDate(start))
      case Some(d) => Ok(Some(DayStartMs(d)))
  }

  predicate OnOrAfter(row: Row, bound: Option<real>) {
    bound.Some? && Get(row, DateColumn).Time? && Get(row, DateColumn).ms >= bound.value
  }

  /** The rows dated on or after the bound, in their order. */
  function KeepFrom(rows: seq<Row>, bound: Option<real>): (kept: seq<Row>)
    ensures |kept| <= |rows|
    ensures forall i :: 0 <= i < |kept| ==> OnOrAfter(kept[i], bound)
  {
    if rows == [] then []
    else (if OnOrAfter(rows[0], bound) then [rows[0]] else []) + KeepFrom(rows[1..], bound)
  }

  /** A date cell the comparison accepts: a timestamp or NaT. */
  predicate Comparable(row: Row) {
    Get(row, DateColumn).Time? || Get(row, DateColumn).NaN?
  }

  /** The filter of both builders; an error stands for what the comparison raises. */
  function FilterFrom(frame: Frame, start: string): Result<seq<Row>, BuildError> {
    if DateColumn !in frame.columns then Err(MissingColumn(DateColumn))
    else if exists i :: 0 <= i < |frame.rows| && !Comparable(frame.rows[i]) then Err(NotComparable)
    else
      var bound :- StartBound(start);
      Ok(KeepFrom(frame.rows, bound))
  }

  /** The numbers of column `c`, if every row holds a number there. */
  function Numbers(rows: seq<Row>, c: string): (r: Option<seq<real>>)
    ensures r.Some? <==> forall i :: 0 <= i < |rows| ==> Get(rows[i], c).Num?
    ensures r.Some? ==> (|r.value| == |rows|
      && forall i :: 0 <= i < |rows| ==> Get(rows[i], c) == Num(r.value[i]))
  {
    if rows == [] then Some([])
    else
      var rest := Numbers(rows[1..], c);
      assert forall i :: 1 <= i < |rows| ==> rows[i] == rows[1..][i - 1];
      if !Get(rows[0], c).Num? || rest.None? then None
      else Some([Get(rows[0], c).x] + rest.value)
  }

  /** `df_temp[c]` read as numbers. */
  function NumColumn(frame: Frame, rows: seq<Row>, c: string): Result<seq<real>, BuildError> {
    if c !in frame.columns then Err(MissingColumn(c))
    else match Numbers(rows, c)
      case None => Err(NotANumber(c))
      case Some(xs) => Ok(xs)
  }

  /** The timestamps of rows that all have one. */
  function Timestamps(rows: seq<Row>): (ts: seq<real>)
    requires forall i :: 0 <= i < |rows| ==> Get(rows[i], DateColumn).Time?
    ensures |ts| == |rows|
    ensures forall i :: 0 <= i < |rows| ==> Get(rows[i], DateColumn) == Time(ts[i])
  {
    seq(|rows|, i requires 0 <= i < |rows| => Get(rows[i], DateColumn).ms)
  }

  /**
   * The start of the day holding the instant `t`: a whole number of days
   * since the epoch, at most `t` and less than a day before it.
   */
  function DayStart(t: real): (d: real)
    ensures d / MsPerDay as real == (d / MsPerDay as real).Floor as real
    ensures d <= t < d + MsPerDay as real
  {
    var m := MsPerDay as real;
    var f := (t / m).Floor;
    assert f as real <= t / m < f as real + 1.0;
    assert (f * MsPerDay) as real == f as real * m;
    assert f as real * m <= t by { assert (t / m) * m == t; }
    assert t < (f as real + 1.0) * m by { assert (t / m) * m == t; }
    assert (f as real * m) / m == f as real;
    (f * MsPerDay) as real
  }

  /** `strftime('%Y-%m-%d')`: each timestamp as the start of its day. */
  function DayStarts(ts: seq<real>): (ds: seq<real>)
    ensures |ds| == |ts|
    ensures forall i :: 0 <= i < |ts| ==>
      ds[i] / MsPerDay as real == (ds[i] / MsPerDay as real).Floor as real
      && ds[i] <= ts[i] < ds[i] + MsPerDay as real
  {
    seq(|ts|, i requires 0 <= i < |ts| => DayStart(ts[i]))
  }

  /** The volume colours: bullish when the bar closed at or above its open. */
  function VolumeColors(open: seq<real>, close: seq<real>): seq<string>
    requires |open| == |close|
  {
    seq(|close|, i requires 0 <= i < |close| => if close[i] >= open[i] then BullishColor else BearishColor)
  }

  /** `df_temp['volume'] / 1_000_000`. */
  function Millions(v: seq<real>): seq<real> {
    seq(|v|, i requires 0 <= i < |v| => v[i] / 1000000.0)
  }

  // ---------------------------------------------------------------------
  // create_ohlcv_candlestick
  // ---------------------------------------------------------------------

  function SubplotLayout(symbol: string): Layout {
    Layout("", [0.7, 0.3], [Title(symbol), "Volume"])
  }

  /** What `create_ohlcv_candlestick(df, symbol, start_date)` returns or raises. */
  function CandlestickSpec(frame: Option<Frame>, symbol: string, start: string): Result<Figure, BuildError> {
    if frame.None? || frame.value.IsEmpty() then Ok(EmptyFigure)
    else
      var kept :- FilterFrom(frame.value, start);
      if kept == [] then Ok(EmptyFigure)
      else
        var close :- NumColumn(frame.value, kept, CloseColumn);
        var open :- NumColumn(frame.value, kept, OpenColumn);
        var high :- NumColumn(frame.value, kept, HighColumn);
        var low :- NumColumn(frame.value, kept, LowColumn);
        var volume :- NumColumn(frame.value, kept, VolumeColumn);
        var x := Timestamps(kept);
        Ok(Figure(
          [ Candlestick("OHLC", x, open, high, low, close, 1),
            Line("MA(20)", x, RollingMean(close, 20), 1),
            Line("MA(50)", x, RollingMean(close, 50), 1),
            Bar("Volume", x, Millions(volume), VolumeColors(open, close), 2) ],
          SubplotLayout(symbol).(title := Title(symbol))))
  }

  /**
   * `create_ohlcv_candlestick`: filter, average the kept closes, then add
   * the candles, the two averages and the volume bars to a two-row figure.
   */
  method CreateOhlcvCandlestick(frame: Option<Frame>, symbol: string, start: string)
    returns (r: Result<Figure, BuildError>)
    ensures r == CandlestickSpec(frame, symbol, start)
  {
    if frame.None? || frame.value.IsEmpty() {
      return Ok(EmptyFigure);
    }
    var df := frame.value;
    var filtered := FilterFrom(df, start);
    if filtered.Err? {
      return Err(filtered.error);
    }
    var kept := filtered.value;
    if kept == [] {
      return Ok(EmptyFigure);
    }
    var close := NumColumn(df, kept, CloseColumn);
    if close.Err? {
      return Err(close.error);
    }
    var ma20, ma50 := CalculateMovingAverages(close.value);
    var open := NumColumn(df, kept, OpenColumn);
    if open.Err? {
      return Err(open.error);
    }
    var high := NumColumn(df, kept, HighColumn);
    if high.Err? {
      return Err(high.error);
    }
    var low := NumColumn(df, kept, LowColumn);
    if low.Err? {
      return Err(low.error);
    }
    var volume := NumColumn(df, kept, VolumeColumn);
    if volume.Err? {
      return Err(volume.error);
    }
    var x := Timestamps(kept);
    var fig := new FigureBuilder(SubplotLayout(symbol));
    fig.AddTrace(Candlestick("OHLC", x, open.value, high.value, low.value, close.value, 1));
    fig.AddTrace(Line("MA(20)", x, ma20, 1));
    fig.AddTrace(Line("MA(50)", x, ma50, 1));
    var colors := VolumeColors(open.value, close.value);
    fig.AddTrace(Bar("Volume", x, Millions(volume.value), colors, 2));
    fig.SetTitle(Title(symbol));
    r := Ok(fig.Snapshot());
    assert r.value.traces == CandlestickSpec(frame, symbol, start).value.traces;
    assert r.value.layout == CandlestickSpec(frame, symbol, start).value.layout;
  }

  // ---------------------------------------------------------------------
  // create_simple_line_chart
  // ---------------------------------------------------------------------

  /** What `create_simple_line_chart(df, symbol, start_date)` returns or raises. */
  function SimpleLineSpec(frame: Option<Frame>, symbol: string, start: string): Result<Figure, BuildError> {
    if frame.None? || frame.value.IsEmpty() then Ok(EmptyFigure)
    else
      var kept :- FilterFrom(frame.value, start);
      if kept == [] then Ok(EmptyFigure)
      else
        var close :- NumColumn(frame.value, kept, CloseColumn);
        Ok(Figure([Line("Close Price", DayStarts(Timestamps(kept)), close, 0)],
                  Layout(Title(symbol), [], [])))
  }

  /** `create_simple_line_chart`: one close-price line over the kept days. */
  method CreateSimpleLineChart(frame: Option<Frame>, symbol: string, start: string)
    returns (r: Result<Figure, BuildError>)
    ensures r == SimpleLineSpec(frame, symbol, start)
  {
    if frame.None? || frame.value.IsEmpty() {
      return Ok(EmptyFigure);
    }
    var df := frame.value;
    var filtered := FilterFrom(df, start);
    if filtered.Err? {
      return Err(filtered.error);
    }
    var kept := filtered.value;
    if kept == [] {
      return Ok(EmptyFigure);
    }
    var days := DayStarts(Timestamps(kept));
    var close := NumColumn(df, kept, CloseColumn);
    if close.Err? {
      return Err(close.error);
    }
    var fig := new FigureBuilder(Layout("", [], []));
    fig.AddTrace(Line("Close Price", days, close.value, 0));
    fig.SetTitle(Title(symbol));
    r := Ok(fig.Snapshot());
    assert r.value.traces == SimpleLineSpec(frame, symbol, start).value.traces;
    assert r.value.layout == SimpleLineSpec(frame, symbol, start).value.layout;
  }

  // ---------------------------------------------------------------------
  // Properties of the filter and the figures
  // ---------------------------------------------------------------------

  /** The filter works row by row, so it keeps the rows' order. */
  lemma {:induction false} KeepFromAppend(a: seq<Row>, b: seq<Row>, bound: Option<real>)
    ensures KeepFrom(a + b, bound) == KeepFrom(a, bound) + KeepFrom(b, bound)
  {
    if a != [] {
      assert (a + b)[1..] == a[1..] + b;
      KeepFromAppend(a[1..], b, bound);
    } else {
      assert a + b == b;
    }
  }

  /** A row is kept exactly when it is in the frame and dated on or after the bound. */
  lemma {:induction false} KeepFromMembers(rows: seq<Row>, bound: Option<real>, r: Row)
    ensures r in KeepFrom(rows, bound) <==> r in rows && OnOrAfter(r, bound)
  {
    if rows != [] {
      KeepFromMembers(rows[1..], bound, r);
      assert rows == [rows[0]] + rows[1..];
    }
  }

  /** When every row passes, the filter keeps the frame as it is. */
  lemma {:induction false} KeepFromAll(rows: seq<Row>, bound: Option<real>)
    requires forall i :: 0 <= i < |rows| ==> OnOrAfter(rows[i], bound)
    ensures KeepFrom(rows, bound) == rows
  {
    if rows != [] {
      assert forall i :: 0 <= i < |rows| - 1 ==> rows[1..][i] == rows[i + 1];
      KeepFromAll(rows[1..], bound);
    }
  }

  /** The rows the chart filter keeps, and only those. */
  lemma FilterFromKeeps(frame: Frame, start: string, kept: seq<Row>)
    requires FilterFrom(frame, start) == Ok(kept)
    ensures DateColumn in frame.columns && StartBound(start).Ok?
    ensures forall r :: r in kept <==> r in frame.rows && OnOrAfter(r, StartBound(start).value)
  {
    forall r {
      KeepFromMembers(frame.rows, StartBound(start).value, r);
    }
  }

  /**
   * When the filter raises: no date column, a date cell the comparison
   * cannot order (text or a number), or a start date that does not parse.
   */
  lemma FilterFromFails(frame: Frame, start: string)
    ensures FilterFrom(frame, start).Err? <==>
      || DateColumn !in frame.columns
      || (exists i :: 0 <= i < |frame.rows| && !Comparable(frame.rows[i]))
      || (start != "" && ParseDate(start).None?)
  {
  }

  /** A text cell in the date column makes the filter raise. */
  lemma TextDateNotComparable(frame: Frame, start: string, i: nat)
    requires DateColumn in frame.columns && i < |frame.rows| && Get(frame.rows[i], DateColumn).Str?
    ensures FilterFrom(frame, start) == Err(NotComparable)
  {
    assert !Comparable(frame.rows[i]);
  }

  /** Nothing compares on or after NaT. */
  lemma {:induction false} KeepFromNaT(rows: seq<Row>)
    ensures KeepFrom(rows, None) == []
  {
    if rows != [] {
      KeepFromNaT(rows[1..]);
    }
  }

  /**
   * `go.Figure()` is blank: no trace, no subplot grid, no title.  Any other
   * figure a builder returns carries its four traces or its one line.
   */
  lemma EmptyFigureBlank(frame: Option<Frame>, symbol: string, start: string)
    ensures EmptyFigure.traces == [] && EmptyFigure.layout.rowHeights == [] && EmptyFigure.layout.title == ""
    ensures CandlestickSpec(frame, symbol, start).Ok? && CandlestickSpec(frame, symbol, start).value != EmptyFigure
      ==> |CandlestickSpec(frame, symbol, start).value.traces| == 4
    ensures SimpleLineSpec(frame, symbol, start).Ok? && SimpleLineSpec(frame, symbol, start).value != EmptyFigure
      ==> |SimpleLineSpec(frame, symbol, start).value.traces| == 1
  {
  }

  /** An empty start date reads as NaT: no row compares on or after it. */
  lemma NaTStartKeepsNothing(frame: Frame, symbol: string)
    requires FilterFrom(frame, "").Ok?
    ensures FilterFrom(frame, "") == Ok([])
    ensures CandlestickSpec(Some(frame), symbol, "") == Ok(EmptyFigure)
    ensures SimpleLineSpec(Some(frame), symbol, "") == Ok(EmptyFigure)
  {
    KeepFromNaT(frame.rows);
  }

  /** A start date after every trading day gives the empty figure from both builders. */
  lemma StartAfterAllRows(frame: Frame, symbol: string, start: string, d: Date)
    requires ParseDate(start) == Some(d) && start != ""
    requires DateColumn in frame.columns
    requires forall i :: 0 <= i < |frame.rows| ==>
      Get(frame.rows[i], DateColumn).NaN?
      || (Get(frame.rows[i], DateColumn).Time? && Get(frame.rows[i], DateColumn).ms < DayStartMs(d))
    ensures CandlestickSpec(Some(frame), symbol, start) == Ok(EmptyFigure)
    ensures SimpleLineSpec(Some(frame), symbol, start) == Ok(EmptyFigure)
  {
    assert FilterFrom(frame, start) == Ok(KeepFrom(frame.rows, Some(DayStartMs(d))));
    var kept := KeepFrom(frame.rows, Some(DayStartMs(d)));
    if kept != [] {
      KeepFromMembers(frame.rows, Some(DayStartMs(d)), kept[0]);
      assert false;
    }
  }

  /** Both builders return the empty figure on exactly the same inputs. */
  lemma BuildersAgreeOnEmpty(frame: Option<Frame>, symbol: string, start: string)
    ensures CandlestickSpec(frame, symbol, start) == Ok(EmptyFigure)
      <==> SimpleLineSpec(frame, symbol, start) == Ok(EmptyFigure)
  {
  }

  /**
   * A non-empty candlestick figure: candles, MA(20) and MA(50) on the upper
   * row, volume bars on the lower, all over the kept rows' timestamps.
   */
  lemma CandlestickLayout(frame: Option<Frame>, symbol: string, start: string, fig: Figure)
    requires CandlestickSpec(frame, symbol, start) == Ok(fig) && fig != EmptyFigure
    ensures frame.Some? && !frame.value.IsEmpty() && FilterFrom(frame.value, start).Ok?
    ensures |FilterFrom(frame.value, start).value| > 0
    ensures |fig.traces| == 4
    ensures fig.traces[0].Candlestick? && fig.traces[0].name == "OHLC" && fig.traces[0].row == 1
    ensures fig.traces[1].Line? && fig.traces[1].name == "MA(20)" && fig.traces[1].row == 1
    ensures fig.traces[2].Line? && fig.traces[2].name == "MA(50)" && fig.traces[2].row == 1
    ensures fig.traces[3].Bar? && fig.traces[3].name == "Volume" && fig.traces[3].row == 2
    ensures forall k :: 0 <= k < 4 ==> fig.traces[k].x == Timestamps(FilterFrom(frame.value, start).value)
    ensures fig.layout == Layout(Title(symbol), [0.7, 0.3], [Title(symbol), "Volume"])
  {
  }

  /**
   * The values of a non-empty candlestick figure, bar by bar: the kept
   * rows' prices, the averages of the kept closes only, the volume in
   * millions and the colour of each volume bar.
   */
  lemma CandlestickValues(frame: Option<Frame>, symbol: string, start: string, fig: Figure)
    requires CandlestickSpec(frame, symbol, start) == Ok(fig) && fig != EmptyFigure
    ensures frame.Some? && FilterFrom(frame.value, start).Ok? && |fig.traces| == 4
    ensures fig.traces[0].Candlestick? && fig.traces[1].Line? && fig.traces[2].Line? && fig.traces[3].Bar?
    ensures var kept := FilterFrom(frame.value, start).value;
      var c := fig.traces[0];
      |c.open| == |c.high| == |c.low| == |c.close| == |fig.traces[3].y| == |fig.traces[3].colors| == |kept|
      && (forall i :: 0 <= i < |kept| ==>
            Get(kept[i], OpenColumn) == Num(c.open[i]) && Get(kept[i], HighColumn) == Num(c.high[i])
            && Get(kept[i], LowColumn) == Num(c.low[i]) && Get(kept[i], CloseColumn) == Num(c.close[i])
            && Get(kept[i], VolumeColumn) == Num(fig.traces[3].y[i] * 1000000.0)
            && fig.traces[3].colors[i] == (if c.close[i] >= c.open[i] then BullishColor else BearishColor))
      && fig.traces[1].y == RollingMean(c.close, 20)
      && fig.traces[2].y == RollingMean(c.close, 50)
  {
    var df := frame.value;
    var kept := FilterFrom(df, start).value;
    var volume := NumColumn(df, kept, VolumeColumn).value;
    assert fig.traces[3].y == Millions(volume);
    forall i | 0 <= i < |kept|
      ensures Get(kept[i], VolumeColumn) == Num(fig.traces[3].y[i] * 1000000.0)
    {
      assert fig.traces[3].y[i] * 1000000.0 == volume[i];
    }
  }

  /**
   * The averages restart at the start date: the first bar's MA(20) and
   * MA(50) are its own close, whatever the rows before the start held.
   */
  lemma AveragesRestartAtStart(frame: Option<Frame>, symbol: string, start: string, fig: Figure)
    requires CandlestickSpec(frame, symbol, start) == Ok(fig) && fig != EmptyFigure
    ensures |fig.traces| == 4 && fig.traces[0].Candlestick? && |fig.traces[0].close| > 0
    ensures fig.traces[1].Line? && fig.traces[2].Line?
    ensures |fig.traces[1].y| > 0 && |fig.traces[2].y| > 0
    ensures fig.traces[1].y[0] == fig.traces[0].close[0] == fig.traces[2].y[0]
  {
    CandlestickValues(frame, symbol, start, fig);
    CandlestickLayout(frame, symbol, start, fig);
    RollingMeanFirst(fig.traces[0].close, 20);
    RollingMeanFirst(fig.traces[0].close, 50);
  }

  /** A non-empty simple chart: one close-price line over the kept days. */
  lemma SimpleLineShape(frame: Option<Frame>, symbol: string, start: string, fig: Figure)
    requires SimpleLineSpec(frame, symbol, start) == Ok(fig) && fig != EmptyFigure
    ensures frame.Some? && FilterFrom(frame.value, start).Ok?
    ensures var kept := FilterFrom(frame.value, start).value;
      |kept| > 0 && |fig.traces| == 1 && fig.traces[0].Line?
      && fig.traces[0].name == "Close Price" && fig.traces[0].row == 0
      && |fig.traces[0].x| == |fig.traces[0].y| == |kept|
      && (forall i :: 0 <= i < |kept| ==>
            Get(kept[i], CloseColumn) == Num(fig.traces[0].y[i])
            && Get(kept[i], DateColumn).Time?
            && fig.traces[0].x[i] <= Get(kept[i], DateColumn).ms < fig.traces[0].x[i] + MsPerDay as real)
      && fig.layout == Layout(Title(symbol), [], [])
  {
    var kept := FilterFrom(frame.value, start).value;
    var ts := Timestamps(kept);
    assert fig.traces[0].x == DayStarts(ts);
  }
}
