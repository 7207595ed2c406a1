/**
 * `ssi/loader.py`: the dashboard's entry points.  They compose validation,
 * the fetch and the chart builders; the fetch is a parameter (it stands
 * for the network request), and so is the current year.
 */
module Loader {
  import opened Wrappers
  import opened Text
  import opened Calendar
  import opened Table
  import opened Fetch
  import opened Chart

  /** `fetch_historical_price(ticker, start_date)` as the loader sees it. */
  type Fetcher = (string, string) -> Option<Frame>

  /**
   * `get_default_start_date`: the first of January of the current year,
   * as `strftime('%Y-%m-%d')` prints it.
   */
  function GetDefaultStartDate(year: int): (s: string)
    requires 1 <= year <= 9999
    ensures |s| >= 7 && s[|s| - 6..] == "-01-01"
  {
    var s := FormatDate(Date(year, 1, 1));
    assert TwoDigits(1) == "01";
    assert s == Decimal(year) + "-01-01";
    s
  }

  /** From year 1000 on, the default start date reads back as New Year's day. */
  lemma DefaultStartIsNewYear(year: int)
    requires 1000 <= year <= 9999
    ensures ParseDate(GetDefaultStartDate(year)) == Some(Date(year, 1, 1))
    ensures !RejectedStartDate(Some(GetDefaultStartDate(year)))
  {
    ParseFormatDate(Date(year, 1, 1));
  }

  /** The start date used when the caller gives none. */
  function EffectiveStart(startDate: Option<string>, year: int): string
    requires 1 <= year <= 9999
  {
    if startDate.None? then GetDefaultStartDate(year) else startDate.value
  }

  /** `fig.layout.xaxis2`, read by the debug print, exists only on the two-row figure. */
  predicate HasSecondAxis(fig: Figure) {
    |fig.layout.rowHeights| >= 2
  }

  /**
   * `load_ticker_price(ticker, start_date)`.  An invalid ticker or a
   * missing or empty table gives the simple chart of no data; otherwise
   * the candlestick figure, unless building it or the debug print after
   * it raises, in which case the simple chart of the fetched table.  An
   * error of that last build propagates.
   */
  function LoadTickerPrice(ticker: Option<string>, startDate: Option<string>, year: int, fetch: Fetcher)
    : Result<Figure, BuildError>
    requires 1 <= year <= 9999
  {
    if !ValidateTicker(ticker) then SimpleLineSpec(None, ticker.GetOr(""), startDate.GetOr(""))
    else
      var symbol := ticker.value;
      var start := EffectiveStart(startDate, year);
      var df := fetch(symbol, start);
      if df.None? || df.value.IsEmpty() then SimpleLineSpec(None, symbol, start)
      else match CandlestickSpec(df, symbol, start)
        case Ok(fig) => if HasSecondAxis(fig) then Ok(fig) else SimpleLineSpec(df, symbol, start)
        case Err(_) => SimpleLineSpec(df, symbol, start)
  }

  /** `get_ticker_data(ticker, start_date)`: the fetched table, or `None`. */
  function GetTickerData(ticker: Option<string>, startDate: Option<string>, year: int, fetch: Fetcher)
    : Option<Frame>
    requires 1 <= year <= 9999
  {
    if !ValidateTicker(ticker) then None
    else
      var df := fetch(ticker.value, EffectiveStart(startDate, year));
      if df.None? || df.value.IsEmpty() then None else df
  }

  /** `get_available_tickers`. */
  function GetAvailableTickers(): seq<string> {
    [ "VNINDEX", "VN30", "HNX", "HNX30",
      "TCB", "VCB", "BID", "CTG", "MBB", "STB",
      "FPT", "VNM", "VIC", "VHM", "HPG", "MSN",
      "SAB", "BVH", "GAS", "PLX", "POW", "SHB" ]
  }

  /** `format_ticker_for_display`: empty for a falsy ticker, else stripped and upper-cased. */
  function FormatTickerForDisplay(ticker: Option<string>): string {
    if ticker.None? || ticker.value == "" then "" else Normalize(ticker.value)
  }

  // ---------------------------------------------------------------------
  // What the loader promises
  // ---------------------------------------------------------------------

  /** An invalid ticker gives the empty figure and never reaches the fetch. */
  lemma InvalidTickerGivesEmptyFigure(ticker: Option<string>, startDate: Option<string>, year: int,
                                      fetch: Fetcher, other: Fetcher)
    requires 1 <= year <= 9999 && !ValidateTicker(ticker)
    ensures LoadTickerPrice(ticker, startDate, year, fetch) == Ok(EmptyFigure)
    ensures LoadTickerPrice(ticker, startDate, year, fetch) == LoadTickerPrice(ticker, startDate, year, other)
    ensures GetTickerData(ticker, startDate, year, fetch).None?
  {
  }

  /** Leaving out the start date is the same as passing the default one. */
  lemma DefaultStartSubstituted(ticker: Option<string>, year: int, fetch: Fetcher)
    requires 1 <= year <= 9999 && ValidateTicker(ticker)
    ensures LoadTickerPrice(ticker, None, year, fetch)
      == LoadTickerPrice(ticker, Some(GetDefaultStartDate(year)), year, fetch)
    ensures GetTickerData(ticker, None, year, fetch)
      == GetTickerData(ticker, Some(GetDefaultStartDate(year)), year, fetch)
  {
  }

  /** No table, or an empty one, gives the empty figure. */
  lemma NoDataGivesEmptyFigure(ticker: Option<string>, startDate: Option<string>, year: int, fetch: Fetcher)
    requires 1 <= year <= 9999 && ValidateTicker(ticker)
    requires var df := fetch(ticker.value, EffectiveStart(startDate, year)); df.None? || df.value.IsEmpty()
    ensures LoadTickerPrice(ticker, startDate, year, fetch) == Ok(EmptyFigure)
    ensures GetTickerData(ticker, startDate, year, fetch).None?
  {
  }

  /** A candlestick figure with data is returned unchanged. */
  lemma CandlestickReturned(ticker: Option<string>, startDate: Option<string>, year: int,
                            fetch: Fetcher, fig: Figure)
    requires 1 <= year <= 9999 && ValidateTicker(ticker)
    requires var start := EffectiveStart(startDate, year);
      CandlestickSpec(fetch(ticker.value, start), ticker.value, start) == Ok(fig) && fig != EmptyFigure
    ensures LoadTickerPrice(ticker, startDate, year, fetch) == Ok(fig)
  {
    var start := EffectiveStart(startDate, year);
    CandlestickLayout(fetch(ticker.value, start), ticker.value, start, fig);
  }

  /** When the candlestick build raises, the simple chart of the same table is the answer. */
  lemma FallbackOnBuildError(ticker: Option<string>, startDate: Option<string>, year: int, fetch: Fetcher)
    requires 1 <= year <= 9999 && ValidateTicker(ticker)
    requires var start := EffectiveStart(startDate, year);
      CandlestickSpec(fetch(ticker.value, start), ticker.value, start).Err?
    ensures var start := EffectiveStart(startDate, year);
      LoadTickerPrice(ticker, startDate, year, fetch) == SimpleLineSpec(fetch(ticker.value, start), ticker.value, start)
  {
  }

  /**
   * When no row is dated on or after the start, the candlestick builder's
   * empty figure makes the debug print raise; the simple chart it falls
   * back to is the empty figure too.
   */
  lemma EmptyCandlestickStaysEmpty(ticker: Option<string>, startDate: Option<string>, year: int, fetch: Fetcher)
    requires 1 <= year <= 9999 && ValidateTicker(ticker)
    requires var start := EffectiveStart(startDate, year);
      CandlestickSpec(fetch(ticker.value, start), ticker.value, start) == Ok(EmptyFigure)
    ensures LoadTickerPrice(ticker, startDate, year, fetch) == Ok(EmptyFigure)
  {
    var start := EffectiveStart(startDate, year);
    BuildersAgreeOnEmpty(fetch(ticker.value, start), ticker.value, start);
  }

  /**
   * Every figure the loader returns is the empty figure, a four-trace
   * candlestick figure or a one-line simple chart.
   */
  lemma LoadedFigureKinds(ticker: Option<string>, startDate: Option<string>, year: int, fetch: Fetcher, fig: Figure)
    requires 1 <= year <= 9999
    requires LoadTickerPrice(ticker, startDate, year, fetch) == Ok(fig)
    ensures fig == EmptyFigure
      || (|fig.traces| == 4 && fig.traces[0].Candlestick? && HasSecondAxis(fig))
      || (|fig.traces| == 1 && fig.traces[0].Line? && fig.traces[0].name == "Close Price")
  {
    if ValidateTicker(ticker) && fig != EmptyFigure {
      var start := EffectiveStart(startDate, year);
      var df := fetch(ticker.value, start);
      var c := CandlestickSpec(df, ticker.value, start);
      if c.Ok? && HasSecondAxis(c.value) {
        CandlestickLayout(df, ticker.value, start, fig);
      } else {
        SimpleLineShape(df, ticker.value, start, fig);
      }
    }
  }

  /** A chart with data is drawn only from a table `get_ticker_data` would return. */
  lemma ChartImpliesData(ticker: Option<string>, startDate: Option<string>, year: int, fetch: Fetcher, fig: Figure)
    requires 1 <= year <= 9999
    requires LoadTickerPrice(ticker, startDate, year, fetch) == Ok(fig) && fig != EmptyFigure
    ensures GetTickerData(ticker, startDate, year, fetch) == fetch(ticker.value, EffectiveStart(startDate, year))
    ensures GetTickerData(ticker, startDate, year, fetch).Some?
  {
  }

  /**
   * The loader is not total: a table without a close column whose rows
   * reach the start date makes both builders raise, and the second error
   * propagates.
   */
  lemma LoadRaisesWithoutClose(ticker: Option<string>, startDate: Option<string>, year: int, fetch: Fetcher)
    requires 1 <= year <= 9999 && ValidateTicker(ticker)
    requires var start := EffectiveStart(startDate, year);
      var df := fetch(ticker.value, start);
      df.Some? && !df.value.IsEmpty() && CloseColumn !in df.value.columns
      && FilterFrom(df.value, start).Ok? && FilterFrom(df.value, start).value != []
    ensures LoadTickerPrice(ticker, startDate, year, fetch) == Err(MissingColumn(CloseColumn))
  {
  }

  /** When `get_ticker_data` has no table, the loader draws the empty figure. */
  lemma NoTickerDataNoChart(ticker: Option<string>, startDate: Option<string>, year: int, fetch: Fetcher)
    requires 1 <= year <= 9999 && GetTickerData(ticker, startDate, year, fetch).None?
    ensures LoadTickerPrice(ticker, startDate, year, fetch) == Ok(EmptyFigure)
  {
  }

  /** Formatting for display is idempotent. */
  lemma FormatTickerIdempotent(ticker: Option<string>)
    ensures FormatTickerForDisplay(Some(FormatTickerForDisplay(ticker))) == FormatTickerForDisplay(ticker)
  {
    if ticker.Some? && ticker.value != "" {
      NormalizeIdempotent(ticker.value);
    }
  }

  /** A ticker is valid exactly when its display form is a non-empty alphanumeric word. */
  lemma FormatTickerValidates(ticker: Option<string>)
    ensures ValidateTicker(ticker) <==> IsAlnumWord(FormatTickerForDisplay(ticker))
    ensures ValidateTicker(ticker) ==> ValidateTicker(Some(FormatTickerForDisplay(ticker)))
  {
    if ValidateTicker(ticker) {
      ValidateNormalized(ticker.value);
    }
  }

  /** A non-empty word of capitals and digits passes validation. */
  lemma CapitalsAndDigitsValid(s: string)
    requires |s| > 0 && forall k :: 0 <= k < |s| ==> IsUpper(s[k]) || IsDigit(s[k])
    ensures ValidateTicker(Some(s))
  {
    ValidateAcceptsAlnum(s);
  }

  /** The list holds 22 distinct tickers. */
  lemma AvailableTickersDistinct()
    ensures |GetAvailableTickers()| == 22
    ensures forall i, j :: 0 <= i < j < |GetAvailableTickers()| ==> GetAvailableTickers()[i] != GetAvailableTickers()[j]
  {
  }

  /** Each listed ticker passes validation. */
  lemma AvailableTickersValid()
    ensures forall i :: 0 <= i < |GetAvailableTickers()| ==> ValidateTicker(Some(GetAvailableTickers()[i]))
  {
    var ts := GetAvailableTickers();
    forall i | 0 <= i < |ts|
      ensures ValidateTicker(Some(ts[i]))
    {
      CapitalsAndDigitsValid(ts[i]);
    }
  }
}
