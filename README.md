# SSI stock dashboard core in Dafny

This project models the data path of a small stock dashboard for the Vietnamese market. A ticker symbol is validated, and daily OHLCV bars (open, high, low, close, volume) are fetched from the TCBS price service. The records are shaped into a table, and the table is drawn as a candlestick chart with 20- and 50-bar moving averages and a volume panel. A simple close-price line serves as the fallback.

Modules:

- `Wrappers`: `Option` and `Result`. `None` stands for Python's `None`, and `Err` for a raised exception.
- `Text`: the string operations the ticker helpers use: `strip`, `upper`, `isalnum`.
- `Calendar`:
  - dates, `strptime("%Y-%m-%d")` with the alternatives its regular expressions allow;
  - ISO timestamps;
  - day numbers since the Unix epoch;
  - `strftime("%Y-%m-%d")`.
- `Table`: the DataFrame the fetcher returns, reduced to column names and rows of cells (NaN/NaT, number, string, timestamp in ms).
- `Fetch` (`ssi/fetch.py`):
  - `validate_ticker`;
  - `fetch_historical_price` given the provider's response: the date column converted in one encoding chosen for the whole column, the six known columns kept in order, rows sorted by date with NaT last.
- `Chart` (`ssi/chart.py`):
  - the rolling means;
  - the date filter;
  - `create_ohlcv_candlestick` and `create_simple_line_chart`.

  Each builder is a function describing the figure, plus a method that builds the figure trace by trace in a `FigureBuilder` object and is proved to return that figure. The moving average is a method with a running-sum loop, proved equal to the windowed-mean definition `RollingMean`.
- `Loader` (`ssi/loader.py`):
  - `load_ticker_price` and `get_ticker_data`, with the fetch as a parameter;
  - `get_default_start_date`, `get_available_tickers`, `format_ticker_for_display`.

The model follows the code in these points:

- The moving averages are computed over the rows kept by the start-date filter, not over the whole history. So an average restarts at the start date (`Chart.AveragesRestartAtStart`).
- Duplicate dates are neither merged nor dropped (`Fetch.ShapedRowsArePermutation`).
- The entry point can raise. If the candlestick build fails and the simple chart fails as well, for example when the table has no close column, the error propagates (`Loader.LoadRaisesWithoutClose`).
- The fetcher returns `None`, never an empty table, when the provider's `data` list is missing or empty (`Fetch.FetchWithoutData`).

Inputs from the outside world are parameters:

- The answer of the HTTP request is a `Fetch.Response`.
- The loader's fetch is a function `(ticker, start) -> Option<Frame>`.
- The current year is an integer.

## Model

| member | source | states |
|---|---|---|
| Text.IsSpace | ssi/fetch.py:106 | the characters Python's `str.isspace` accepts, which `strip` removes; stated through `Text.StripLeft` and `Text.StripRight` |
| Text.IsAlnumWord | ssi/fetch.py:109 | `str.isalnum()`: a non-empty string of letters and digits; stated by `Fetch.ValidateTickerMeaning` and `Text.UpperAlnumWord` |
| Text.UpperChar | ssi/fetch.py:106 | upper-casing one character maps each lower-case letter to its own capital and keeps every other character; it keeps whitespace whitespace and letters or digits letters or digits |
| Text.Upper | ssi/fetch.py:106 | `str.upper`, character by character; stated by `Text.UpperIdempotent`, `Text.StripUpper` and `Text.UpperAlnumWord` |
| Text.StripLeft | ssi/fetch.py:106 | the result is a suffix of the input, everything dropped is whitespace, and the result does not start with whitespace |
| Text.StripRight | ssi/fetch.py:106 | the result is a prefix of the input, everything dropped is whitespace, and the result does not end with whitespace |
| Text.Strip | ssi/fetch.py:106 | `str.strip`; stated by `Text.StripSplits`, `Text.StripIdempotent` and `Text.StripPadded` |
| Text.Normalize | ssi/loader.py:124 | `strip().upper()`; stated by `Text.NormalizeIdempotent` and `Fetch.ValidateNormalized` |
| Text.StripIdempotent | ssi/fetch.py:106 | stripping twice is stripping once |
| Text.StripUpper | ssi/fetch.py:106 | stripping and upper-casing commute |
| Text.NormalizeIdempotent | ssi/fetch.py:106 | `strip().upper()` applied twice equals applying it once |
| Text.StripPadded | ssi/fetch.py:106 | surrounding whitespace does not change the stripped string |
| Text.StripLeftSplits | ssi/fetch.py:106 | a string is the whitespace `lstrip` drops followed by what it keeps |
| Text.StripRightSplits | ssi/fetch.py:106 | a string is what `rstrip` keeps followed by the whitespace it drops |
| Text.StripSplits | ssi/fetch.py:106 | a string is leading whitespace, its stripped form, and trailing whitespace |
| Text.UpperAlnumWord | ssi/fetch.py:106-109 | upper-casing neither makes nor breaks a word of letters and digits |
| Calendar.ValidDate | ssi/fetch.py:30 | the dates `datetime.date` accepts, years 1 to 9999 with real month lengths; stated by `Calendar.ParseDate`, `Calendar.ParseLeapDay`, `Calendar.ParseCommonYearLeapDay` and `Calendar.NextDay` |
| Calendar.MatchMonth | ssi/fetch.py:30 | the `%m` directive reads a month from 1 to 12 and the position after it, past the start and within the string |
| Calendar.MatchDay | ssi/fetch.py:30 | the `%d` directive reads a day from 1 to 31 and the position after it, past the start and within the string |
| Calendar.ParseDate | ssi/fetch.py:28-33 | every date `strptime("%Y-%m-%d")` accepts is a real calendar date in years 1 to 9999 |
| Calendar.Decimal | ssi/loader.py:134 | `%Y` prints a non-empty run of digits; `Calendar.FourDigitYear` reads it back |
| Calendar.TwoDigits | ssi/loader.py:134 | `%m` and `%d` print exactly two digits; `Calendar.TwoDigitsRead` reads them back |
| Calendar.FormatDate | ssi/loader.py:134 | `strftime("%Y-%m-%d")`; stated by `Calendar.ParseFormatDate` and `Loader.GetDefaultStartDate` |
| Calendar.FourDigitYear | ssi/loader.py:127-134 | a four-digit year prints as four digits that read back as the year |
| Calendar.ParseFormatDate | ssi/loader.py:127-134 | a formatted date with a four-digit year parses back to the same date |
| Calendar.ParsePaddedDate | ssi/fetch.py:30 | `2024-01-05` parses to 5 January 2024 |
| Calendar.ParseUnpaddedDate | ssi/fetch.py:30 | `2024-1-5` parses too: the month and day need not be padded |
| Calendar.ParseLeapDay | ssi/fetch.py:30 | 29 February is accepted in a leap year |
| Calendar.ParseCommonYearLeapDay | ssi/fetch.py:30 | 29 February is rejected in a common year |
| Calendar.ParseDateRejects | ssi/fetch.py:30-33 | other separators, a two-digit year, trailing text and month 13 are rejected |
| Calendar.DaysFromCivil | ssi/fetch.py:67 | day numbers since 1970-01-01 in the proleptic Gregorian calendar; stated by `Calendar.EpochIsDayZero` and `Calendar.DaysFromCivilNext` |
| Calendar.DayStartMs | ssi/fetch.py:67 | the epoch-millisecond instant a day begins; stated by `Calendar.DaysFromCivilNext` |
| Calendar.NextDay | ssi/fetch.py:67 | the day after a valid date is valid, except after 9999-12-31 |
| Calendar.MarchYearLength | ssi/fetch.py:67 | the year from 1 March has 366 days exactly when its February has 29 |
| Calendar.YearRemainders | ssi/fetch.py:67 | the leap-year remainders are those of the year within its 400-year cycle |
| Calendar.QuarterStep | ssi/fetch.py:67 | the count of leap years grows by one exactly at a multiple of four |
| Calendar.CenturyStep | ssi/fetch.py:67 | the count of centuries grows by one exactly at a multiple of 100 |
| Calendar.DaysFromCivilMarch | ssi/fetch.py:67 | a day's number counted from 1 March of its year |
| Calendar.MonthStartStep | ssi/fetch.py:67 | outside February, the next month starts one month length later |
| Calendar.NextWithinMonth | ssi/fetch.py:67 | the next day within a month has the next day number |
| Calendar.NextMarchFirst | ssi/fetch.py:67 | 1 March follows the last day of February by one day number, in leap and common years |
| Calendar.NextMonthFirst | ssi/fetch.py:67 | the first of a month follows the last of the previous month by one day number |
| Calendar.NextNewYear | ssi/fetch.py:67 | 1 January follows 31 December by one day number |
| Calendar.DaysFromCivilNext | ssi/fetch.py:67 | for every valid date, the next day's number is one more, so it begins `MsPerDay` ms later |
| Calendar.EpochIsDayZero | ssi/fetch.py:67 | 1970-01-01 is day 0 of the millisecond encoding |
| Calendar.DayOfJanuaryFifth | ssi/fetch.py:67 | 2024-01-05 begins 1704412800000 ms after the epoch |
| Calendar.ParseIsoTimestamp | ssi/fetch.py:65 | the ISO reader of `pd.to_datetime`; stated by `Calendar.IsoRoundTrip`, `Calendar.IsoWithinDay` and `Calendar.IsoMidnight` |
| Calendar.DigitsValueAgree | ssi/fetch.py:65 | a digit run's value depends only on its own characters |
| Calendar.TwoDigitsRead | ssi/loader.py:134 | a two-digit month or day as printed reads back as itself |
| Calendar.IsoWithinDay | ssi/fetch.py:65 | an accepted timestamp's date fields spell a valid date and its clock fields a time of day; the instant is the day's start plus that clock time, so it lies within that day |
| Calendar.IsoRoundTrip | ssi/fetch.py:65 | for every date with a four-digit year and every clock time, the ISO text with or without `Z` reads back as the day's start plus the clock time |
| Calendar.IsoTimestampIn | ssi/fetch.py:65 | a string spelling a date and a clock time in ISO form reads as that instant |
| Calendar.IsoDateFields | ssi/fetch.py:65 | the date fields of a string that starts with a formatted date read as that date |
| Calendar.IsoMidnight | ssi/fetch.py:65 | for every date with a four-digit year, midnight written in ISO form, with or without `Z`, reads as the instant the day begins |
| Calendar.MidnightIn | ssi/fetch.py:65 | a string spelling a date's midnight reads as that day's first instant |
| Calendar.IsoAndEpochAgree | ssi/fetch.py:64-67 | `2024-01-05T00:00:00Z` and `2024-01-05T00:00:00` read as the instant 1704412800000 ms |
| Fetch.ValidateTicker | ssi/fetch.py:92-112 | `validate_ticker`; its meaning is stated by `Fetch.ValidateTickerMeaning` and the lemmas below it |
| Fetch.ValidatedIsPaddedWord | ssi/fetch.py:102-112 | an accepted ticker splits into whitespace, a non-empty word of letters and digits, and whitespace |
| Fetch.PaddedWordValidated | ssi/fetch.py:102-112 | any such split string is accepted |
| Fetch.ValidateTickerMeaning | ssi/fetch.py:92-112 | a string ticker is valid exactly when it is a non-empty word of letters and digits with only whitespace before and after it |
| Fetch.ValidateNormalized | ssi/fetch.py:102-112 | a ticker and its normal form get the same verdict |
| Fetch.ValidateIgnoresCase | ssi/fetch.py:106-109 | validation does not depend on case |
| Fetch.ValidateIgnoresPadding | ssi/fetch.py:106-109 | validation does not depend on surrounding whitespace |
| Fetch.ValidateAcceptsAlnum | ssi/fetch.py:102-112 | every non-empty string of letters and digits is accepted |
| Fetch.ValidateRejectsNonAlnum | ssi/fetch.py:109-110 | a ticker with no whitespace at either end that holds any character other than a letter or digit is invalid |
| Fetch.ValidateAcceptsIndex | ssi/fetch.py:92-112 | `VNINDEX` is accepted |
| Fetch.ValidateAcceptsLowerCase | ssi/fetch.py:106 | `vnindex` is accepted |
| Fetch.ValidateAcceptsSpacedWord | ssi/fetch.py:106-109 | a word of letters and digits between two spaces is accepted |
| Fetch.ValidateAcceptsPadded | ssi/fetch.py:106-109 | ` TCB ` is accepted |
| Fetch.ValidateRejectsHyphen | ssi/fetch.py:109-110 | `TC-B` is rejected |
| Fetch.ValidateRejectsLeadingHyphen | ssi/fetch.py:109-110 | `-TCB` is rejected |
| Fetch.ValidateRejectsInnerSpace | ssi/fetch.py:109-110 | `T CB` is rejected: inner whitespace is not stripped |
| Fetch.ValidateRejectsBlank | ssi/fetch.py:102-110 | `None`, the empty string and an all-blank string are rejected |
| Fetch.IsIsoColumn | ssi/fetch.py:62-67 | the encoding choice for the whole column; stated by `Fetch.ShapedDateEncoding` |
| Fetch.InNsRange | ssi/fetch.py:64-67 | the instants a `datetime64[ns]` holds; stated by `Fetch.ShapedDateEncoding` and `Fetch.ShapeRejectsOutOfRange` |
| Fetch.MixedZones | ssi/fetch.py:65 | some date strings end in `Z` and some do not; stated by `Fetch.ShapeSucceeds` and `Fetch.MixedZoneColumnRejected` |
| Fetch.ConvertDate | ssi/fetch.py:62-67 | one date converted in the chosen encoding, failing outside the `datetime64[ns]` range; stated by `Fetch.ShapedDateEncoding` and `Fetch.ShapeRejectsOutOfRange` |
| Fetch.ShapeRecords | ssi/fetch.py:57-76 | the records shaped into a table; stated by `Fetch.ShapeSucceeds`, `Fetch.ShapedColumns`, `Fetch.ShapedRowKeys`, `Fetch.ShapedRowsArePermutation` and `Fetch.ShapedDateEncoding` |
| Fetch.FetchHistoricalPrice | ssi/fetch.py:12-89 | the whole fetch; stated by `Fetch.FetchReturnsShaped`, `Fetch.FetchedFrame`, `Fetch.FetchWithoutData` and `Fetch.FetchRejectsStartDate` |
| Fetch.KeysOf | ssi/fetch.py:59 | the columns of the DataFrame are exactly the keys some record carries |
| Fetch.ConvertDates | ssi/fetch.py:64-67 | the dates convert exactly when every record's date converts on its own in the chosen encoding, and then value by value |
| Fetch.RawCell | ssi/fetch.py:59 | a record's field as a DataFrame cell, NaN where the record lacks it; stated through `Fetch.ShapedDateEncoding`, which puts each projected record in the table |
| Fetch.ProjectRow | ssi/fetch.py:71 | a record restricted to the kept columns; stated by `Fetch.ProjectedRowKeys` |
| Fetch.ProjectRows | ssi/fetch.py:59-71 | one projected row per record, in record order; stated by `Fetch.ShapedRowsArePermutation` and `Fetch.ShapedRowKeys` |
| Fetch.KeepPresent | ssi/fetch.py:71 | a column is kept exactly when it is listed and present |
| Fetch.Insert | ssi/fetch.py:74 | inserting into a date-sorted list keeps it sorted and adds exactly that row |
| Fetch.SortByDate | ssi/fetch.py:74 | the sorted rows are a permutation of the input, ascending by date with NaT last |
| Fetch.RowLeq | ssi/fetch.py:74 | the order of `sort_values`, NaT last; stated by `Fetch.RowLeqTotal`, `Fetch.RowLeqTransitive` and `Fetch.SortByDate` |
| Fetch.RowLeqTotal | ssi/fetch.py:74 | any two rows are comparable in the sort order |
| Fetch.RowLeqTransitive | ssi/fetch.py:74 | the sort order is transitive |
| Fetch.OutputColumnsRanked | ssi/fetch.py:70 | the six output columns are distinct and in their fixed order |
| Fetch.KeepPresentOrdered | ssi/fetch.py:71 | keeping the present columns preserves their order |
| Fetch.KeptColumnsExact | ssi/fetch.py:70-71 | the kept columns are the known columns some record has, each once, in the fixed order |
| Fetch.ShapeSucceeds | ssi/fetch.py:62-89 | shaping succeeds exactly when some record has a date, every date converts, and an ISO column does not mix the `Z` and the plain spelling |
| Fetch.MixedZoneColumnRejected | ssi/fetch.py:64-89 | a column holding `2024-01-05T00:00:00Z` and `2024-01-05T00:00:00`, in either order, gives no table |
| Fetch.ShapedColumns | ssi/fetch.py:70-71 | a shaped table has the kept columns, with the date column first |
| Fetch.ProjectedRowKeys | ssi/fetch.py:71 | a projected row has exactly the kept columns |
| Fetch.ShapedRowKeys | ssi/fetch.py:71 | every row of the shaped table has exactly its columns, so vendor fields are dropped |
| Fetch.ShapedRowsArePermutation | ssi/fetch.py:59-74 | one row per record, permuted into ascending date order, none added, dropped or merged |
| Fetch.ShapedDateEncoding | ssi/fetch.py:62-67 | each record's date is read in the column's one encoding: ISO when some date string contains `T`, milliseconds otherwise, NaT when missing; every converted instant is within the `datetime64[ns]` range |
| Fetch.ShapeRejectsOutOfRange | ssi/fetch.py:64-89 | an epoch value outside the `datetime64[ns]` range makes the fetch give no table |
| Fetch.ShapeRejectsFarFuture | ssi/fetch.py:64-89 | the epoch value 1e20 ms is rejected |
| Fetch.RejectedStartDate | ssi/fetch.py:28-33 | a non-empty start date `strptime` rejects; stated by `Fetch.FetchRejectsStartDate` and `Fetch.FetchReturnsShaped` |
| Fetch.FetchRejectsStartDate | ssi/fetch.py:28-33 | a start date `strptime` rejects gives `None` whatever the provider would send |
| Fetch.FetchRejectsStartDateExamples | ssi/fetch.py:28-33 | `2024/01/05` and `2023-02-29` give `None` |
| Fetch.FetchWithoutData | ssi/fetch.py:52-57 | a failed request, a body without `data` and an empty `data` list all give `None` |
| Fetch.FetchReturnsShaped | ssi/fetch.py:12-76 | with an accepted start date and a non-empty `data` list whose dates all convert in one spelling, the fetcher returns a table, the shaped records |
| Fetch.FetchedFrame | ssi/fetch.py:12-79 | a returned table is the shaped records of a received non-empty `data` list; it is not empty and has the date column |
| Fetch.KeptDateColumnOnly | ssi/fetch.py:70-71 | from a table with only a date column, only that column is kept |
| Fetch.ShapeDateOnly | ssi/fetch.py:59-74 | a single date-only record shapes to a one-cell table |
| Fetch.SameDayInBothEncodings | ssi/fetch.py:64-67 | the same day sent in ISO or epoch form shapes to the same table and timestamp |
| Chart.RollingMean | ssi/chart.py:25-26 | the trailing mean over at most `n` closes; stated by `Chart.RollingMeanOf` and the lemmas below |
| Chart.SumDropFirst | ssi/chart.py:25 | a sum splits off its first term |
| Chart.WindowSumStep | ssi/chart.py:25-26 | the window sum at one bar is the previous window's sum plus the new close minus the close that drops out |
| Chart.RollingMeanOf | ssi/chart.py:25-26 | the running-sum loop yields the trailing mean over at most `n` closes at every index |
| Chart.CalculateMovingAverages | ssi/chart.py:12-28 | MA(20) and MA(50) are the 20- and 50-bar trailing means, one per close |
| Chart.RollingMeanFirst | ssi/chart.py:25-26 | with a minimum period of 1, the first average is the first close |
| Chart.RollingMeanPrefix | ssi/chart.py:25-26 | before the window fills, the average is the mean of the whole prefix |
| Chart.ShortWindowsAgree | ssi/chart.py:25-26 | the 20- and 50-bar averages agree on the first twenty bars |
| Chart.RollingMeanCausal | ssi/chart.py:25-26 | an average depends only on closes up to its own bar |
| Chart.SumBounds | ssi/chart.py:25 | a sum of values in `[lo, hi]` is bounded by the count times `lo` and `hi` |
| Chart.DivideBounds | ssi/chart.py:25 | dividing such a sum by the count gives a value in `[lo, hi]` |
| Chart.RollingMeanBounded | ssi/chart.py:25-26 | each average lies between the smallest and the largest close |
| Chart.SumArithmetic | ssi/chart.py:25 | the sum of an arithmetic run of closes in closed form |
| Chart.RisingSeriesAverage | ssi/chart.py:25 | closes rising from 100.0 by 0.1 give MA(20) = 100.95 at bar 19 |
| Chart.StartBound | ssi/chart.py:49 | the start date as the comparison reads it; stated by `Chart.FilterFromKeeps` and `Chart.NaTStartKeepsNothing` |
| Chart.Comparable | ssi/chart.py:49 | a date cell the comparison can order; stated by `Chart.FilterFromFails` |
| Chart.FilterFrom | ssi/chart.py:49 | the start-date filter; stated by `Chart.FilterFromKeeps` and `Chart.FilterFromFails` |
| Chart.FilterFromFails | ssi/chart.py:49 | the filter raises exactly when the date column is missing, a date cell cannot be ordered, or the start date does not parse |
| Chart.TextDateNotComparable | ssi/chart.py:49 | a text cell in the date column makes the filter raise |
| Chart.OnOrAfter | ssi/chart.py:49 | `df['tradingDate'] >= start_date` for one row, false for NaT on either side; stated by `Chart.KeepFrom`, `Chart.KeepFromMembers` and `Chart.KeepFromNaT` |
| Chart.KeepFrom | ssi/chart.py:49 | every kept row is dated on or after the start, and no row is added |
| Chart.Numbers | ssi/chart.py:83-86 | a column reads as numbers exactly when every row holds a number there, value by value |
| Chart.NumColumn | ssi/chart.py:82-126 | a price column read as numbers, raising when it is missing or holds another kind of cell; stated by `Chart.Numbers` and `Chart.CandlestickValues` |
| Chart.Timestamps | ssi/chart.py:82 | one timestamp per kept row, the one in that row's date cell |
| Chart.DayStart | ssi/chart.py:253 | a timestamp is printed as the day it lies in: a whole number of days since the epoch, at most the timestamp and less than a day before it |
| Chart.DayStarts | ssi/chart.py:253 | one day per timestamp, each the day that timestamp lies in |
| Chart.VolumeColors | ssi/chart.py:125 | the volume bar colours; stated by `Chart.CandlestickValues` |
| Chart.Millions | ssi/chart.py:126 | volume in millions; stated by `Chart.CandlestickValues` |
| Chart.CandlestickSpec | ssi/chart.py:31-225 | the candlestick figure; stated by `Chart.CandlestickLayout`, `Chart.CandlestickValues` and `Chart.CreateOhlcvCandlestick` |
| Chart.SimpleLineSpec | ssi/chart.py:228-278 | the simple chart; stated by `Chart.SimpleLineShape` and `Chart.CreateSimpleLineChart` |
| Chart.SubplotLayout | ssi/chart.py:64-70 | the two-row grid of `make_subplots`; stated by `Chart.CandlestickLayout` |
| Chart.EmptyFigureBlank | ssi/chart.py:44-53 | `go.Figure()` has no trace, no subplot grid and no title, and any other figure a builder returns has four traces or one line |
| Chart.FigureBuilder.constructor | ssi/chart.py:64-70 | a new figure has no traces and the given layout |
| Chart.FigureBuilder.AddTrace | ssi/chart.py:80-137 | `add_trace` appends one trace and changes nothing else |
| Chart.FigureBuilder.SetTitle | ssi/chart.py:140-147 | `update_layout(title=...)` sets the title and changes nothing else |
| Chart.CreateOhlcvCandlestick | ssi/chart.py:31-225 | the method that adds traces one by one returns exactly the candlestick figure, or the same error |
| Chart.CreateSimpleLineChart | ssi/chart.py:228-278 | the method that adds the line trace returns exactly the simple chart, or the same error |
| Chart.KeepFromAppend | ssi/chart.py:49 | the filter keeps the rows' order |
| Chart.KeepFromMembers | ssi/chart.py:49 | a row is kept exactly when it is in the table and dated on or after the start |
| Chart.KeepFromAll | ssi/chart.py:49 | when every row passes, the table is kept whole |
| Chart.KeepFromNaT | ssi/chart.py:49 | no row compares on or after NaT |
| Chart.FilterFromKeeps | ssi/chart.py:49 | a successful filter keeps exactly the rows dated on or after the start |
| Chart.NaTStartKeepsNothing | ssi/chart.py:49-53 | an empty start date keeps no row, so both builders return the empty figure |
| Chart.StartAfterAllRows | ssi/chart.py:49-53 | a start date after every trading day gives the empty figure from both builders |
| Chart.BuildersAgreeOnEmpty | ssi/chart.py:44-53 | the candlestick builder returns the empty figure exactly when the simple builder does |
| Chart.CandlestickLayout | ssi/chart.py:64-147 | a non-empty candlestick figure is OHLC, MA(20) and MA(50) on row 1 and Volume on row 2, all on the kept timestamps, with row heights 0.7/0.3 and the symbol's title |
| Chart.CandlestickValues | ssi/chart.py:80-137 | it shows the kept rows' prices and the volume in millions; a volume bar is green when the close is at or above the open and red otherwise; the averages are those of the kept closes |
| Chart.AveragesRestartAtStart | ssi/chart.py:49-56 | the first bar's MA(20) and MA(50) equal its own close |
| Chart.SimpleLineShape | ssi/chart.py:246-276 | a non-empty simple chart is one `Close Price` line over the kept rows' days and closes, without subplots |
| Table.Frame.IsEmpty | ssi/loader.py:38 | `df.empty`: no rows or no columns; stated by `Loader.NoDataGivesEmptyFigure` and `Chart.BuildersAgreeOnEmpty` |
| Loader.EffectiveStart | ssi/loader.py:31-33 | the given start date, or the default one; stated by `Loader.DefaultStartSubstituted` |
| Loader.HasSecondAxis | ssi/loader.py:50 | `fig.layout.xaxis2` exists only on a figure with two subplot rows; stated by `Loader.CandlestickReturned` and `Loader.EmptyCandlestickStaysEmpty` |
| Loader.GetDefaultStartDate | ssi/loader.py:127-134 | the default start date ends in `-01-01` |
| Loader.DefaultStartIsNewYear | ssi/loader.py:127-134 | the default start date reads back as 1 January of the current year, which the fetcher accepts |
| Loader.LoadTickerPrice | ssi/loader.py:13-56 | `load_ticker_price`; stated by the lemmas below |
| Loader.GetTickerData | ssi/loader.py:60-89 | `get_ticker_data`; stated by `Loader.InvalidTickerGivesEmptyFigure`, `Loader.ChartImpliesData` and `Loader.NoTickerDataNoChart` |
| Loader.InvalidTickerGivesEmptyFigure | ssi/loader.py:26-29 | an invalid ticker gives the empty figure whatever the fetch would return, and `get_ticker_data` gives `None` |
| Loader.DefaultStartSubstituted | ssi/loader.py:31-33 | omitting the start date equals passing the default one |
| Loader.NoDataGivesEmptyFigure | ssi/loader.py:35-40 | a fetch returning no table or an empty one gives the empty figure |
| Loader.CandlestickReturned | ssi/loader.py:43-53 | a non-empty candlestick figure is returned unchanged |
| Loader.FallbackOnBuildError | ssi/loader.py:54-56 | when the candlestick build raises, the simple chart of the same table is returned |
| Loader.EmptyCandlestickStaysEmpty | ssi/loader.py:44-56 | when the candlestick build gives the empty figure, the debug print raises and the fallback is the empty figure again |
| Loader.LoadedFigureKinds | ssi/loader.py:13-56 | every returned figure is empty, the four-trace candlestick figure or the one-line simple chart |
| Loader.ChartImpliesData | ssi/loader.py:13-89 | a figure with data is drawn only from the table `get_ticker_data` returns |
| Loader.LoadRaisesWithoutClose | ssi/loader.py:43-56 | a table without a close column, whose rows reach the start date, makes the entry point raise |
| Loader.NoTickerDataNoChart | ssi/loader.py:13-40 | whenever `get_ticker_data` has no table, `load_ticker_price` draws the empty figure |
| Loader.GetAvailableTickers | ssi/loader.py:92-105 | the fixed ticker list; stated by `Loader.AvailableTickersDistinct` and `Loader.AvailableTickersValid` |
| Loader.FormatTickerForDisplay | ssi/loader.py:108-124 | the display form; stated by `Loader.FormatTickerIdempotent` and `Loader.FormatTickerValidates` |
| Loader.FormatTickerIdempotent | ssi/loader.py:108-124 | formatting for display is idempotent |
| Loader.FormatTickerValidates | ssi/loader.py:108-124 | a ticker is valid exactly when its display form is a non-empty word of letters and digits |
| Loader.CapitalsAndDigitsValid | ssi/fetch.py:102-112 | a non-empty word of capitals and digits is valid |
| Loader.AvailableTickersDistinct | ssi/loader.py:100-105 | the list holds 22 distinct symbols |
| Loader.AvailableTickersValid | ssi/loader.py:100-105 | every listed symbol passes `validate_ticker` |

## Left out

- The HTTP request is not modelled: the URL, parameters, headers, timeout, `raise_for_status` and the distinct exception handlers. Every failure is `RequestFailed`, and the decoded body is a `Payload`.
- The request's time window is not modelled. The local-timezone `timestamp()` of the start date, the one-year default when no start date is given, and `datetime.now()`/`today()` are clock reads. The start date is only checked for parseability, and the current year is a parameter.
- Streamlit is not modelled: the `st.error`/`st.warning` messages and the one-hour `st.cache_data` memoisation.
- Plotly styling is not modelled: hover texts and templates, fonts, axis formats, legend placement, opacity, margins, the text the debug prints write and the candle line colours. Only trace kinds, names, rows, data, volume colours, title, row heights and subplot titles are modelled.
- Numbers are real numbers, not IEEE doubles. Rounding in means and in the division by one million is not modelled.
- `Text.UpperChar`: upper-casing and `isalnum` cover ASCII only, because Unicode case tables are not available. Whitespace follows Python's full `isspace` list.
- `Calendar.ParseIsoTimestamp`: only `YYYY-MM-DDTHH:MM:SS` with an optional `Z` is read. Fractional seconds and offsets other than `Z`, which `pd.to_datetime` also accepts, become conversion failures, and no time zone is attached.
- `Fetch.ConvertDate`: in the millisecond branch a numeric string is a conversion failure, and in the ISO branch a number is. pandas would coerce some of these. A missing date becomes NaT, as in pandas.
- `Fetch.Value`: a record's values are numbers or strings only. JSON `null`, booleans, arrays and objects are not modelled. In pandas a field that is `null` in every record still becomes a column, which the model does not create.
- `Calendar.ParseDate`: only the ASCII digits `0` to `9` are digits. The `\d` of `strptime`'s regular expressions also matches other Unicode decimal digits, so the source accepts some start dates the model rejects.
- `Fetch.SortByDate`: the model sort is stable. pandas' default quicksort is not, so rows with equal dates may come out in another order. The sort's promise (a permutation in ascending date order) is the same.
- `Chart.FilterFrom`: the model captures the source's behaviour on numeric price cells, and a text cell in a price column raises in both (the arithmetic at ssi/chart.py:25, the formatting at :75 and the comparison at :125-126). The model departs from the source in three cases:
  1. NaN in an open, high, low, close or volume cell: pandas and plotly draw it, but `Chart.CandlestickSpec` reports `NotANumber`. For NaN in open, high, low or volume, `Loader.LoadTickerPrice` then returns the simple chart where the source returns the candlestick. For NaN in close, the simple chart fails as well (item 2), so the entry point raises.
  2. A text or NaN close cell in the simple chart: plotly draws it, but `Chart.SimpleLineSpec` reports an error, so the entry point raises.
  3. A `tradingDate` column holding text: ssi/chart.py:49 compares it with the start date as strings and ssi/chart.py:59-61 converts it afterwards. The model rejects it as `NotComparable`.

  Comparing against the start date uses the `strptime` grammar. pandas' parser accepts more spellings, but every non-empty start date that reaches the chart from the loader has already passed `strptime` in the fetcher. The empty string skips that check and reads as NaT in both, so no row is kept (`Chart.NaTStartKeepsNothing`).
- The builders' default `start_date='2024-01-01'` (ssi/chart.py:31 and :228) is not modelled: `Chart.CandlestickSpec` and `Chart.SimpleLineSpec` always take the start date. The loader always passes one, so no behaviour reachable from it is lost.
- `Chart.CreateOhlcvCandlestick`: the `to_datetime(errors='coerce')` and `dropna` step after the moving averages is not modelled. The kept rows all have timestamps, so it changes nothing.
- The in-place column assignments (`df['tradingDate'] = ...`, `df['MA20'] = ...`) become rebinding of immutable values. No caller can observe the difference, because both builders work on a copy.
- `Loader.LoadTickerPrice`: a ticker that is neither `None` nor a string is folded into `None`. `format_ticker_for_display` would raise on a truthy non-string; the model takes `None` or a string.
- `Loader.GetDefaultStartDate`: before year 1000 the year prints without padding, as `strftime("%Y")` does on the usual C library. The fetcher then rejects it.
