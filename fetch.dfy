/**
 * `ssi/fetch.py`: ticker validation and the shaping of the provider's
 * response into a sorted OHLCV table.  The HTTP request itself is an
 * input: `Response` is what came back, or that nothing usable did.
 */
module Fetch {
  import opened Wrappers
  import opened Text
  import opened Calendar
  import opened Table

  // ---------------------------------------------------------------------
  // validate_ticker
  // ---------------------------------------------------------------------

  /**
   * `validate_ticker`.  `None` stands for `None` and for any value that is
   * not a string; both are rejected, as is the empty string, before any
   * normalisation.  Otherwise the stripped, upper-cased ticker must be a
   * non-empty run of letters and digits.
   */
  function ValidateTicker(ticker: Option<string>): bool {
    if ticker.None? || ticker.value == "" then false
    else IsAlnumWord(Normalize(ticker.value))
  }

  /** An accepted ticker is a word of letters and digits with whitespace around it. */
  lemma ValidatedIsPaddedWord(t: string)
    requires ValidateTicker(Some(t))
    ensures exists pre, w, post :: t == pre + w + post && AllSpace(pre) && AllSpace(post) && IsAlnumWord(w)
  {
    var l := StripLeft(t);
    var w := StripRight(l);
    var pre, post := t[..|t| - |l|], l[|w|..];
    StripSplits(t);
    assert IsAlnumWord(Upper(w)) by {
      assert Normalize(t) == Upper(w);
    }
    UpperAlnumWord(w);
    PaddedWitness(t, pre, w, post);
  }

  lemma PaddedWitness(t: string, pre: string, w: string, post: string)
    requires t == pre + w + post && AllSpace(pre) && AllSpace(post) && IsAlnumWord(w)
    ensures exists pre, w, post :: t == pre + w + post && AllSpace(pre) && AllSpace(post) && IsAlnumWord(w)
  {
  }

  /** A word of letters and digits with whitespace around it is accepted. */
  lemma PaddedWordValidated(pre: string, w: string, post: string)
    requires AllSpace(pre) && AllSpace(post) && IsAlnumWord(w)
    ensures ValidateTicker(Some(pre + w + post))
  {
    ValidateIgnoresPadding(pre, w, post);
    ValidateAcceptsAlnum(w);
  }

  /**
   * A string ticker is valid exactly when it is a non-empty word of letters
   * and digits with nothing but whitespace around it.
   */
  lemma ValidateTickerMeaning(t: string)
    ensures ValidateTicker(Some(t)) <==>
      exists pre, w, post :: t == pre + w + post && AllSpace(pre) && AllSpace(post) && IsAlnumWord(w)
  {
    if ValidateTicker(Some(t)) {
      ValidatedIsPaddedWord(t);
    } else if exists pre, w, post :: t == pre + w + post && AllSpace(pre) && AllSpace(post) && IsAlnumWord(w) {
      var pre, w, post :| t == pre + w + post && AllSpace(pre) && AllSpace(post) && IsAlnumWord(w);
      PaddedWordValidated(pre, w, post);
      assert false;
    }
  }

  /** Validation gives the same answer on a ticker and on its normal form. */
  lemma ValidateNormalized(s: string)
    ensures ValidateTicker(Some(s)) == ValidateTicker(Some(Normalize(s)))
  {
    if s != "" && Normalize(s) != "" {
      NormalizeIdempotent(s);
    }
  }

  /** Validation ignores case. */
  lemma ValidateIgnoresCase(s: string)
    ensures ValidateTicker(Some(Upper(s))) == ValidateTicker(Some(s))
  {
    NormalizeUpper(s);
  }

  /** Validation ignores surrounding whitespace. */
  lemma ValidateIgnoresPadding(pre: string, s: string, post: string)
    requires AllSpace(pre) && AllSpace(post)
    ensures ValidateTicker(Some(pre + s + post)) == ValidateTicker(Some(s))
  {
    StripPadded(pre, s, post);
    if s == "" {
      assert Strip(s) == "";
    }
  }

  /** Every non-empty word of letters and digits, in either case, is accepted. */
  lemma ValidateAcceptsAlnum(s: string)
    requires IsAlnumWord(s)
    ensures ValidateTicker(Some(s))
  {
    assert !IsSpace(s[0]) && !IsSpace(s[|s| - 1]);
    StripTrimmed(s);
  }

  /**
   * A ticker with no whitespace at either end is rejected as soon as one of
   * its characters is neither a letter nor a digit.
   */
  lemma ValidateRejectsNonAlnum(s: string, i: nat)
    requires |s| > 0 && !IsSpace(s[0]) && !IsSpace(s[|s| - 1])
    requires i < |s| && !IsAlnum(s[i])
    ensures !ValidateTicker(Some(s))
  {
    StripTrimmed(s);
    assert !IsAlnum(Normalize(s)[i]);
  }

  /** `'VNINDEX'`, the ticker of the package's own smoke test, is accepted. */
  lemma ValidateAcceptsIndex()
    ensures ValidateTicker(Some("VNINDEX"))
  {
    var s := "VNINDEX";
    assert forall i :: 0 <= i < |s| ==> IsUpper(s[i]);
    ValidateAcceptsAlnum(s);
  }

  lemma ValidateAcceptsLowerCase()
    ensures ValidateTicker(Some("vnindex"))
  {
    var s := "vnindex";
    assert forall i :: 0 <= i < |s| ==> IsLower(s[i]);
    ValidateAcceptsAlnum(s);
  }

  /** A word of letters and digits between two spaces is accepted. */
  lemma ValidateAcceptsSpacedWord(s: string)
    requires IsAlnumWord(s)
    ensures ValidateTicker(Some([' '] + s + [' ']))
  {
    assert AllSpace([' ']);
    ValidateIgnoresPadding([' '], s, [' ']);
    ValidateAcceptsAlnum(s);
  }

  lemma ValidateAcceptsPadded()
    ensures ValidateTicker(Some(" TCB "))
  {
    var s := "TCB";
    assert IsUpper(s[0]) && IsUpper(s[1]) && IsUpper(s[2]);
    assert " TCB " == [' '] + s + [' '];
    ValidateAcceptsSpacedWord(s);
  }

  lemma ValidateRejectsHyphen()
    ensures !ValidateTicker(Some("TC-B"))
  {
    var s := "TC-B";
    assert IsUpper(s[0]) && IsUpper(s[3]) && s[2] == '-';
    ValidateRejectsNonAlnum(s, 2);
  }

  lemma ValidateRejectsLeadingHyphen()
    ensures !ValidateTicker(Some("-TCB"))
  {
    var s := "-TCB";
    assert s[0] == '-' && IsUpper(s[3]);
    ValidateRejectsNonAlnum(s, 0);
  }

  lemma ValidateRejectsInnerSpace()
    ensures !ValidateTicker(Some("T CB"))
  {
    var s := "T CB";
    assert IsUpper(s[0]) && IsUpper(s[3]) && s[1] == ' ';
    ValidateRejectsNonAlnum(s, 1);
  }

  lemma ValidateRejectsBlank()
    ensures !ValidateTicker(Some("   "))
    ensures !ValidateTicker(Some(""))
    ensures !ValidateTicker(None)
  {
    assert "   " == "   " + "" + "";
    ValidateIgnoresPadding("   ", "", "");
  }

  // ---------------------------------------------------------------------
  // The response of the data provider
  // ---------------------------------------------------------------------

  /** A JSON scalar in a record of the provider's `data` list. */
  datatype Value = JsonNumber(x: real) | JsonString(s: string)

  /** One record of the provider's `data` list: field name to value. */
  type Record = map<string, Value>

  /** The decoded body; `data` is `None` when the body has no `'data'` key. */
  datatype Payload = Payload(data: Option<seq<Record>>)

  /**
   * What the request produced: a decoded body, or a failure of any kind
   * (timeout, connection error, HTTP error status, undecodable body).
   */
  datatype Response = Received(body: Payload) | RequestFailed

  // ---------------------------------------------------------------------
  // Shaping the records
  // ---------------------------------------------------------------------

  /** The columns of `pd.DataFrame(records)`: every key of any record. */
  function KeysOf(records: seq<Record>): (keys: set<string>)
    ensures forall i, k :: 0 <= i < |records| && k in records[i] ==> k in keys
    ensures forall k :: k in keys ==> exists i :: 0 <= i < |records| && k in records[i]
  {
    if records == [] then {}
    else
      var rest := KeysOf(records[1..]);
      assert forall i, k :: 1 <= i < |records| && k in records[i] ==> k in records[1..][i - 1];
      records[0].Keys + rest
  }

  function DateValue(r: Record): Option<Value> {
    if DateColumn in r then Some(r[DateColumn]) else None
  }

  predicate ContainsT(v: Value) {
    v.JsonString? && 'T' in v.s
  }

  /**
   * The encoding test, made once for the whole column: some date is a
   * string containing `'T'` (so the column has object dtype and
   * `.str.contains('T').any()` holds).
   */
  predicate IsIsoColumn(records: seq<Record>) {
    exists i :: 0 <= i < |records| && DateColumn in records[i] && ContainsT(records[i][DateColumn])
  }

  /**
   * Whether a date string carries the `Z` suffix; `None` for a number or no
   * date.
   */
  function Zoned(v: Option<Value>): Option<bool> {
    match v
    case Some(JsonString(s)) => Some(|s| > 0 && s[|s| - 1] == 'Z')
    case _ => None
  }

  /**
   * Some date strings end in `Z` and others do not.  `pd.to_datetime`
   * infers one format from the first string, with or without `%z`, and
   * raises on a string of the other spelling.
   */
  predicate MixedZones(records: seq<Record>) {
    exists i, j :: 0 <= i < |records| && 0 <= j < |records|
      && Zoned(DateValue(records[i])) == Some(true) && Zoned(DateValue(records[j])) == Some(false)
  }

  /** The largest instant a `datetime64[ns]` holds, in ms: 2^63 - 1 ns. */
  const MaxInstantMs: real := 9223372036854.775807

  /** Instants `pd.to_datetime` can represent; beyond them it raises `OutOfBoundsDatetime`. */
  predicate InNsRange(t: real) {
    -MaxInstantMs <= t <= MaxInstantMs
  }

  /**
   * One date cell after `pd.to_datetime`, in the branch chosen for the
   * column.  A missing date becomes NaT.  `None` stands for a value the
   * branch cannot convert or an instant out of range, which raises and is
   * caught by the fetcher.
   */
  function ConvertDate(v: Option<Value>, iso: bool): Option<Cell> {
    match v
    case None => Some(NaN)
    case Some(JsonString(s)) =>
      if !iso then None
      else (match ParseIsoTimestamp(s)
        case Some(t) => if InNsRange(t) then Some(Time(t)) else None
        case None => None)
    case Some(JsonNumber(x)) =>
      if iso || !InNsRange(x) then None else Some(Time(x))
  }

  /** The whole converted date column, or `None` if any value fails. */
  function ConvertDates(records: seq<Record>, iso: bool): (r: Option<seq<Cell>>)
    ensures r.Some? <==> forall i :: 0 <= i < |records| ==> ConvertDate(DateValue(records[i]), iso).Some?
    ensures r.Some? ==> (|r.value| == |records|
      && forall i :: 0 <= i < |records| ==> r.value[i] == ConvertDate(DateValue(records[i]), iso).value)
  {
    if records == [] then Some([])
    else
      var first := ConvertDate(DateValue(records[0]), iso);
      var rest := ConvertDates(records[1..], iso);
      assert forall i :: 1 <= i < |records| ==> records[i] == records[1..][i - 1];
      if first.None? || rest.None? then None
      else Some([first.value] + rest.value)
  }

  /** A raw value as a DataFrame cell; an absent field is NaN. */
  function RawCell(r: Record, c: string): Cell {
    if c !in r then NaN
    else match r[c]
      case JsonNumber(x) => Num(x)
      case JsonString(s) => Str(s)
  }

  /** `[col for col in columns_to_keep if col in df.columns]`. */
  function KeepPresent(cs: seq<string>, keys: set<string>): (r: seq<string>)
    ensures forall c :: c in r <==> c in cs && c in keys
  {
    if cs == [] then []
    else (if cs[0] in keys then [cs[0]] else []) + KeepPresent(cs[1..], keys)
  }

  function KeptColumns(keys: set<string>): seq<string> {
    KeepPresent(OutputColumns, keys)
  }

  /** One record projected onto the kept columns, with its converted date. */
  function ProjectRow(r: Record, date: Cell, cols: seq<string>): Row {
    map c | c in cols :: if c == DateColumn then date else RawCell(r, c)
  }

  function ProjectRows(records: seq<Record>, dates: seq<Cell>, cols: seq<string>): seq<Row>
    requires |dates| == |records|
  {
    seq(|records|, i requires 0 <= i < |records| => ProjectRow(records[i], dates[i], cols))
  }

  // ---------------------------------------------------------------------
  // sort_values('tradingDate')
  // ---------------------------------------------------------------------

  /** The sort key of a row; NaT has none and sorts last. */
  function DateKey(row: Row): Option<real> {
    match Get(row, DateColumn)
    case Time(t) => Some(t)
    case _ => None
  }

  /** `a` may stand before `b` in ascending date order, NaT last. */
  predicate RowLeq(a: Row, b: Row) {
    match (DateKey(a), DateKey(b))
    case (Some(x), Some(y)) => x <= y
    case (Some(_), None) => true
    case (None, Some(_)) => false
    case (None, None) => true
  }

  lemma RowLeqTotal(a: Row, b: Row)
    ensures RowLeq(a, b) || RowLeq(b, a)
  {
  }

  lemma RowLeqTransitive(a: Row, b: Row, c: Row)
    requires RowLeq(a, b) && RowLeq(b, c)
    ensures RowLeq(a, c)
  {
  }

  predicate SortedByDate(rows: seq<Row>) {
    forall i, j :: 0 <= i < j < |rows| ==> RowLeq(rows[i], rows[j])
  }

  /** Insert `r` into sorted `rows` after every row that may precede it. */
  function Insert(rows: seq<Row>, r: Row): (res: seq<Row>)
    requires SortedByDate(rows)
    ensures multiset(res) == multiset(rows) + multiset{r}
    ensures SortedByDate(res)
    decreases |rows|
  {
    if rows == [] then [r]
    else
      var n := |rows| - 1;
      var last := rows[n];
      if RowLeq(last, r) then
        assert forall i :: 0 <= i < n ==> RowLeq(rows[i], last);
        forall i | 0 <= i < n ensures RowLeq(rows[i], r) {
          RowLeqTransitive(rows[i], last, r);
        }
        rows + [r]
      else
        assert rows == rows[..n] + [last];
        var front := Insert(rows[..n], r);
        RowLeqTotal(last, r);
        forall x | x in front ensures RowLeq(x, last) {
          assert x in multiset(front);
          assert x == r || x in multiset(rows[..n]);
        }
        front + [last]
  }

  /** `sort_values('tradingDate')`: ascending by date, NaT last, no row added or removed. */
  function SortByDate(rows: seq<Row>): (res: seq<Row>)
    ensures multiset(res) == multiset(rows)
    ensures |res| == |rows|
    ensures SortedByDate(res)
  {
    if rows == [] then []
    else
      var n := |rows| - 1;
      assert rows == rows[..n] + [rows[n]];
      var res := Insert(SortByDate(rows[..n]), rows[n]);
      assert |res| == |multiset(res)|;
      res
  }

  // ---------------------------------------------------------------------
  // fetch_historical_price
  // ---------------------------------------------------------------------

  /**
   * The body of `fetch_historical_price` once the records are in hand
   * and non-empty: build the frame, convert the date column in the one
   * encoding chosen for it, keep the six known columns, sort by date.
   * `None` stands for an exception caught by the fetcher.
   */
  function ShapeRecords(records: seq<Record>): Option<Frame> {
    var keys := KeysOf(records);
    if DateColumn !in keys then
      None  // no conversion, then sort_values('tradingDate') raises KeyError
    else if IsIsoColumn(records) && MixedZones(records) then
      None
    else
      var dates := ConvertDates(records, IsIsoColumn(records));
      if dates.None? then None
      else
        var cols := KeptColumns(keys);
        var rows := ProjectRows(records, dates.value, cols);
        Some(Frame(cols, SortByDate(rows)))
  }

  /** A non-empty start date that `strptime(..., "%Y-%m-%d")` rejects. */
  predicate RejectedStartDate(startDate: Option<string>) {
    startDate.Some? && startDate.value != "" && ParseDate(startDate.value).None?
  }

  /**
   * `fetch_historical_price(ticker, start_date)` given what its request
   * returned.  The ticker and the start date only shape the request; the
   * start date is checked before the request is made.
   */
  function FetchHistoricalPrice(startDate: Option<string>, response: Response): Option<Frame> {
    if RejectedStartDate(startDate) then None
    else match response
      case RequestFailed => None
      case Received(body) =>
        if body.data.None? || body.data.value == [] then None
        else ShapeRecords(body.data.value)
  }

  // ---------------------------------------------------------------------
  // What the shaping promises
  // ---------------------------------------------------------------------

  /** The position of a column in the fixed output order; 6 for any other name. */
  function Rank(c: string): nat {
    if c == DateColumn then 0
    else if c == OpenColumn then 1
    else if c == HighColumn then 2
    else if c == LowColumn then 3
    else if c == CloseColumn then 4
    else if c == VolumeColumn then 5
    else 6
  }

  predicate RankOrdered(cs: seq<string>) {
    forall i, j :: 0 <= i < j < |cs| ==> Rank(cs[i]) < Rank(cs[j])
  }

  /** The known columns are ranked by their position in the output order. */
  lemma OutputColumnsRanked()
    ensures forall k :: 0 <= k < |OutputColumns| ==> Rank(OutputColumns[k]) == k
    ensures RankOrdered(OutputColumns)
  {
    assert |DateColumn| == 11 && |OpenColumn| == 4 && |HighColumn| == 4;
    assert |LowColumn| == 3 && |CloseColumn| == 5 && |VolumeColumn| == 6;
    assert OpenColumn[0] != HighColumn[0];
    assert Rank(DateColumn) == 0;
    assert Rank(OpenColumn) == 1;
    assert Rank(HighColumn) == 2;
    assert Rank(LowColumn) == 3;
    assert Rank(CloseColumn) == 4;
    assert Rank(VolumeColumn) == 5;
  }

  lemma {:induction false} KeepPresentOrdered(cs: seq<string>, keys: set<string>)
    requires RankOrdered(cs)
    ensures RankOrdered(KeepPresent(cs, keys))
  {
    if cs != [] {
      KeepPresentOrdered(cs[1..], keys);
      var rest := KeepPresent(cs[1..], keys);
      forall j | 0 <= j < |rest| ensures Rank(cs[0]) < Rank(rest[j]) {
        assert rest[j] in cs[1..];
      }
    }
  }

  /**
   * The kept columns are exactly those of the six known columns that some
   * record carries, each once, in the fixed order.
   */
  lemma KeptColumnsExact(records: seq<Record>)
    ensures var cols := KeptColumns(KeysOf(records));
      && RankOrdered(cols)
      && (forall c :: c in cols <==> c in OutputColumns && exists i :: 0 <= i < |records| && c in records[i])
  {
    OutputColumnsRanked();
    KeepPresentOrdered(OutputColumns, KeysOf(records));
  }

  /**
   * Shaping succeeds exactly when some record has a date, every date
   * converts, and an ISO column does not mix the `Z` and the plain spelling.
   */
  lemma ShapeSucceeds(records: seq<Record>)
    ensures ShapeRecords(records).Some? <==>
      && (exists i :: 0 <= i < |records| && DateColumn in records[i])
      && (forall i :: 0 <= i < |records| ==> ConvertDate(DateValue(records[i]), IsIsoColumn(records)).Some?)
      && !(IsIsoColumn(records) && MixedZones(records))
  {
    if ShapeRecords(records).Some? {
      assert DateColumn in KeysOf(records);
    }
  }

  /** A shaped frame has the kept columns, starting with the date. */
  lemma ShapedColumns(records: seq<Record>)
    requires ShapeRecords(records).Some?
    ensures var f := ShapeRecords(records).value;
      && f.columns == KeptColumns(KeysOf(records))
      && |f.columns| > 0 && f.columns[0] == DateColumn
  {
    var keys := KeysOf(records);
    assert DateColumn in keys;
    assert KeptColumns(keys) == [DateColumn] + KeepPresent(OutputColumns[1..], keys);
  }

  /** Every projected row has exactly the kept columns. */
  lemma ProjectedRowKeys(records: seq<Record>, dates: seq<Cell>, cols: seq<string>, row: Row)
    requires |dates| == |records| && row in ProjectRows(records, dates, cols)
    ensures forall c :: c in row <==> c in cols
  {
    var projected := ProjectRows(records, dates, cols);
    var i :| 0 <= i < |projected| && projected[i] == row;
  }

  /** Every row of a shaped frame has exactly its columns: other vendor fields are gone. */
  lemma ShapedRowKeys(records: seq<Record>)
    requires ShapeRecords(records).Some?
    ensures var f := ShapeRecords(records).value;
      forall row, c :: row in f.rows ==> (c in row <==> c in f.columns)
  {
    var f := ShapeRecords(records).value;
    var dates := ConvertDates(records, IsIsoColumn(records)).value;
    var projected := ProjectRows(records, dates, f.columns);
    forall row | row in f.rows ensures forall c :: c in row <==> c in f.columns {
      assert row in multiset(f.rows);
      assert row in multiset(projected);
      ProjectedRowKeys(records, dates, f.columns, row);
    }
  }

  /**
   * The rows of a shaped frame are the projected records, one row per
   * record, reordered ascending by date and nothing else: no row is added,
   * dropped or merged, even when two records share a date.
   */
  lemma ShapedRowsArePermutation(records: seq<Record>)
    requires ShapeRecords(records).Some?
    ensures var f := ShapeRecords(records).value;
      var dates := ConvertDates(records, IsIsoColumn(records));
      && dates.Some?
      && |f.rows| == |records|
      && multiset(f.rows) == multiset(ProjectRows(records, dates.value, f.columns))
      && SortedByDate(f.rows)
  {
  }

  /**
   * Every record reaches the shaped frame with its date read in the
   * column's one encoding: parsed as an ISO timestamp when some date string
   * contains `'T'`, as milliseconds since the epoch otherwise, NaT when
   * the record has no date.
   */
  lemma ShapedDateEncoding(records: seq<Record>, i: nat)
    requires ShapeRecords(records).Some? && i < |records|
    ensures var f := ShapeRecords(records).value;
      var r := records[i];
      && (DateColumn !in r ==> ProjectRow(r, NaN, f.columns) in f.rows)
      && (DateColumn in r && IsIsoColumn(records) ==>
            r[DateColumn].JsonString? && ParseIsoTimestamp(r[DateColumn].s).Some?
            && InNsRange(ParseIsoTimestamp(r[DateColumn].s).value)
            && ProjectRow(r, Time(ParseIsoTimestamp(r[DateColumn].s).value), f.columns) in f.rows)
      && (DateColumn in r && !IsIsoColumn(records) ==>
            r[DateColumn].JsonNumber? && InNsRange(r[DateColumn].x)
            && ProjectRow(r, Time(r[DateColumn].x), f.columns) in f.rows)
  {
    var f := ShapeRecords(records).value;
    var dates := ConvertDates(records, IsIsoColumn(records)).value;
    var projected := ProjectRows(records, dates, f.columns);
    assert projected[i] in multiset(f.rows);
  }

  /** An epoch value beyond the `datetime64[ns]` range makes the shaping fail. */
  lemma ShapeRejectsOutOfRange(records: seq<Record>, i: nat)
    requires i < |records| && !IsIsoColumn(records)
    requires DateColumn in records[i] && records[i][DateColumn].JsonNumber?
    requires !InNsRange(records[i][DateColumn].x)
    ensures ShapeRecords(records).None?
  {
    if ShapeRecords(records).Some? {
      ShapedDateEncoding(records, i);
    }
  }

  lemma ShapeRejectsFarFuture()
    ensures ShapeRecords([map[DateColumn := JsonNumber(100000000000000000000.0)]]).None?
  {
    var r := map[DateColumn := JsonNumber(100000000000000000000.0)];
    assert !IsIsoColumn([r]);
    ShapeRejectsOutOfRange([r], 0);
  }

  /** An ISO column holding both spellings of a timestamp gives no table. */
  lemma MixedZoneColumnRejected(a: Record, b: Record)
    requires a == map[DateColumn := JsonString("2024-01-05T00:00:00Z")]
    requires b == map[DateColumn := JsonString("2024-01-05T00:00:00")]
    ensures ShapeRecords([a, b]).None?
    ensures ShapeRecords([b, a]).None?
  {
    var z, p := "2024-01-05T00:00:00Z", "2024-01-05T00:00:00";
    assert z[10] == 'T' && z[|z| - 1] == 'Z' && p[|p| - 1] == '0';
    assert ContainsT([a, b][0][DateColumn]) && ContainsT([b, a][1][DateColumn]);
    assert Zoned(DateValue([a, b][0])) == Some(true) && Zoned(DateValue([a, b][1])) == Some(false);
    assert Zoned(DateValue([b, a][1])) == Some(true) && Zoned(DateValue([b, a][0])) == Some(false);
  }

  /** A start date `strptime` rejects ends the fetch with `None` whatever the provider would send. */
  lemma FetchRejectsStartDate(startDate: Option<string>, response: Response)
    requires RejectedStartDate(startDate)
    ensures FetchHistoricalPrice(startDate, response) == None
  {
  }

  lemma FetchRejectsStartDateExamples(response: Response)
    ensures FetchHistoricalPrice(Some("2024/01/05"), response) == None
    ensures FetchHistoricalPrice(Some("2023-02-29"), response) == None
  {
    ParseDateRejects();
    ParseCommonYearLeapDay();
  }

  /**
   * A failed request, a body without `'data'` and an empty `'data'` list
   * all give `None`: an empty table is never returned.
   */
  lemma FetchWithoutData(startDate: Option<string>, response: Response)
    requires response.RequestFailed? || response.body.data.None? || response.body.data.value == []
    ensures FetchHistoricalPrice(startDate, response) == None
  {
  }

  /** What the fetcher returns, when it returns a table at all. */
  lemma FetchedFrame(startDate: Option<string>, response: Response)
    requires FetchHistoricalPrice(startDate, response).Some?
    ensures var f := FetchHistoricalPrice(startDate, response).value;
      && !RejectedStartDate(startDate)
      && response.Received? && response.body.data.Some? && response.body.data.value != []
      && f == ShapeRecords(response.body.data.value).value
      && !f.IsEmpty() && DateColumn in f.columns
  {
    ShapedColumns(response.body.data.value);
  }

  /**
   * The other direction: with an acceptable start date and a non-empty
   * `data` list whose dates all convert, the fetcher returns the shaped
   * records.
   */
  lemma FetchReturnsShaped(startDate: Option<string>, records: seq<Record>)
    requires !RejectedStartDate(startDate) && records != []
    requires exists i :: 0 <= i < |records| && DateColumn in records[i]
    requires forall i :: 0 <= i < |records| ==> ConvertDate(DateValue(records[i]), IsIsoColumn(records)).Some?
    requires !(IsIsoColumn(records) && MixedZones(records))
    ensures FetchHistoricalPrice(startDate, Received(Payload(Some(records)))).Some?
    ensures FetchHistoricalPrice(startDate, Received(Payload(Some(records)))) == ShapeRecords(records)
  {
    ShapeSucceeds(records);
  }

  /** Of the six output columns, only the date column is kept from a date-only table. */
  lemma KeptDateColumnOnly()
    ensures KeptColumns({DateColumn}) == [DateColumn]
  {
    OutputColumnsRanked();
    var keys: set<string> := {DateColumn};
    var cs := OutputColumns;
    assert KeepPresent(cs[6..], keys) == [];
    assert cs[5..][1..] == cs[6..];
    assert KeepPresent(cs[5..], keys) == [];
    assert cs[4..][1..] == cs[5..];
    assert KeepPresent(cs[4..], keys) == [];
    assert cs[3..][1..] == cs[4..];
    assert KeepPresent(cs[3..], keys) == [];
    assert cs[2..][1..] == cs[3..];
    assert KeepPresent(cs[2..], keys) == [];
    assert cs[1..][1..] == cs[2..];
    assert KeepPresent(cs[1..], keys) == [];
  }

  /** A single record holding only a date shapes to a one-cell frame. */
  lemma ShapeDateOnly(r: Record, cell: Cell)
    requires r.Keys == {DateColumn}
    requires ConvertDate(Some(r[DateColumn]), IsIsoColumn([r])) == Some(cell)
    ensures ShapeRecords([r]) == Some(Frame([DateColumn], [map[DateColumn := cell]]))
  {
    assert KeysOf([r]) == {DateColumn} by {
      assert [r][1..] == [];
    }
    KeptDateColumnOnly();
    var iso := IsIsoColumn([r]);
    var dates := ConvertDates([r], iso);
    assert dates == Some([cell]) by {
      assert DateValue([r][0]) == Some(r[DateColumn]);
      assert dates.Some? && |dates.value| == 1 && dates.value[0] == cell;
      assert dates.value == [cell];
    }
    var row := ProjectRow(r, cell, [DateColumn]);
    assert row == map[DateColumn := cell];
    assert ProjectRows([r], [cell], [DateColumn]) == [row];
  }

  /**
   * The same trading day sent in either encoding shapes to the same
   * timestamp: the ISO string `2024-01-05T00:00:00Z` and the epoch value
   * 1704412800000.
   */
  lemma SameDayInBothEncodings(iso: Record, epoch: Record)
    requires iso == map[DateColumn := JsonString("2024-01-05T00:00:00Z")]
    requires epoch == map[DateColumn := JsonNumber(1704412800000.0)]
    ensures ShapeRecords([iso]).Some? && ShapeRecords([epoch]).Some?
    ensures ShapeRecords([iso]) == ShapeRecords([epoch])
    ensures ShapeRecords([iso]).value.rows[0][DateColumn] == Time(1704412800000.0)
  {
    IsoAndEpochAgree();
    var s := "2024-01-05T00:00:00Z";
    assert s[10] == 'T';
    assert ContainsT([iso][0][DateColumn]);
    assert IsIsoColumn([iso]);
    assert !IsIsoColumn([epoch]);
    var cell := Time(1704412800000.0);
    ShapeDateOnly(iso, cell);
    ShapeDateOnly(epoch, cell);
  }
}
