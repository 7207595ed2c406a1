/**
 * The tabular series the fetcher returns and the chart builders read: a
 * pandas DataFrame reduced to its column names and its rows.
 */
module Table {

  const DateColumn: string := "tradingDate"
  const OpenColumn: string := "open"
  const HighColumn: string := "high"
  const LowColumn: string := "low"
  const CloseColumn: string := "close"
  const VolumeColumn: string := "volume"

  /** The columns the fetcher keeps, in the order it keeps them. */
  const OutputColumns: seq<string> :=
    [DateColumn, OpenColumn, HighColumn, LowColumn, CloseColumn, VolumeColumn]

  /** One cell: NaN/NaT, a number, a string, or a timestamp in milliseconds. */
  datatype Cell = NaN | Num(x: real) | Str(s: string) | Time(ms: real)

  /** One row, from column name to cell. */
  type Row = map<string, Cell>

  datatype Frame = Frame(columns: seq<string>, rows: seq<Row>) {
    /** `DataFrame.empty`: no rows or no columns. */
    predicate IsEmpty() {
      |rows| == 0 || |columns| == 0
    }
  }

  /** The cell of `row` in column `c`; a row without it reads as NaN. */
  function Get(row: Row, c: string): Cell {
    if c in row then row[c] else NaN
  }
}
