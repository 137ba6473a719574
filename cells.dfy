/**
 * The value of one spreadsheet cell in a row object produced by the
 * spreadsheet decoder: a column missing from the row is `Absent`.
 * Client-side arrays of chart data hold the same kind of values.
 */
module Cells {

  datatype Cell = Absent | Num(n: real) | Str(s: string) | Bool(b: bool)

  /** One spreadsheet row: column name to cell. */
  type Row = map<string, Cell>

  /** `row[key]`, with `undefined` for a missing column. */
  function Get(row: Row, key: string): Cell {
    if key in row then row[key] else Absent
  }

  /** `a[i]` on a JavaScript array: `undefined` past the end. */
  function At(a: seq<Cell>, i: nat): Cell {
    if i < |a| then a[i] else Absent
  }
}
