/** Cell values, rows and sheets: the spreadsheet as the request handler
    sees it through getDataRange().getValues(). */
module Cells {

  /** A value held in one cell, or in one field of a request payload.
      The sheet hands an empty cell back as the empty string. The model also
      reads a field the client leaves out as Text(""); README, Left out,
      Payload gives what this changes. */
  datatype Cell = Text(s: string) | Num(n: int)

  /** One sheet row, column 0 first. */
  type Row = seq<Cell>

  /** A whole sheet, row 0 first; once anything is written, row 0 is the header. */
  type Sheet = seq<Row>

  /** JavaScript truthiness of a cell value: "" and 0 are falsy. */
  predicate Truthy(c: Cell)
  {
    match c
    case Text(s) => s != ""
    case Num(n) => n != 0
  }

  /** Column k of a row. The data range is rectangular, so within its width
      a column beyond the end of a short row reads as an empty cell; the
      model reads every column beyond the row's end that way. */
  function CellAt(row: Row, k: nat): Cell
  {
    if k < |row| then row[k] else Text("")
  }

  /** The first column, which every table uses as its key (id or name). */
  function KeyOf(row: Row): Cell
  {
    CellAt(row, 0)
  }
}
