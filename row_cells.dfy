// Cells of a fetched warehouse row, as the inputs adapter reads them with
// `row.get(column, default)`.
module RowCells {
  /** A column that is missing from the row, present but NULL, or present with a value. */
  datatype Cell<T> = Absent | Null | Present(value: T)

  /**
   * `str(row.get(column, default))` for a text column: a missing column gives
   * the default, a NULL gives the text "None", a value gives itself.
   */
  function StrOr(c: Cell<string>, default: string): (s: string)
    ensures c.Present? ==> s == c.value
    ensures c.Absent? ==> s == default
    ensures c.Null? ==> s == "None" && s != ""
  {
    match c
    case Absent => default
    case Null => "None"
    case Present(v) => v
  }
}
