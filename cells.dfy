/** A spreadsheet cell as the row loops see it, and `float(cell)`. */
module Cells {
  import opened Text

  /** A cell holds a number, or text that `float` has to parse. */
  datatype Cell = Number(value: real) | Words(text: string)

  /** `float(cell)`: `None` where `float` raises. */
  function ReadFloat(c: Cell): (r: Option<real>)
    ensures c.Number? ==> r == Some(c.value)
    ensures c.Words? && Strip(c.text) == [] ==> r.None?
  {
    match c
    case Number(v) => Some(v)
    case Words(s) => ParseFloat(s)
  }
}
