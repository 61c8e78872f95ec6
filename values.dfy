/**
 The values a board cell holds and the values the board accessors hand back.

 A cell of the board table is either empty or holds a number or a text.
 The accessors pass every cell through `checker`, which turns an empty
 cell into the text "NaN" and leaves numbers and texts as they are, so
 what a caller sees is either an integer or a string.
 */
module Values {

  datatype Option<+T> = None | Some(value: T)

  /** A value as the accessors return it: an integer or a string. */
  datatype Value = IntV(i: int) | StrV(s: string)

  /** The text `checker` puts in place of an empty cell. */
  const NaN: Value := StrV("NaN")

  /** `checker` on a numeric cell: only an empty cell reads as "NaN". */
  function CheckNum(cell: Option<int>): (v: Value)
    ensures v == NaN <==> cell.None?
    ensures cell.Some? ==> v == IntV(cell.value)
  {
    match cell
    case None => NaN
    case Some(n) => IntV(n)
  }

  /**
   `checker` on a text cell. The result is always a string, and a cell
   that holds the text "NaN" reads exactly like an empty one.
   */
  function CheckText(cell: Option<string>): (v: Value)
    ensures v.StrV?
    ensures v == NaN <==> (cell.None? || cell == Some("NaN"))
    ensures cell.Some? ==> v == StrV(cell.value)
  {
    match cell
    case None => NaN
    case Some(t) => StrV(t)
  }
}
