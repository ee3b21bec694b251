/** The operand vocabulary of the calculator: cell addresses, the four
    reference shapes, sheet-qualified references, scalar values, error
    kinds and formula vertices (an operand that is either a resolved value
    or an unresolved reference). All values are immutable. */
module Vertex {

  datatype Option<+T> = None | Some(value: T)

  /** Error kinds of the formula language. The vocabulary belongs to the
      parser; the calculator only ever picks one of these. */
  datatype ErrorKind = Unspecified | Value | Num | Ref | Div0 | Na | Name | Null

  /** A scalar cell value. Numbers are 64-bit floats in the program; here
      they are reals, which is enough for comparisons and `Floor`. */
  datatype Value = Number(x: real) | Text(s: string) | Boolean(b: bool) | Error(kind: ErrorKind)

  /** What the connector hands back for an operand. */
  datatype CalcValue = Scalar(scalar: Value) | Array(rows: seq<seq<Value>>)

  /** A zero-based cell position. */
  datatype Address = Address(row: nat, col: nat)

  /** A band of whole columns or whole rows (the program's `ColRange` and
      `RowRange`); `start` and `end` are not ordered when the band is built. */
  datatype ColBand = ColBand(start: nat, end: nat)
  datatype RowBand = RowBand(start: nat, end: nat)

  /** The four reference shapes. A `Range` keeps its two corners in the
      order they were written; ordering is left to the range algebra. */
  datatype Reference =
    | Addr(addr: Address)
    | ColumnRange(cr: ColBand)
    | RowRange(rr: RowBand)
    | Range(start: Address, end: Address)

  type SheetId = nat

  /** A reference qualified by its sheet; `fromSheet` is the first sheet
      of a 3-D reference. */
  datatype CalcReference = CalcReference(fromSheet: Option<SheetId>, sheet: SheetId, reference: Reference)

  /** One formula operand or result. */
  datatype CalcVertex = Value(value: CalcValue) | Reference(calcRef: CalcReference)

  /** The vertex holding error `kind` (the program's `CalcVertex::from_error`). */
  function ErrorVertex(kind: ErrorKind): CalcVertex {
    CalcVertex.Value(Scalar(Error(kind)))
  }

  /** The vertex holding number `x` (the program's `CalcVertex::from_number`). */
  function NumberVertex(x: real): CalcVertex {
    CalcVertex.Value(Scalar(Number(x)))
  }
}
