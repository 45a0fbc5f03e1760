/** One result row as the data reader exposes it: named columns holding
    nullable cells, and the typed getters the decoder calls on them. A getter
    that cannot deliver its value throws in the reader; here it returns a
    `Failure` naming the column and the reason. */
module Rows {
  import opened Wrappers
  import opened Domain

  datatype Cell =
    | Null
    | Int(i: int)
    | Float(x: real)
    | Str(s: string)
    | Time(t: Instant)

  type Row = map<string, Cell>

  /** The kind of value a getter expects to find in a non-null cell. */
  datatype Kind = TimeKind | StringKind | FloatKind | IntKind

  /** The width an integer getter narrows to, with checked conversion. */
  datatype Width = Int16 | Int32 {

    function Min(): int {
      match this
      case Int16 => -0x8000
      case Int32 => -0x8000_0000
    }

    function Max(): int {
      match this
      case Int16 => 0x7FFF
      case Int32 => 0x7FFF_FFFF
    }

    predicate Fits(i: int) {
      Min() <= i <= Max()
    }
  }

  datatype DecodeError =
    | NoSuchColumn(column: string)
    | NullValue(column: string)
    | WrongKind(column: string, expected: Kind)
    | Overflow(column: string, width: Width)

  predicate Has(row: Row, column: string, cell: Cell) {
    column in row && row[column] == cell
  }

  predicate OfKind(cell: Cell, kind: Kind) {
    match kind
    case TimeKind => cell.Time?
    case StringKind => cell.Str?
    case FloatKind => cell.Float?
    case IntKind => cell.Int?
  }

  /** The error really describes the row: the column is missing, null, of
      another kind, or holds an integer outside the width read. */
  ghost predicate Genuine(row: Row, e: DecodeError) {
    match e
    case NoSuchColumn(c) => c !in row
    case NullValue(c) => Has(row, c, Null)
    case WrongKind(c, k) => c in row && row[c] != Null && !OfKind(row[c], k)
    case Overflow(c, w) => c in row && row[c].Int? && !w.Fits(row[c].i)
  }

  /** Null test on a column; the column lookup fails when it does not exist. */
  function IsDBNull(row: Row, column: string): (r: Result<bool, DecodeError>)
    ensures r.Success? <==> column in row
    ensures r.Success? ==> (r.value <==> row[column] == Null)
    ensures r.Failure? ==> Genuine(row, r.error)
  {
    if column in row then Success(row[column] == Null)
    else Failure(NoSuchColumn(column))
  }

  /** Fetches a non-null cell of the given kind. */
  function GetCell(row: Row, column: string, kind: Kind): (r: Result<Cell, DecodeError>)
    ensures r.Success? <==> column in row && OfKind(row[column], kind)
    ensures r.Success? ==> r.value == row[column]
    ensures r.Failure? ==> Genuine(row, r.error)
  {
    if column !in row then Failure(NoSuchColumn(column))
    else if row[column] == Null then Failure(NullValue(column))
    else if !OfKind(row[column], kind) then Failure(WrongKind(column, kind))
    else Success(row[column])
  }

  function GetDateTime(row: Row, column: string): (r: Result<Instant, DecodeError>)
    ensures r.Success? <==> exists t :: Has(row, column, Time(t))
    ensures r.Success? ==> Has(row, column, Time(r.value))
    ensures r.Failure? ==> Genuine(row, r.error)
  {
    var cell :- GetCell(row, column, TimeKind);
    Success(cell.t)
  }

  function GetString(row: Row, column: string): (r: Result<string, DecodeError>)
    ensures r.Success? <==> exists s :: Has(row, column, Str(s))
    ensures r.Success? ==> Has(row, column, Str(r.value))
    ensures r.Failure? ==> Genuine(row, r.error)
  {
    var cell :- GetCell(row, column, StringKind);
    Success(cell.s)
  }

  /** Both `GetFloat` and `GetDouble` of the reader: the payload is opaque. */
  function GetReal(row: Row, column: string): (r: Result<real, DecodeError>)
    ensures r.Success? <==> exists x :: Has(row, column, Float(x))
    ensures r.Success? ==> Has(row, column, Float(r.value))
    ensures r.Failure? ==> Genuine(row, r.error)
  {
    var cell :- GetCell(row, column, FloatKind);
    Success(cell.x)
  }

  /** `GetInt16` / `GetInt32`: an integer outside the width is an overflow. */
  function GetInt(row: Row, column: string, width: Width): (r: Result<int, DecodeError>)
    ensures r.Success? <==> exists i :: Has(row, column, Int(i)) && width.Fits(i)
    ensures r.Success? ==> Has(row, column, Int(r.value)) && width.Fits(r.value)
    ensures r.Failure? ==> Genuine(row, r.error)
  {
    var cell :- GetCell(row, column, IntKind);
    if width.Fits(cell.i) then Success(cell.i) else Failure(Overflow(column, width))
  }
}
