// Result and error types shared by every module of the model.
//
// The library reports failures through `ChuiResult<T>`, a `Result` whose
// error side is the `ChuiError` enum. Each variant of that enum carries a
// formatted message; the model keeps the variant and drops the text, except
// for `InvalidInput`, whose reason the parsers pass through verbatim.

module Errors {

  datatype Option<T> = None | Some(value: T)
  {
    predicate IsSome() { Some? }

    function UnwrapOr(default: T): (r: T)
      ensures Some? ==> r == value
      ensures None? ==> r == default
    {
      match this
      case Some(v) => v
      case None => default
    }
  }

  datatype ChuiError =
    | InvalidInput(reason: string)
    | InvalidMove
    | InvalidEnPassant
    | InvalidPiece
    | IncompatibleSides
    | TokenNotSatisfied
    | IndexOutOfRange
    | InvalidRank
    | InvalidFile
    | InvalidTypeConversion
    | InvalidCoords
    | NotImplemented
    | Unknown

  datatype Result<T> = Ok(value: T) | Err(error: ChuiError)
  {
    predicate IsOk() { Ok? }
  }

  /** An 8-bit unsigned integer. */
  type u8 = x: int | 0 <= x < 256

  /** Rust's `u8::wrapping_sub`: subtraction modulo 256. */
  function WrappingSub(x: u8, k: u8): (r: u8)
    ensures x >= k ==> r == x - k
    ensures x < k ==> r == x - k + 256
  {
    (x - k) % 256
  }

  /** Rust's `c as u8` on a `char`: the low byte of its scalar value. */
  function CharAsU8(c: char): (r: u8)
    ensures (c as int) < 256 ==> r == c as int
  {
    (c as int) % 256
  }
}
