// The earlier coordinate of `modules/coord/mod.rs`: a file and a rank stored
// as `NonMaxU8`, so every byte except 255 is accepted; the board bound 0..7
// is not enforced here.

module CoordMod {
  import opened Errors
  import opened Text

  /** A `NonMaxU8`: a byte other than 255. */
  type NonMaxU8 = x: nat | x < 255

  datatype Coord = Coord(file: NonMaxU8, rank: NonMaxU8)

  /** `Coord::new`: the file is checked first, then the rank. */
  function New(file: u8, rank: u8): (r: Result<Coord>)
    ensures r.Ok? <==> file != 255 && rank != 255
    ensures r.Ok? ==> r.value.file == file && r.value.rank == rank
    ensures file == 255 ==> r == Err(InvalidFile)
    ensures file != 255 && rank == 255 ==> r == Err(InvalidRank)
  {
    if file == 255 then Err(InvalidFile)
    else if rank == 255 then Err(InvalidRank)
    else Ok(Coord(file, rank))
  }

  /** `to_u8_coord`. */
  function ToU8Coord(c: Coord): (r: (u8, u8))
    ensures New(r.0, r.1) == Ok(c)
  {
    (c.file, c.rank)
  }

  /** `to_string_coord`: both components in decimal. */
  function ToStringCoord(c: Coord): (r: (string, string))
    ensures IsDecimal(r.0) && IsDecimal(r.1)
    ensures DigitsValue(r.0) == c.file && DigitsValue(r.1) == c.rank
  {
    (NatToString(c.file), NatToString(c.rank))
  }

  /** `to_char_coord`: `char::from_digit(_, 10).unwrap()` panics above 9. */
  function ToCharCoord(c: Coord): (r: (char, char))
    requires c.file <= 9 && c.rank <= 9
    ensures IsDigit(r.0) && IsDigit(r.1)
    ensures DigitValue(r.0) == c.file && DigitValue(r.1) == c.rank
  {
    (DigitChar(c.file), DigitChar(c.rank))
  }

  /** `to_alphanumeric_coord`: indexing `STR_FILES` panics above file 7. */
  function ToAlphanumericCoord(c: Coord): (r: (char, u8))
    requires c.file <= 7
    ensures 'a' <= r.0 <= 'h' && r.0 as int - 'a' as int == c.file
    ensures r.1 == c.rank + 1
  {
    ((('a' as int) + c.file) as char, c.rank + 1)
  }

  /** `TryFrom<(T, U)>` for any primitive integers: a component that does not
      fit a `u8` is an `InvalidTypeConversion` (the file first), and a pair of
      bytes then behaves like `new`. */
  function TryFromPair(file: int, rank: int): (r: Result<Coord>)
    ensures !(0 <= file < 256) ==> r == Err(InvalidTypeConversion)
    ensures 0 <= file < 256 && !(0 <= rank < 256) ==> r == Err(InvalidTypeConversion)
    ensures 0 <= file < 256 && 0 <= rank < 256 ==> r == New(file, rank)
  {
    if !(0 <= file < 256) then Err(InvalidTypeConversion)
    else if !(0 <= rank < 256) then Err(InvalidTypeConversion)
    else if file == 255 then Err(InvalidFile)
    else if rank == 255 then Err(InvalidRank)
    else Ok(Coord(file, rank))
  }

  /** A pair is accepted exactly when both components are bytes other than 255. */
  lemma TryFromPairAccepts(file: int, rank: int)
    ensures TryFromPair(file, rank).Ok? <==> 0 <= file < 255 && 0 <= rank < 255
  {
  }

  /** `to_u8_coord` and `new` are inverse. */
  lemma U8RoundTrip(file: u8, rank: u8)
    requires file != 255 && rank != 255
    ensures ToU8Coord(New(file, rank).value) == (file, rank)
  {
  }

  /** `to_string_coord` is one-to-one. */
  lemma ToStringCoordInjective(c: Coord, d: Coord)
    requires ToStringCoord(c) == ToStringCoord(d)
    ensures c == d
  {
  }
}
