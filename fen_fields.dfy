// The FEN field builders of a game: side to move, castling availability,
// en passant target and the two clocks (section 16.1.3 of the PGN Standard).
// lib/chui_core/src/modules/game/fen.rs, lib/chui_core/src/game/fen.rs and
// lib/chui_core/src/modules/engine/fen.rs hold the same builders over
// different owner structs; they read the same fields, so they are modelled
// once, over a record of those fields.

module FenFields {
  import opened Errors
  import opened Text
  import opened Coordinate
  import P = Piece

  /** The state the builders read from a game (or engine) and its board. */
  datatype FenState = FenState(
    toMove: P.Color,
    whiteCanCastleKingside: bool,
    whiteCanCastleQueenside: bool,
    blackCanCastleKingside: bool,
    blackCanCastleQueenside: bool,
    enPassant: Option<Coord>,
    halfMoveClock: nat,
    moveCounter: nat)

  /** The six FEN fields after the piece placement, as strings, with the
      X-FEN en passant field beside the plain one. */
  datatype FieldStrings = FieldStrings(
    toMove: string,
    castle: string,
    enPassant: string,
    xEnPassant: string,
    halfMoveClock: string,
    fullMoveCounter: string)

  /** `get_fen_to_move`. */
  function ToMove(c: P.Color): (r: string)
    ensures r == "w" <==> c == P.White
    ensures r == "b" <==> c == P.Black
  {
    match c
    case White => "w"
    case Black => "b"
  }

  /** The letters of `letters` whose flag is set, in order. */
  function Select(letters: string, flags: seq<bool>): (r: string)
    requires |letters| == |flags|
    ensures |r| <= |letters|
  {
    if letters == [] then []
    else (if flags[0] then [letters[0]] else []) + Select(letters[1..], flags[1..])
  }

  /** The castling field: the letters of "KQkq" for the rights still held. */
  function CastleLetters(wk: bool, wq: bool, bk: bool, bq: bool): (r: string)
  {
    Select("KQkq", [wk, wq, bk, bq])
  }

  /** `get_fen_castle`, which appends one letter per held right. */
  method GetFenCastle(wk: bool, wq: bool, bk: bool, bq: bool) returns (castle: string)
    ensures castle == CastleLetters(wk, wq, bk, bq)
  {
    CastleLettersParts(wk, wq, bk, bq);
    castle := "";
    if wk {
      castle := castle + "K";
    }
    if wq {
      castle := castle + "Q";
    }
    if bk {
      castle := castle + "k";
    }
    if bq {
      castle := castle + "q";
    }
  }

  /** Which letters the castling field holds, in which order, and how many. */
  lemma CastleLettersFacts(wk: bool, wq: bool, bk: bool, bq: bool)
    ensures 'K' in CastleLetters(wk, wq, bk, bq) <==> wk
    ensures 'Q' in CastleLetters(wk, wq, bk, bq) <==> wq
    ensures 'k' in CastleLetters(wk, wq, bk, bq) <==> bk
    ensures 'q' in CastleLetters(wk, wq, bk, bq) <==> bq
    ensures CastleLetters(wk, wq, bk, bq) == [] <==> !wk && !wq && !bk && !bq
    ensures |CastleLetters(wk, wq, bk, bq)| ==
      (if wk then 1 else 0) + (if wq then 1 else 0) + (if bk then 1 else 0) + (if bq then 1 else 0)
    ensures forall i, j :: 0 <= i < j < |CastleLetters(wk, wq, bk, bq)| ==>
      Rank(CastleLetters(wk, wq, bk, bq)[i]) < Rank(CastleLetters(wk, wq, bk, bq)[j])
  {
    CastleLettersParts(wk, wq, bk, bq);
  }

  /** The castling field, one optional letter per right. */
  lemma CastleLettersParts(wk: bool, wq: bool, bk: bool, bq: bool)
    ensures CastleLetters(wk, wq, bk, bq) ==
      (if wk then "K" else "") + (if wq then "Q" else "") + (if bk then "k" else "") + (if bq then "q" else "")
  {
    var f := [wk, wq, bk, bq];
    var f1, f2, f3 := f[1..], f[1..][1..], f[1..][1..][1..];
    assert "KQkq"[1..] == "Qkq" && "Qkq"[1..] == "kq" && "kq"[1..] == "q" && "q"[1..] == "";
    assert Select("", f3[1..]) == "";
    assert Select("q", f3) == if bq then "q" else "";
    assert Select("kq", f2) == (if bk then "k" else "") + Select("q", f3);
    assert Select("Qkq", f1) == (if wq then "Q" else "") + Select("kq", f2);
    assert Select("KQkq", f) == (if wk then "K" else "") + Select("Qkq", f1);
  }

  /** The place of a castling letter in "KQkq". */
  function Rank(c: char): nat
  {
    if c == 'K' then 0 else if c == 'Q' then 1 else if c == 'k' then 2 else 3
  }

  /** `get_fen_en_passant`: "-" without a target, else its square name. */
  function EnPassantField(ep: Option<Coord>): (r: string)
    ensures ep.None? ==> r == "-"
    ensures ep.Some? ==> |r| == 2 && 'a' <= r[0] <= 'h' && '1' <= r[1] <= '8'
  {
    match ep
    case None => "-"
    case Some(c) =>
      ToStringShape(c);
      ToString(c)
  }

  /** The en passant field names the target exactly: distinct targets give
      distinct fields. */
  lemma EnPassantFieldInjective(a: Option<Coord>, b: Option<Coord>)
    requires EnPassantField(a) == EnPassantField(b)
    ensures a == b
  {
    if a.Some? && b.Some? {
      ToStringInjective(a.value, b.value);
    }
  }

  /** The FEN fields of a state. The X-FEN en passant field
      (`get_x_fen_en_passant`) is the plain one; the clocks print in
      decimal (`get_fen_half_move_clock`, `get_fen_full_move_counter`). */
  function Fields(s: FenState): (r: FieldStrings)
    ensures r.xEnPassant == r.enPassant
    ensures IsDecimal(r.halfMoveClock) && DigitsValue(r.halfMoveClock) == s.halfMoveClock
    ensures IsDecimal(r.fullMoveCounter) && DigitsValue(r.fullMoveCounter) == s.moveCounter
  {
    FieldStrings(ToMove(s.toMove),
                 CastleLetters(s.whiteCanCastleKingside, s.whiteCanCastleQueenside,
                               s.blackCanCastleKingside, s.blackCanCastleQueenside),
                 EnPassantField(s.enPassant),
                 EnPassantField(s.enPassant), NatToString(s.halfMoveClock),
                 NatToString(s.moveCounter))
  }

  /** No space, '/' or line break: the separators FEN records use. */
  predicate NoSeparator(x: string)
  {
    ' ' !in x && '/' !in x && '\n' !in x
  }

  /** None of the fields contains a separator, so they can be joined and
      split again. */
  lemma FieldsHaveNoSeparators(s: FenState)
    ensures NoSeparator(Fields(s).toMove) && NoSeparator(Fields(s).castle)
    ensures NoSeparator(Fields(s).enPassant) && NoSeparator(Fields(s).xEnPassant)
    ensures NoSeparator(Fields(s).halfMoveClock) && NoSeparator(Fields(s).fullMoveCounter)
  {
    var f := Fields(s);
    CastleNoSeparator(s.whiteCanCastleKingside, s.whiteCanCastleQueenside,
                      s.blackCanCastleKingside, s.blackCanCastleQueenside);
    EnPassantNoSeparator(s.enPassant);
    DecimalNoSeparator(f.halfMoveClock);
    DecimalNoSeparator(f.fullMoveCounter);
  }

  lemma CastleNoSeparator(wk: bool, wq: bool, bk: bool, bq: bool)
    ensures NoSeparator(CastleLetters(wk, wq, bk, bq))
  {
    CastleLettersParts(wk, wq, bk, bq);
  }

  lemma EnPassantNoSeparator(ep: Option<Coord>)
    ensures NoSeparator(EnPassantField(ep))
  {
  }

  lemma DecimalNoSeparator(x: string)
    requires IsDecimal(x)
    ensures NoSeparator(x)
  {
    forall c | c in x ensures IsDigit(c) {
      var i :| 0 <= i < |x| && x[i] == c;
    }
  }
}
