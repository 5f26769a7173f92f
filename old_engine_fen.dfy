// The FEN field builders of the oldest engine, src/modules/engine/fen.rs.
// Side to move, castling and the clocks are built as in module FenFields;
// the en passant targets are (file, rank) pairs, with '-' as the file or 9
// as the rank meaning "no target".

module OldEngineFen {
  import opened Errors
  import opened Text
  import opened Coordinate
  import P = Piece
  import FF = FenFields

  /** The engine fields the builders read. */
  datatype OldFenState = OldFenState(
    toMove: P.Color,
    whiteCanCastleKingside: bool,
    whiteCanCastleQueenside: bool,
    blackCanCastleKingside: bool,
    blackCanCastleQueenside: bool,
    enPassantTargetSquare: (char, nat),
    trueEnPassantTargetSquare: (char, nat),
    halfMoveClock: nat,
    moveCounter: nat)

  /** The rule both en passant builders apply to their pair. */
  function TargetField(t: (char, nat)): (r: string)
    ensures r == "-" <==> t.0 == '-' || t.1 == 9
  {
    if t.0 == '-' || t.1 == 9 then "-" else [t.0] + NatToString(t.1)
  }

  /** `get_fen_en_passant`. */
  function EnPassantField(s: OldFenState): (r: string)
    ensures r == "-" <==> s.enPassantTargetSquare.0 == '-' || s.enPassantTargetSquare.1 == 9
  {
    TargetField(s.enPassantTargetSquare)
  }

  /** `get_x_fen_en_passant`: the same rule on the true target. */
  function XEnPassantField(s: OldFenState): (r: string)
    ensures r == "-" <==> s.trueEnPassantTargetSquare.0 == '-' || s.trueEnPassantTargetSquare.1 == 9
  {
    TargetField(s.trueEnPassantTargetSquare)
  }

  /** The fields of the oldest engine. */
  function Fields(s: OldFenState): (r: FF.FieldStrings)
    ensures r.enPassant == EnPassantField(s) && r.xEnPassant == XEnPassantField(s)
  {
    FF.FieldStrings(
      FF.ToMove(s.toMove),
      FF.CastleLetters(s.whiteCanCastleKingside, s.whiteCanCastleQueenside,
                       s.blackCanCastleKingside, s.blackCanCastleQueenside),
      EnPassantField(s), XEnPassantField(s),
      NatToString(s.halfMoveClock), NatToString(s.moveCounter))
  }

  /** A pair naming a real square prints as the newer builder prints that
      square. */
  lemma TargetFieldAgrees(c: Coord)
    ensures TargetField((FileChar(c.file), c.rank + 1)) == FF.EnPassantField(Some(c))
  {
    assert NatToString(c.rank + 1) == [DigitChar(c.rank + 1)];
  }

  /** Distinct real targets give distinct fields: the field names the
      square. */
  lemma TargetFieldInjective(c: Coord, d: Coord)
    requires TargetField((FileChar(c.file), c.rank + 1)) == TargetField((FileChar(d.file), d.rank + 1))
    ensures c == d
  {
    TargetFieldAgrees(c);
    TargetFieldAgrees(d);
    FF.EnPassantFieldInjective(Some(c), Some(d));
  }
}
