// The `Board` of lib/chui_core/src/board.rs: a position store, the four
// castling flags and the en passant fields, which its setters assign in
// place. Its position is a bit-position stub that keeps no pieces, so the
// model keeps only the variant it was built for.

module CoreBoard {
  import opened Errors
  import opened Coordinate
  import P = Piece
  import opened BoardRules

  class Board {
    /** The variant the position was built for. */
    var position: ChessVariant
    var whiteCanCastleKingside: bool
    var whiteCanCastleQueenside: bool
    var blackCanCastleKingside: bool
    var blackCanCastleQueenside: bool
    var enPassantTargetSquare: Option<Coord>
    var trueEnPassantTargetSquare: Option<Coord>
    var enPassantTargetPiece: Option<P.Piece>

    /** `Board::new`: every castling right is still available and there is
        no en passant target. */
    constructor (variant: ChessVariant)
      ensures position == variant
      ensures whiteCanCastleKingside && whiteCanCastleQueenside
      ensures blackCanCastleKingside && blackCanCastleQueenside
      ensures enPassantTargetSquare.None? && trueEnPassantTargetSquare.None? && enPassantTargetPiece.None?
    {
      position := variant;
      whiteCanCastleKingside := true;
      whiteCanCastleQueenside := true;
      blackCanCastleKingside := true;
      blackCanCastleQueenside := true;
      enPassantTargetSquare := None;
      trueEnPassantTargetSquare := None;
      enPassantTargetPiece := None;
    }

    /** `Default`: the standard setup. */
    static method Default() returns (b: Board)
      ensures fresh(b) && b.position == StandardChess
      ensures b.whiteCanCastleKingside && b.whiteCanCastleQueenside
      ensures b.blackCanCastleKingside && b.blackCanCastleQueenside
      ensures b.GetEnPassant() == (None, None) && b.trueEnPassantTargetSquare.None?
    {
      b := new Board(StandardChess);
    }

    /** `get_en_passant`: the FEN target square and the target pawn. */
    function GetEnPassant(): (Option<Coord>, Option<P.Piece>)
      reads this
    {
      (enPassantTargetSquare, enPassantTargetPiece)
    }

    /** The castling flags and the position: what the en passant setters
        leave alone. */
    function Castling(): (ChessVariant, bool, bool, bool, bool)
      reads this
    {
      (position, whiteCanCastleKingside, whiteCanCastleQueenside, blackCanCastleKingside, blackCanCastleQueenside)
    }

    /** `set_en_passant_coord`: the FEN and X-FEN target squares both become
        `c`. */
    method SetEnPassantCoord(c: Option<Coord>)
      modifies this
      ensures enPassantTargetSquare == c && trueEnPassantTargetSquare == c
      ensures enPassantTargetPiece == old(enPassantTargetPiece) && Castling() == old(Castling())
    {
      enPassantTargetSquare := c;
      trueEnPassantTargetSquare := c;
    }

    /** `set_en_passant_piece`. */
    method SetEnPassantPiece(piece: Option<P.Piece>)
      modifies this
      ensures enPassantTargetPiece == piece
      ensures enPassantTargetSquare == old(enPassantTargetSquare)
      ensures trueEnPassantTargetSquare == old(trueEnPassantTargetSquare)
      ensures Castling() == old(Castling())
    {
      enPassantTargetPiece := piece;
    }

    /** `set_en_passant`: reading the pair back gives what was set. */
    method SetEnPassant(c: Option<Coord>, piece: Option<P.Piece>)
      modifies this
      ensures GetEnPassant() == (c, piece) && trueEnPassantTargetSquare == c
      ensures Castling() == old(Castling())
    {
      SetEnPassantCoord(c);
      SetEnPassantPiece(piece);
    }
  }
}
