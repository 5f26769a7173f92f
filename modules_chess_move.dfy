// The earlier `Move` of lib/chui_core/src/modules/chess_move/mod.rs: both
// squares are always present (a new move has a1 for both), check, mate,
// promotion and the castling sides are separate flags, and the move text
// always names both squares. Its `MoveType` has the same variants as the
// current one and is shared with the `ChessMove` module. Its squares are the
// `Coord` of lib/chui_core/src/coordinate.rs, whose (char, u8) conversion
// takes a 1-based rank. That file defines no (u8, u8) conversion, though
// `set_to_coord_rank` calls one; it is taken to be `Coord::new`.

module ModulesChessMove {
  import opened Errors
  import opened Text
  import opened Coordinate
  import P = Piece
  import PM = PieceMod
  import CM = ChessMove

  datatype Fields = Fields(
    fromCoord: Coord,
    toCoord: Coord,
    piece: Option<PM.Piece>,
    check: bool,
    checkMate: bool,
    promotion: bool,
    promotionPiece: Option<PM.Piece>,
    isCastling: bool,
    isCastlingKing: bool,
    isCastlingQueen: bool,
    inputMove: string,
    moveType: Option<CM.MoveType>)
  {
    predicate IsPawnMove() { moveType == Some(CM.PawnMove) }
    predicate IsPawnCapture() { moveType == Some(CM.PawnCapture) }
    predicate IsPieceMove() { moveType == Some(CM.PieceMove) }
    predicate IsPieceCapture() { moveType == Some(CM.PieceCapture) }
    predicate IsCastle() { moveType == Some(CM.Castle) }
    predicate IsCheck() { check }
    /** `is_castling`: the flag and at least one side. */
    predicate IsCastlingMove() { isCastling && (isCastlingKing || isCastlingQueen) }
    /** `is_castling_king`: the flag and the king side only. */
    predicate IsCastlingKingSide() { isCastling && isCastlingKing && !isCastlingQueen }
    /** `is_castling_queen`: the flag and the queen side only. */
    predicate IsCastlingQueenSide() { isCastling && !isCastlingKing && isCastlingQueen }
  }

  /** `Move::new` / `Default`: a1 to a1, nothing set. */
  function Default(): (m: Fields)
    ensures m.fromCoord == Zero() && m.toCoord == Zero()
    ensures m.piece.None? && m.moveType.None? && m.promotionPiece.None? && m.inputMove == []
    ensures !m.check && !m.checkMate && !m.promotion && !m.isCastling && !m.isCastlingKing && !m.isCastlingQueen
  {
    Fields(Zero(), Zero(), None, false, false, false, None, false, false, false, "", None)
  }

  /** What the setters keep: never both check and mate, never both
      castling sides. */
  predicate Consistent(m: Fields)
  {
    !(m.check && m.checkMate) && !(m.isCastlingKing && m.isCastlingQueen)
  }

  /** The square `Coord::new(6, 0)`: g1. */
  const G1: Coord := Coord(6, 0)

  // ----- setters, on snapshots -----

  function Recolor(m: Fields, c: P.Color): (r: Fields)
  {
    m.(piece := if m.piece.Some? then Some(PM.SetColor(m.piece.value, c)) else None,
       promotionPiece := if m.promotionPiece.Some? then Some(PM.SetColor(m.promotionPiece.value, c)) else None)
  }

  /** `set_castling_king` / `set_castling_queen`: the flags, a white king on
      g1 as the piece and the move type `Castle`. */
  function Castled(m: Fields, kingSide: bool): (r: Fields)
  {
    m.(isCastling := true, isCastlingKing := kingSide, isCastlingQueen := !kingSide,
       piece := Some(PM.New(P.King, P.White, G1)), moveType := Some(CM.Castle))
  }

  /** `set_pawn_move`: a white pawn on g1 and the type `PawnMove`. */
  function PawnMoved(m: Fields): (r: Fields)
  {
    m.(piece := Some(PM.New(P.Pawn, P.White, G1)), moveType := Some(CM.PawnMove))
  }

  function Capture(m: Fields): (r: (Fields, Result<()>))
  {
    match CM.CaptureType(m.moveType)
    case Ok(t) => (m.(moveType := Some(t)), Ok(()))
    case Err(e) => (m, Err(e))
  }

  /** Replaces both squares when both conversions succeed; the first error
      otherwise, with nothing changed. */
  function Relocated(m: Fields, from: Result<Coord>, to: Result<Coord>): (r: (Fields, Result<()>))
    ensures r.1.Ok? <==> from.Ok? && to.Ok?
    ensures r.1.Ok? ==> r.0 == m.(fromCoord := from.value, toCoord := to.value)
    ensures r.1.Err? ==> r.0 == m && r.1.error == (if from.Err? then from.error else to.error)
  {
    if from.Err? then (m, Err(from.error))
    else if to.Err? then (m, Err(to.error))
    else (m.(fromCoord := from.value, toCoord := to.value), Ok(()))
  }

  /** `set_to_coord_file` as written: the new target takes the given file
      letter and the target's rank INDEX, which the (char, u8) conversion
      reads as a 1-based rank; the source square takes the target's file. */
  function ToCoordFileAsWritten(m: Fields, file: char): (r: (Fields, Result<()>))
    ensures r.1.Ok? <==> 'a' as int <= CharAsU8(file) <= 'h' as int && 1 <= m.toCoord.rank
    ensures r.1.Ok? ==> r.0 == m.(fromCoord := Coord(m.toCoord.file, m.fromCoord.rank),
                                  toCoord := Coord(CharAsU8(file) - 'a' as int, m.toCoord.rank - 1))
    ensures r.1.Err? ==> r.0 == m
  {
    Relocated(m, New(m.toCoord.file, m.fromCoord.rank), TryFromCharU8(file, m.toCoord.rank))
  }

  /** `set_to_coord_file` as evidently intended: the target keeps its rank. */
  function ToCoordFile(m: Fields, file: char): (r: (Fields, Result<()>))
    ensures r.1.Ok? <==> 'a' as int <= CharAsU8(file) <= 'h' as int
    ensures r.1.Ok? ==> r.0.toCoord.rank == m.toCoord.rank
    ensures r.1.Err? ==> r == (m, Err(InvalidFile))
  {
    Relocated(m, New(m.toCoord.file, m.fromCoord.rank), TryFromCharU8(file, m.toCoord.rank + 1))
  }

  /** `set_to_coord_rank` and `set_to_index_rank`: the source takes the
      target's rank, the target the given rank index. */
  function ToRank(m: Fields, rank: u8): (r: (Fields, Result<()>))
  {
    Relocated(m, New(m.fromCoord.file, m.toCoord.rank), New(m.toCoord.file, rank))
  }

  /** `set_to_index_file`: the source becomes the old target, the target
      takes the given file index. */
  function ToIndexFile(m: Fields, file: u8): (r: (Fields, Result<()>))
  {
    Relocated(m, New(m.toCoord.file, m.toCoord.rank), New(file, m.toCoord.rank))
  }

  // ----- move text -----

  function Verb(t: CM.MoveType): string
  {
    if t.PawnMove? || t.PieceMove? then "moves"
    else if t.PawnCapture? || t.PieceCapture? then "captures"
    else "castles"
  }

  function Head(m: Fields): string
    requires m.piece.Some? && m.moveType.Some?
  {
    PM.Text(m.piece.value) + " " + Verb(m.moveType.value)
  }

  /** Promotion (when both the flag and the piece are set), then check or mate. */
  function Suffix(m: Fields): string
  {
    (if m.promotion && m.promotionPiece.Some? then " promotes to " + PM.Text(m.promotionPiece.value) else "")
    + (if m.check then " check" else if m.checkMate then " check mate" else "")
  }

  /** The letter and the rank `get_move_text` prints for a square, each only
      when its guard lets it through. */
  function SquarePart(c: Coord): string
  {
    var (file, rank) := ToCharU8Coord(c);
    (if file != '-' then [file] else "") + (if rank <= 8 then NatToString(rank) else "")
  }

  /** Whether the source square has a letter or a rank to print. */
  predicate IsFrom(c: Coord)
  {
    ToCharU8Coord(c).0 != '-' || ToCharU8Coord(c).1 <= 8
  }

  /** The word before the target square: " to ", or a bare space for a
      capture without a source square; nothing when neither the target's
      letter nor the source's rank is printed. */
  function Lead(m: Fields): string
    requires m.moveType.Some?
  {
    var isCapture := m.moveType.value == CM.PawnCapture || m.moveType.value == CM.PieceCapture;
    if ToCharU8Coord(m.toCoord).0 != '-' || ToCharU8Coord(m.fromCoord).1 <= 8 then
      (if isCapture && !IsFrom(m.fromCoord) then " " else " to ")
    else ""
  }

  /** `get_move_text`, with the guards of the source on the squares' letters
      and ranks. */
  function MoveText(m: Fields): string
  {
    if m.piece.None? || m.moveType.None? then ""
    else if m.isCastling && m.isCastlingKing then Head(m) + " King side"
    else if m.isCastling && m.isCastlingQueen then Head(m) + " Queen side"
    else
      Head(m) + (if IsFrom(m.fromCoord) then " from " else "") + SquarePart(m.fromCoord)
      + Lead(m) + SquarePart(m.toCoord) + Suffix(m)
  }

  // ----- properties -----

  /** Every setter keeps the flags consistent. */
  lemma SettersKeepConsistent(m: Fields, kingSide: bool)
    requires Consistent(m)
    ensures Consistent(Default())
    ensures Consistent(Castled(m, kingSide)) && Consistent(PawnMoved(m))
    ensures Consistent(m.(check := true, checkMate := false))
    ensures Consistent(m.(check := false, checkMate := true))
  {
  }

  /** On a consistent move, `is_castling` is exactly "king side or queen
      side", and the two sides exclude each other. */
  lemma CastlingSides(m: Fields)
    requires Consistent(m)
    ensures m.IsCastlingMove() <==> m.IsCastlingKingSide() || m.IsCastlingQueenSide()
    ensures !(m.IsCastlingKingSide() && m.IsCastlingQueenSide())
  {
  }

  /** Castling sets exactly the chosen side and cannot become a capture. */
  lemma CastledSide(m: Fields, kingSide: bool)
    ensures Castled(m, kingSide).IsCastlingKingSide() <==> kingSide
    ensures Castled(m, kingSide).IsCastlingQueenSide() <==> !kingSide
    ensures Castled(m, kingSide).IsCastle() && Capture(Castled(m, kingSide)).1 == Err(InvalidMove)
  {
  }

  /** The square guards of `get_move_text` always hold, so the text of a
      move that is not castling names both squares: "<piece> <verb> from
      <square> to <square>". */
  lemma MoveTextSquares(m: Fields)
    requires m.piece.Some? && m.moveType.Some?
    requires !(m.isCastling && (m.isCastlingKing || m.isCastlingQueen))
    ensures MoveText(m) == Head(m) + " from " + ToString(m.fromCoord) + " to " + ToString(m.toCoord) + Suffix(m)
  {
    SquareText(m.fromCoord);
    SquareText(m.toCoord);
    assert Lead(m) == " to ";
  }

  /** The guards of `get_move_text` hold on every square, and the letter and
      the rank it prints spell the square's name. */
  lemma SquareText(c: Coord)
    ensures IsFrom(c) && ToCharU8Coord(c).0 != '-' && ToCharU8Coord(c).1 <= 8
    ensures SquarePart(c) == ToString(c)
  {
  }

  /** The text is empty exactly when the piece or the move type is missing. */
  lemma MoveTextEmpty(m: Fields)
    ensures MoveText(m) == [] <==> m.piece.None? || m.moveType.None?
  {
    if m.piece.Some? && m.moveType.Some? {
      assert |Head(m)| > 0 by {
        assert |m.piece.value.color.Name()| > 0;
      }
    }
  }

  /** As written, setting the target's file also moves the target one rank
      down, and on the first rank it fails: from e4, `set_to_coord_file('d')`
      gives d3, and from e1 it reports an invalid rank. */
  lemma ToCoordFileShiftsRank(m: Fields, file: char)
    requires 'a' as int <= CharAsU8(file) <= 'h' as int
    ensures m.toCoord.rank > 0 ==>
              (ToCoordFileAsWritten(m, file).1.Ok?
               && ToCoordFileAsWritten(m, file).0.toCoord == Coord(CharAsU8(file) - 'a' as int, m.toCoord.rank - 1))
    ensures m.toCoord.rank == 0 ==> ToCoordFileAsWritten(m, file) == (m, Err(InvalidRank))
  {
  }

  /** As intended, the target takes the file and keeps its rank, for every
      file letter, and any other character changes nothing. */
  lemma ToCoordFileKeepsRank(m: Fields, file: char)
    ensures ToCoordFile(m, file).1.Ok? <==> 'a' as int <= CharAsU8(file) <= 'h' as int
    ensures ToCoordFile(m, file).1.Ok? ==>
              ToCoordFile(m, file).0 == m.(fromCoord := Coord(m.toCoord.file, m.fromCoord.rank),
                                           toCoord := Coord(CharAsU8(file) - 'a' as int, m.toCoord.rank))
    ensures ToCoordFile(m, file).1.Err? ==> ToCoordFile(m, file).0 == m
  {
  }

  /** Setting a rank index: accepted exactly for 0..7; the target keeps its
      file and the source moves onto the target's old rank. */
  lemma ToRankMoves(m: Fields, rank: u8)
    ensures ToRank(m, rank).1.Ok? <==> rank <= 7
    ensures ToRank(m, rank).1.Ok? ==> ToRank(m, rank).0.toCoord == Coord(m.toCoord.file, rank)
                                      && ToRank(m, rank).0.fromCoord == Coord(m.fromCoord.file, m.toCoord.rank)
    ensures ToRank(m, rank).1.Err? ==> ToRank(m, rank) == (m, Err(InvalidRank))
  {
  }

  /** Setting a file index: accepted exactly for 0..7; the old target
      becomes the source. */
  lemma ToIndexFileMoves(m: Fields, file: u8)
    ensures ToIndexFile(m, file).1.Ok? <==> file <= 7
    ensures ToIndexFile(m, file).1.Ok? ==> ToIndexFile(m, file).0.toCoord == Coord(file, m.toCoord.rank)
                                           && ToIndexFile(m, file).0.fromCoord == m.toCoord
    ensures ToIndexFile(m, file).1.Err? ==> ToIndexFile(m, file) == (m, Err(InvalidFile))
  {
  }

  // ----- the struct -----

  class Move {
    var fromCoord: Coord
    var toCoord: Coord
    var piece: Option<PM.Piece>
    var check: bool
    var checkMate: bool
    var promotion: bool
    var promotionPiece: Option<PM.Piece>
    var isCastling: bool
    var isCastlingKing: bool
    var isCastlingQueen: bool
    var inputMove: string
    var moveType: Option<CM.MoveType>

    function State(): Fields
      reads this
    {
      Fields(fromCoord, toCoord, piece, check, checkMate, promotion, promotionPiece,
             isCastling, isCastlingKing, isCastlingQueen, inputMove, moveType)
    }

    /** `Move::new`. */
    constructor ()
      ensures State() == Default()
    {
      fromCoord, toCoord, piece := Zero(), Zero(), None;
      check, checkMate, promotion, promotionPiece := false, false, false, None;
      isCastling, isCastlingKing, isCastlingQueen := false, false, false;
      inputMove, moveType := "", None;
    }

    method SetInputMove(theMove: string)
      modifies this
      ensures State() == old(State()).(inputMove := theMove)
    {
      inputMove := theMove;
    }

    method SetPiece(p: PM.Piece)
      modifies this
      ensures State() == old(State()).(piece := Some(p))
    {
      piece := Some(p);
    }

    method SetMoveType(t: CM.MoveType)
      modifies this
      ensures State() == old(State()).(moveType := Some(t))
    {
      moveType := Some(t);
    }

    method SetColor(color: P.Color)
      modifies this
      ensures State() == Recolor(old(State()), color)
    {
      if piece.Some? {
        piece := Some(PM.SetColor(piece.value, color));
      }
      if promotionPiece.Some? {
        promotionPiece := Some(PM.SetColor(promotionPiece.value, color));
      }
    }

    method SetCastlingKing()
      modifies this
      ensures State() == Castled(old(State()), true)
    {
      isCastling, isCastlingKing, isCastlingQueen := true, true, false;
      SetPiece(PM.New(P.King, P.White, G1));
      SetMoveType(CM.Castle);
    }

    method SetCastlingQueen()
      modifies this
      ensures State() == Castled(old(State()), false)
    {
      isCastling, isCastlingKing, isCastlingQueen := true, false, true;
      SetPiece(PM.New(P.King, P.White, G1));
      SetMoveType(CM.Castle);
    }

    method SetPawnMove()
      modifies this
      ensures State() == PawnMoved(old(State()))
    {
      SetPiece(PM.New(P.Pawn, P.White, G1));
      SetMoveType(CM.PawnMove);
    }

    method SetPieceMove(p: PM.Piece)
      modifies this
      ensures State() == old(State()).(piece := Some(p), moveType := Some(CM.PieceMove))
    {
      SetPiece(p);
      SetMoveType(CM.PieceMove);
    }

    method SetCapture() returns (r: Result<()>)
      modifies this
      ensures (State(), r) == Capture(old(State()))
    {
      if moveType == Some(CM.PawnMove) {
        moveType := Some(CM.PawnCapture);
      } else if moveType == Some(CM.PieceMove) {
        moveType := Some(CM.PieceCapture);
      } else {
        return Err(InvalidMove);
      }
      return Ok(());
    }

    method SetCheck()
      modifies this
      ensures State() == old(State()).(check := true, checkMate := false)
    {
      check, checkMate := true, false;
    }

    method SetCheckMate()
      modifies this
      ensures State() == old(State()).(check := false, checkMate := true)
    {
      check, checkMate := false, true;
    }

    method SetPromotion()
      modifies this
      ensures State() == old(State()).(promotion := true)
    {
      promotion := true;
    }

    method SetPromotionPiece(p: PM.Piece)
      modifies this
      ensures State() == old(State()).(promotion := true, promotionPiece := Some(p))
    {
      SetPromotion();
      promotionPiece := Some(p);
    }

    /** Replaces both squares when both conversions succeed. */
    method Relocate(from: Result<Coord>, to: Result<Coord>) returns (r: Result<()>)
      modifies this
      ensures (State(), r) == Relocated(old(State()), from, to)
    {
      if from.Err? {
        return Err(from.error);
      }
      if to.Err? {
        return Err(to.error);
      }
      fromCoord, toCoord := from.value, to.value;
      return Ok(());
    }

    /** `set_to_coord_file`, with the target's rank kept (see
        `ToCoordFileShiftsRank` for the code as written). */
    method SetToCoordFile(file: char) returns (r: Result<()>)
      modifies this
      ensures (State(), r) == ToCoordFile(old(State()), file)
    {
      var from := New(toCoord.file, fromCoord.rank);
      var to := TryFromCharU8(file, toCoord.rank + 1);
      r := Relocate(from, to);
    }

    method SetToCoordRank(rank: u8) returns (r: Result<()>)
      modifies this
      ensures (State(), r) == ToRank(old(State()), rank)
    {
      var from := New(fromCoord.file, toCoord.rank);
      var to := New(toCoord.file, rank);
      r := Relocate(from, to);
    }

    method SetToIndexFile(file: u8) returns (r: Result<()>)
      modifies this
      ensures (State(), r) == ToIndexFile(old(State()), file)
    {
      var from := New(toCoord.file, toCoord.rank);
      var to := New(file, toCoord.rank);
      r := Relocate(from, to);
    }

    method SetToIndexRank(rank: u8) returns (r: Result<()>)
      modifies this
      ensures (State(), r) == ToRank(old(State()), rank)
    {
      var from := New(fromCoord.file, toCoord.rank);
      var to := New(toCoord.file, rank);
      r := Relocate(from, to);
    }
  }
}
