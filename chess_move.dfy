// The `ChessMove` of lib/chui_core/src/chess_move.rs: what a parser has
// read from a move's text (the piece, the squares, capture, castling,
// check, promotion), which its setters fill in place, and the checks that
// relate it to a board.
//
// The struct is a class whose fields mirror the source's; `State()` takes a
// snapshot of them, and every setter is proved against a function on
// snapshots, about which the lemmas below are stated.

module ChessMove {
  import opened Errors
  import opened Coordinate
  import opened ParserTrait
  import P = Piece

  datatype Castling = King | Queen

  datatype Check = Check | Mate

  datatype MoveType = PawnMove | PawnCapture | PieceMove | PieceCapture | Castle

  /** The fields of a `ChessMove`. File and rank indices are `NonMaxU8`
      values the setters only ever fill with 0..7. */
  datatype MoveState = MoveState(
    toMove: P.Color,
    fromCoord: Option<Coord>,
    fromFile: Option<Index>,
    fromRank: Option<Index>,
    fromPiece: Option<P.Piece>,
    toCoord: Option<Coord>,
    toFile: Option<Index>,
    toRank: Option<Index>,
    toPiece: Option<P.Piece>,
    check: Option<Check>,
    promotion: Option<P.Piece>,
    castling: Option<Castling>,
    enPassant: Option<Coord>,
    moveType: Option<MoveType>,
    inputMove: string,
    isParsed: bool,
    validationErrors: seq<ChuiError>)
  {
    predicate IsWhiteMove() { toMove == P.White }
    predicate IsBlackMove() { toMove == P.Black }
    predicate IsPawnMove() { moveType == Some(PawnMove) }
    predicate IsPawnCapture() { moveType == Some(PawnCapture) }
    predicate IsPieceMove() { moveType == Some(PieceMove) }
    predicate IsPieceCapture() { moveType == Some(PieceCapture) }
    /** `is_castle` and `is_castling`: both look at `castling`, not at the move type. */
    predicate IsCastling() { castling.Some? }
    predicate IsCheck() { check == Some(Check) }
    predicate IsCheckMate() { check == Some(Mate) }
    predicate IsCastlingKing() { castling == Some(King) }
    predicate IsCastlingQueen() { castling == Some(Queen) }
  }

  /** `ChessMove::new`: the default move with the given side to move. */
  function Fresh(toMove: P.Color): (m: MoveState)
    ensures m.toMove == toMove && m.inputMove == [] && !m.isParsed && m.validationErrors == []
    ensures m.fromCoord.None? && m.toCoord.None? && m.fromPiece.None? && m.moveType.None?
    ensures !m.IsCastling() && !m.IsCheck() && !m.IsCheckMate() && m.enPassant.None?
  {
    MoveState(toMove, None, None, None, None, None, None, None, None, None, None, None, None, None, "", false, [])
  }

  /** The king `Piece::white_king(E1)` builds. */
  const WHITE_KING_E1: P.Piece := P.New(P.King, P.White, Coord(4, 0))

  /** The pawn `Piece::try_from("P")` builds: a white pawn on a2. */
  const WHITE_PAWN_A2: P.Piece := P.New(P.Pawn, P.White, Coord(0, 1))

  /** The `unwrap`s of `set_castling_*` and `set_pawn_move` never panic. */
  lemma DefaultPiecesBuild()
    ensures P.NewAt(P.King, P.White, ('e', 1)) == Ok(WHITE_KING_E1)
    ensures P.TryFromStr("P") == Ok(WHITE_PAWN_A2)
  {
    assert P.ParseSymbol("P"[0]) == Some((P.Pawn, P.White));
    assert P.ParsedSquare(P.Pawn, P.White) == ('a', 2);
  }

  // ----- setters, on snapshots -----

  /** `set_piece`: the piece, and a pawn move or a piece move by its kind. */
  function WithPiece(m: MoveState, p: P.Piece): (r: MoveState)
  {
    m.(fromPiece := Some(p), moveType := Some(if p.kind == P.Pawn then PawnMove else PieceMove))
  }

  /** `set_color`: the moving piece and the promotion piece, where present,
      take the colour. */
  function Recolor(m: MoveState, c: P.Color): (r: MoveState)
  {
    m.(fromPiece := if m.fromPiece.Some? then Some(P.SetColor(m.fromPiece.value, c)) else None,
       promotion := if m.promotion.Some? then Some(P.SetColor(m.promotion.value, c)) else None)
  }

  /** `set_castling_king` / `set_castling_queen`: the side, the white king
      on e1 as the moving piece, and the move type `Castle`. */
  function Castled(m: MoveState, side: Castling): (r: MoveState)
  {
    WithPiece(m.(castling := Some(side)), WHITE_KING_E1).(moveType := Some(Castle))
  }

  /** The capture a move type turns into: a pawn move into a pawn capture,
      a piece move into a piece capture; any other type has none. */
  function CaptureType(t: Option<MoveType>): (r: Result<MoveType>)
    ensures r.Ok? <==> t == Some(PawnMove) || t == Some(PieceMove)
    ensures r.Ok? ==> (t == Some(PawnMove) <==> r.value == PawnCapture)
    ensures r.Ok? ==> r.value == PawnCapture || r.value == PieceCapture
    ensures r.Err? ==> r.error == InvalidMove
  {
    match t
    case Some(PawnMove) => Ok(PawnCapture)
    case Some(PieceMove) => Ok(PieceCapture)
    case _ => Err(InvalidMove)
  }

  /** `set_capture`: a pawn or piece move becomes the matching capture;
      any other move type is refused and nothing changes. */
  function Capture(m: MoveState): (r: (MoveState, Result<()>))
  {
    match CaptureType(m.moveType)
    case Ok(t) => (m.(moveType := Some(t)), Ok(()))
    case Err(e) => (m, Err(e))
  }

  /** The file index of a file letter, for `set_from_coord_file` and
      `set_to_coord_file`. */
  function ParseFile(file: char): (r: Result<Index>)
    ensures r.Ok? <==> 'a' <= file <= 'h'
    ensures r.Ok? ==> FileChar(r.value) == file
    ensures r.Err? ==> r.error == InvalidFile
  {
    match MatchFileToIndex(file)
    case Some(i) => Ok(i)
    case None => Err(InvalidFile)
  }

  /** The rank index of a rank digit, for `set_from_coord_rank` and
      `set_to_coord_rank`. */
  function ParseRank(rank: char): (r: Result<Index>)
    ensures r.Ok? <==> '1' <= rank <= '8'
    ensures r.Ok? ==> rank as int == '1' as int + r.value
    ensures r.Err? ==> r.error == InvalidRank
  {
    match MatchRankToIndex(rank)
    case Some(i) => Ok(i)
    case None => Err(InvalidRank)
  }

  // ----- en passant -----

  /** The square beside `to` on the given side, if it is on the board.
      On the a-file `get_file() - 1` underflows the byte: a debug build
      panics, and a release build wraps to 255, which `Coord::try_from`
      refuses. This is the release reading. */
  function Beside(to: Coord, delta: int): (r: Option<Coord>)
    ensures r.Some? <==> 0 <= to.file + delta < 8
    ensures r.Some? ==> r.value.file == to.file + delta && r.value.rank == to.rank
  {
    if 0 <= to.file + delta < 8 then Some(Coord(to.file + delta, to.rank)) else None
  }

  /** The board's piece at an optional square. */
  function PieceAt(position: map<Coord, P.Piece>, c: Option<Coord>): Option<P.Piece>
  {
    if c.Some? && c.value in position then Some(position[c.value]) else None
  }

  /** A pawn of the other side: a piece that could capture en passant. */
  predicate Enables(p: Option<P.Piece>, toMove: P.Color)
  {
    p.Some? && p.value.kind == P.Pawn && p.value.color != toMove
  }

  /** `set_en_passant` against a position given as its occupied squares. */
  function EnPassant(m: MoveState, position: map<Coord, P.Piece>): (r: (MoveState, Result<()>))
  {
    var fromRank := if m.toMove == P.White then 1 else 6;
    var toRank := if m.toMove == P.White then 3 else 4;
    var direction := if m.toMove == P.White then -1 else 1;
    if !m.IsPawnMove() then (m, Err(InvalidEnPassant))
    else if m.fromCoord.None? || m.toCoord.None? then (m, Err(InvalidEnPassant))
    else
      var from := m.fromCoord.value;
      var to := m.toCoord.value;
      if from.file != to.file then (m, Err(InvalidEnPassant))
      else if !(from.rank == fromRank && to.rank == toRank) then (m, Err(InvalidEnPassant))
      else if Enables(PieceAt(position, Beside(to, -1)), m.toMove)
           || Enables(PieceAt(position, Beside(to, 1)), m.toMove) then
        var target := if 0 <= to.rank + direction < 8 then Some(Coord(to.file, to.rank + direction)) else None;
        if target.None? then (m.(enPassant := None), Err(Unknown))
        else (m.(enPassant := target), Ok(()))
      else (m, Err(InvalidEnPassant))
  }

  /** A two-square pawn advance of the side to move, from its second rank
      to its fourth, on one file. */
  predicate DoubleStep(m: MoveState)
  {
    m.IsPawnMove() && m.fromCoord.Some? && m.toCoord.Some?
    && m.fromCoord.value.file == m.toCoord.value.file
    && (if m.toMove == P.White then m.fromCoord.value.rank == 1 && m.toCoord.value.rank == 3
        else m.fromCoord.value.rank == 6 && m.toCoord.value.rank == 4)
  }

  /** An en passant square is recorded exactly for a double step with an
      enemy pawn beside its target; the square is the one passed over, and
      a refusal changes nothing. */
  lemma EnPassantIff(m: MoveState, position: map<Coord, P.Piece>)
    ensures var r := EnPassant(m, position);
      r.1.Ok? <==> DoubleStep(m) && (Enables(PieceAt(position, Beside(m.toCoord.value, -1)), m.toMove)
                                     || Enables(PieceAt(position, Beside(m.toCoord.value, 1)), m.toMove))
    ensures var r := EnPassant(m, position);
      r.1.Ok? ==> r.0 == m.(enPassant := r.0.enPassant) && r.0.enPassant.Some?
                  && r.0.enPassant.value.file == m.fromCoord.value.file
                  && 2 * r.0.enPassant.value.rank == m.fromCoord.value.rank + m.toCoord.value.rank
    ensures var r := EnPassant(m, position);
      r.1.Err? ==> r.0 == m && r.1 == Err(InvalidEnPassant)
  {
  }

  /** The position of lib/chui_core/src/board.rs keeps no pieces, so on
      it no move ever sets an en passant square. */
  lemma EnPassantNeverOnEmptyPosition(m: MoveState)
    ensures EnPassant(m, map[]).1 == Err(InvalidEnPassant)
    ensures EnPassant(m, map[]).0 == m
  {
  }

  // ----- validation -----

  /** `validate_move_for_board`; `moveCoords` are the squares the moving
      piece reaches on the board. Every path is an error: the early ones
      leave the move alone, the last one resets it. */
  function Validate(m: MoveState, moveCoords: seq<Coord>): (r: (MoveState, Result<()>))
  {
    if m.toCoord.None? then (m, Err(InvalidMove))
    else if !(m.fromCoord.Some? || (m.fromPiece.Some? && m.moveType.Some?)) then (m, Err(InvalidMove))
    else if m.fromPiece.Some? && m.fromCoord.None? && m.fromPiece.value.color != m.toMove then (m, Err(InvalidMove))
    else if m.fromPiece.Some? && m.toCoord.value !in moveCoords then (m, Err(InvalidMove))
    else Invalidated(m)
  }

  /** `invalidate`: back to a new move for the same side, and an error. */
  function Invalidated(m: MoveState): (r: (MoveState, Result<()>))
    ensures r.0 == Fresh(m.toMove) && r.1 == Err(InvalidMove)
  {
    (Fresh(m.toMove), Err(InvalidMove))
  }

  /** Validation never accepts a move. It resets the move exactly when it
      has a target, a source square or a typed piece, a piece of the side
      to move (when no source square says otherwise) and a target the piece
      reaches; otherwise the move is left as it was. */
  lemma ValidateAlwaysRefuses(m: MoveState, moveCoords: seq<Coord>)
    ensures Validate(m, moveCoords).1 == Err(InvalidMove)
    ensures var passes := m.toCoord.Some?
                          && (m.fromCoord.Some? || (m.fromPiece.Some? && m.moveType.Some?))
                          && (m.fromPiece.Some? ==> (m.fromCoord.Some? || m.fromPiece.value.color == m.toMove)
                                                    && m.toCoord.value in moveCoords);
            Validate(m, moveCoords).0 == (if passes then Fresh(m.toMove) else m)
  {
  }

  // ----- move text -----

  function Verb(t: MoveType): string
  {
    match t
    case PawnMove | PieceMove => "moves to"
    case PawnCapture | PieceCapture => "captures on"
    case Castle => "castles"
  }

  /** The text after the target square: promotion, then check or mate. */
  function Suffix(m: MoveState): string
  {
    (if m.promotion.Some? then " promotes to " + P.Text(m.promotion.value) else "")
    + (if m.IsCheck() then " check" else if m.IsCheckMate() then " check mate" else "")
  }

  /** `get_move_text` with the guard in front of the target square given:
      "<piece> <verb>", then "King side"/"Queen side" for castling, or the
      source square and the target square. */
  function Describe(m: MoveState, leadTo: bool): string
    requires m.fromPiece.Some? && m.moveType.Some?
  {
    if m.IsCastlingKing() then Head(m) + " King side"
    else if m.IsCastlingQueen() then Head(m) + " Queen side"
    else Head(m) + Squares(m, leadTo) + Suffix(m)
  }

  /** "<colour> <kind> <verb>". */
  function Head(m: MoveState): string
    requires m.fromPiece.Some? && m.moveType.Some?
  {
    P.Text(m.fromPiece.value) + " " + Verb(m.moveType.value)
  }

  /** " from <source>", then " to " (or " " for a capture without a
      source) when `leadTo` holds, then the target. */
  function Squares(m: MoveState, leadTo: bool): string
    requires m.moveType.Some?
  {
    var isCapture := m.moveType.value == PawnCapture || m.moveType.value == PieceCapture;
    var isFrom := m.fromCoord.Some?;
    var fromPart := if isFrom then " from " + ToString(m.fromCoord.value) else "";
    var lead := if leadTo then (if isCapture && !isFrom then " " else " to ") else "";
    var toPart := if m.toCoord.Some? then ToString(m.toCoord.value) else "";
    fromPart + lead + toPart
  }

  /** The (file letter, 1-based rank) of an optional square, ('-', 9) for none. */
  function CharU8Or(c: Option<Coord>): (r: (char, nat))
  {
    if c.Some? then ToCharU8Coord(c.value) else ('-', 9)
  }

  /** `get_move_text` as written: the " to " in front of the target is
      written when there is a target file or a SOURCE rank. */
  function MoveTextAsWritten(m: MoveState): string
  {
    if m.fromPiece.None? || m.moveType.None? then ""
    else Describe(m, CharU8Or(m.toCoord).0 != '-' || CharU8Or(m.fromCoord).1 <= 8)
  }

  /** `get_move_text` as evidently intended: the " to " is written when
      there is a target file or a target rank. */
  function MoveText(m: MoveState): string
  {
    if m.fromPiece.None? || m.moveType.None? then ""
    else Describe(m, CharU8Or(m.toCoord).0 != '-' || CharU8Or(m.toCoord).1 <= 8)
  }

  /** The text is empty exactly when the piece or the move type is missing. */
  lemma MoveTextEmpty(m: MoveState)
    ensures MoveText(m) == [] <==> m.fromPiece.None? || m.moveType.None?
  {
    if m.fromPiece.Some? && m.moveType.Some? {
      assert |P.Text(m.fromPiece.value)| > 0 by {
        assert |m.fromPiece.value.color.Name()| > 0;
      }
    }
  }

  /** The two readings differ only for a move with a source square and no
      target square. */
  lemma MoveTextAgreement(m: MoveState)
    ensures m.toCoord.Some? || m.fromCoord.None? ==> MoveTextAsWritten(m) == MoveText(m)
  {
  }

  /** A castling move reads "<piece> castles King side" or "... Queen side". */
  lemma MoveTextCastling(m: MoveState, side: Castling)
    ensures MoveText(Castled(m, side))
            == P.Text(WHITE_KING_E1) + " castles" + (if side == King then " King side" else " Queen side")
  {
  }

  /** A plain move with only a source square: as written it ends in a
      dangling " to ". */
  lemma DanglingTo(m: MoveState)
    requires m.fromPiece.Some? && m.moveType.Some? && !m.IsCastling()
    requires m.fromCoord.Some? && m.toCoord.None?
    requires m.promotion.None? && m.check.None?
    ensures MoveTextAsWritten(m) == Head(m) + " from " + ToString(m.fromCoord.value) + " to "
    ensures MoveText(m) == Head(m) + " from " + ToString(m.fromCoord.value)
  {
    assert Suffix(m) == "";
    DanglingToAsWritten(m);
    FromOnlyText(m);
  }

  lemma DanglingToAsWritten(m: MoveState)
    requires m.fromPiece.Some? && m.moveType.Some? && !m.IsCastling()
    requires m.fromCoord.Some? && m.toCoord.None? && Suffix(m) == ""
    ensures MoveTextAsWritten(m) == Head(m) + " from " + ToString(m.fromCoord.value) + " to "
  {
    assert CharU8Or(m.fromCoord).1 <= 8;
    var fromPart := " from " + ToString(m.fromCoord.value);
    assert Squares(m, true) == fromPart + " to " + "";
  }

  lemma FromOnlyText(m: MoveState)
    requires m.fromPiece.Some? && m.moveType.Some? && !m.IsCastling()
    requires m.fromCoord.Some? && m.toCoord.None? && Suffix(m) == ""
    ensures MoveText(m) == Head(m) + " from " + ToString(m.fromCoord.value)
  {
    assert CharU8Or(m.toCoord) == ('-', 9);
    var fromPart := " from " + ToString(m.fromCoord.value);
    assert Squares(m, false) == fromPart + "" + "";
  }

  /** A capture given only by its target reads "<piece> captures on <target>". */
  lemma CaptureWithoutSource(m: MoveState)
    requires m.fromPiece.Some? && m.moveType.Some? && !m.IsCastling()
    requires m.moveType.value == PawnCapture || m.moveType.value == PieceCapture
    requires m.fromCoord.None? && m.toCoord.Some?
    requires m.promotion.None? && m.check.None?
    ensures MoveText(m) == MoveTextAsWritten(m) == Head(m) + " " + ToString(m.toCoord.value)
  {
    assert Suffix(m) == "";
    assert Squares(m, true) == "" + " " + ToString(m.toCoord.value);
  }

  // ----- the spec functions' own properties -----

  /** A capture can be set at most once: it succeeds exactly on a pawn or
      piece move, the result is the matching capture, and setting it again
      is refused. */
  lemma CaptureOnce(m: MoveState)
    ensures Capture(m).1.Ok? <==> m.IsPawnMove() || m.IsPieceMove()
    ensures Capture(m).1.Ok? ==> (m.IsPawnMove() ==> Capture(m).0.IsPawnCapture())
                                 && (m.IsPieceMove() ==> Capture(m).0.IsPieceCapture())
    ensures Capture(m).1.Err? ==> Capture(m).0 == m && Capture(m).1 == Err(InvalidMove)
    ensures Capture(m).1.Ok? ==> Capture(Capture(m).0).1 == Err(InvalidMove)
  {
  }

  /** Recolouring sets both pieces' colour, keeps everything else, and
      a second recolouring with the same colour changes nothing. */
  lemma RecolorSets(m: MoveState, c: P.Color)
    ensures Recolor(m, c).fromPiece.Some? <==> m.fromPiece.Some?
    ensures Recolor(m, c).fromPiece.Some? ==> Recolor(m, c).fromPiece.value.color == c
                                              && Recolor(m, c).fromPiece.value.kind == m.fromPiece.value.kind
    ensures Recolor(m, c).promotion.Some? ==> Recolor(m, c).promotion.value.color == c
    ensures Recolor(m, c) == m.(fromPiece := Recolor(m, c).fromPiece, promotion := Recolor(m, c).promotion)
    ensures Recolor(Recolor(m, c), c) == Recolor(m, c)
  {
  }

  /** Setting the piece makes a pawn move exactly for a pawn. */
  lemma WithPieceKind(m: MoveState, p: P.Piece)
    ensures WithPiece(m, p).IsPawnMove() <==> p.kind == P.Pawn
    ensures WithPiece(m, p).IsPieceMove() <==> p.kind != P.Pawn
  {
  }

  /** Castling is the king's move, of move type `Castle`, on one side only;
      a castling move can never be turned into a capture. */
  lemma CastledShape(m: MoveState, side: Castling)
    ensures var r := Castled(m, side);
      r.IsCastling() && (r.IsCastlingKing() <==> side == King) && (r.IsCastlingQueen() <==> side == Queen)
      && r.moveType == Some(Castle) && r.fromPiece == Some(WHITE_KING_E1)
    ensures Capture(Castled(m, side)).1 == Err(InvalidMove)
  {
  }

  /** Check and mate exclude each other; the last one set wins. */
  lemma CheckExclusive(m: MoveState)
    ensures !(m.IsCheck() && m.IsCheckMate())
    ensures m.(check := Some(Mate)).IsCheckMate() && !m.(check := Some(Mate)).IsCheck()
    ensures m.(check := Some(Check)).IsCheck() && !m.(check := Some(Check)).IsCheckMate()
  {
  }

  // ----- the struct -----

  class ChessMove {
    var toMove: P.Color
    var fromCoord: Option<Coord>
    var fromFile: Option<Index>
    var fromRank: Option<Index>
    var fromPiece: Option<P.Piece>
    var toCoord: Option<Coord>
    var toFile: Option<Index>
    var toRank: Option<Index>
    var toPiece: Option<P.Piece>
    var check: Option<Check>
    var promotion: Option<P.Piece>
    var castling: Option<Castling>
    var enPassant: Option<Coord>
    var moveType: Option<MoveType>
    var inputMove: string
    var isParsed: bool
    var validationErrors: seq<ChuiError>

    function State(): MoveState
      reads this
    {
      MoveState(toMove, fromCoord, fromFile, fromRank, fromPiece, toCoord, toFile, toRank, toPiece,
                check, promotion, castling, enPassant, moveType, inputMove, isParsed, validationErrors)
    }

    /** `ChessMove::new`. */
    constructor (toMove: P.Color)
      ensures State() == Fresh(toMove)
    {
      this.toMove := toMove;
      fromCoord, fromFile, fromRank, fromPiece := None, None, None, None;
      toCoord, toFile, toRank, toPiece := None, None, None, None;
      check, promotion, castling, enPassant, moveType := None, None, None, None, None;
      inputMove, isParsed, validationErrors := "", false, [];
    }

    method SetInputMove(theMove: string)
      modifies this
      ensures State() == old(State()).(inputMove := theMove)
    {
      inputMove := theMove;
    }

    method SetPiece(piece: P.Piece)
      modifies this
      ensures State() == WithPiece(old(State()), piece)
    {
      fromPiece := Some(piece);
      if piece.kind == P.Pawn {
        SetMoveType(PawnMove);
      } else {
        SetMoveType(PieceMove);
      }
    }

    method SetMoveType(t: MoveType)
      modifies this
      ensures State() == old(State()).(moveType := Some(t))
    {
      moveType := Some(t);
    }

    method SetColor(color: P.Color)
      modifies this
      ensures State() == Recolor(old(State()), color)
    {
      if fromPiece.Some? {
        fromPiece := Some(P.SetColor(fromPiece.value, color));
      }
      if promotion.Some? {
        promotion := Some(P.SetColor(promotion.value, color));
      }
    }

    method SetCastlingKing()
      modifies this
      ensures State() == Castled(old(State()), King)
    {
      castling := Some(King);
      SetPiece(WHITE_KING_E1);
      SetMoveType(Castle);
    }

    method SetCastlingQueen()
      modifies this
      ensures State() == Castled(old(State()), Queen)
    {
      castling := Some(Queen);
      SetPiece(WHITE_KING_E1);
      SetMoveType(Castle);
    }

    method SetPawnMove()
      modifies this
      ensures State() == WithPiece(old(State()), WHITE_PAWN_A2)
    {
      SetPiece(WHITE_PAWN_A2);
      SetMoveType(PawnMove);
    }

    /** `set_piece_move`: the move type is `PieceMove` whatever the kind. */
    method SetPieceMove(piece: P.Piece)
      modifies this
      ensures State() == WithPiece(old(State()), piece).(moveType := Some(PieceMove))
    {
      SetPiece(piece);
      SetMoveType(PieceMove);
    }

    method SetCapture() returns (r: Result<()>)
      modifies this
      ensures (State(), r) == Capture(old(State()))
    {
      if moveType == Some(PawnMove) {
        moveType := Some(PawnCapture);
      } else if moveType == Some(PieceMove) {
        moveType := Some(PieceCapture);
      } else {
        return Err(InvalidMove);
      }
      return Ok(());
    }

    method SetCheck()
      modifies this
      ensures State() == old(State()).(check := Some(Check))
    {
      check := Some(Check);
    }

    method SetCheckMate()
      modifies this
      ensures State() == old(State()).(check := Some(Mate))
    {
      check := Some(Mate);
    }

    method SetPromotion(piece: P.Piece)
      modifies this
      ensures State() == old(State()).(promotion := Some(piece))
    {
      promotion := Some(piece);
    }

    method SetFromCoord(coord: Option<Coord>)
      modifies this
      ensures State() == old(State()).(fromCoord := coord)
    {
      fromCoord := coord;
    }

    method SetToCoord(coord: Option<Coord>)
      modifies this
      ensures State() == old(State()).(toCoord := coord)
    {
      toCoord := coord;
    }

    method SetFromCoordFile(file: char) returns (r: Result<()>)
      modifies this
      ensures ParseFile(file).Ok? ==> r == Ok(()) && State() == old(State()).(fromFile := Some(ParseFile(file).value))
      ensures ParseFile(file).Err? ==> r == Err(InvalidFile) && State() == old(State())
    {
      var idx := MatchFileToIndex(file);
      if idx.Some? {
        fromFile := Some(idx.value);
        return Ok(());
      }
      return Err(InvalidFile);
    }

    method SetFromCoordRank(rank: char) returns (r: Result<()>)
      modifies this
      ensures ParseRank(rank).Ok? ==> r == Ok(()) && State() == old(State()).(fromRank := Some(ParseRank(rank).value))
      ensures ParseRank(rank).Err? ==> r == Err(InvalidRank) && State() == old(State())
    {
      var idx := MatchRankToIndex(rank);
      if idx.Some? {
        fromRank := Some(idx.value);
        return Ok(());
      }
      return Err(InvalidRank);
    }

    method SetToCoordFile(file: char) returns (r: Result<()>)
      modifies this
      ensures ParseFile(file).Ok? ==> r == Ok(()) && State() == old(State()).(toFile := Some(ParseFile(file).value))
      ensures ParseFile(file).Err? ==> r == Err(InvalidFile) && State() == old(State())
    {
      var idx := MatchFileToIndex(file);
      if idx.Some? {
        toFile := Some(idx.value);
        return Ok(());
      }
      return Err(InvalidFile);
    }

    method SetToCoordRank(rank: char) returns (r: Result<()>)
      modifies this
      ensures ParseRank(rank).Ok? ==> r == Ok(()) && State() == old(State()).(toRank := Some(ParseRank(rank).value))
      ensures ParseRank(rank).Err? ==> r == Err(InvalidRank) && State() == old(State())
    {
      var idx := MatchRankToIndex(rank);
      if idx.Some? {
        toRank := Some(idx.value);
        return Ok(());
      }
      return Err(InvalidRank);
    }

    /** `set_en_passant`, reading the board's position through `position`. */
    method SetEnPassant(position: map<Coord, P.Piece>) returns (r: Result<()>)
      modifies this
      ensures (State(), r) == EnPassant(old(State()), position)
    {
      var fromRankIdx := if toMove == P.White then 1 else 6;
      var toRankIdx := if toMove == P.White then 3 else 4;
      var direction := if toMove == P.White then -1 else 1;
      if moveType != Some(PawnMove) {
        return Err(InvalidEnPassant);
      }
      if fromCoord.None? || toCoord.None? {
        return Err(InvalidEnPassant);
      }
      var from, to := fromCoord.value, toCoord.value;
      if from.file != to.file {
        return Err(InvalidEnPassant);
      }
      if !(from.rank == fromRankIdx && to.rank == toRankIdx) {
        return Err(InvalidEnPassant);
      }
      var pawn1 := PieceAt(position, Beside(to, -1));
      var pawn2 := PieceAt(position, Beside(to, 1));
      if Enables(pawn1, toMove) || Enables(pawn2, toMove) {
        enPassant := if 0 <= to.rank + direction < 8 then Some(Coord(to.file, to.rank + direction)) else None;
      } else {
        return Err(InvalidEnPassant);
      }
      if enPassant.None? {
        return Err(Unknown);
      }
      return Ok(());
    }

    /** `process_move`: the pieces take the colour of the side to move of
        the game. */
    method ProcessMove(gameToMove: P.Color) returns (r: Result<()>)
      modifies this
      ensures State() == Recolor(old(State()), gameToMove) && r == Ok(())
    {
      SetColor(gameToMove);
      return Ok(());
    }

    /** `validate_move_for_board`; `moveCoords` are the squares the moving
        piece reaches on the board. */
    method ValidateMoveForBoard(moveCoords: seq<Coord>) returns (r: Result<()>)
      modifies this
      ensures (State(), r) == Validate(old(State()), moveCoords)
    {
      if toCoord.None? {
        return Err(InvalidMove);
      }
      if !(fromCoord.Some? || (fromPiece.Some? && moveType.Some?)) {
        return Err(InvalidMove);
      }
      if fromPiece.Some? && fromCoord.None? && fromPiece.value.color != toMove {
        return Err(InvalidMove);
      }
      if fromPiece.Some? && toCoord.value !in moveCoords {
        return Err(InvalidMove);
      }
      r := Invalidate();
    }

    // The reset of `invalidate`, a few fields at a time.

    method ClearSource()
      modifies this
      ensures State() == old(State()).(fromCoord := None, fromFile := None, fromRank := None, fromPiece := None)
    {
      fromCoord, fromFile, fromRank, fromPiece := None, None, None, None;
    }

    method ClearTarget()
      modifies this
      ensures State() == old(State()).(toCoord := None, toFile := None, toRank := None, toPiece := None)
    {
      toCoord, toFile, toRank, toPiece := None, None, None, None;
    }

    method ClearMarks()
      modifies this
      ensures State() == old(State()).(check := None, promotion := None, castling := None)
    {
      check, promotion, castling := None, None, None;
    }

    method ClearInput()
      modifies this
      ensures State() == old(State()).(enPassant := None, moveType := None, inputMove := "",
                                       isParsed := false, validationErrors := [])
    {
      enPassant, moveType := None, None;
      ClearText();
    }

    method ClearText()
      modifies this
      ensures State() == old(State()).(inputMove := "", isParsed := false, validationErrors := [])
    {
      inputMove, isParsed, validationErrors := "", false, [];
    }

    method Invalidate() returns (r: Result<()>)
      modifies this
      ensures State() == Fresh(old(toMove)) && r == Err(InvalidMove)
    {
      ClearSource();
      ClearTarget();
      ClearMarks();
      ClearInput();
      return Err(InvalidMove);
    }
  }
}
