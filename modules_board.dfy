// The 8x8 `Board` class of lib/chui_core/src/modules/board.rs: an 8x8
// array of cells indexed [rank][file], four castling flags and the en passant
// fields, all updated in place. Its methods are proved against the rules of
// board_rules.dfy.

module ModulesBoard {
  import opened Errors
  import opened Coordinate
  import P = Piece
  import opened Geometry
  import opened BoardRules

  /** The `pieces_can_move` loop of `apply_move`: the pieces, in order,
      whose move list contains the target square. */
  method PiecesCanMove(st: State, pieces: seq<P.Piece>, to: Coord, depth: nat) returns (canMove: seq<P.Piece>)
    ensures canMove == Reaching(st, pieces, to, depth)
  {
    canMove := [];
    for k := 0 to |pieces|
      invariant canMove == Reaching(st, pieces[..k], to, depth)
    {
      assert pieces[..k + 1][..k] == pieces[..k];
      if to in MoveCoords(st, pieces[k], depth).coords {
        canMove := canMove + [pieces[k]];
      }
    }
    assert pieces[..|pieces|] == pieces;
  }

  /** The 8x8 board, updated in place. */
  class Board {
    var board: array2<Option<P.Piece>>
    var whiteCanCastleKingside: bool
    var whiteCanCastleQueenside: bool
    var blackCanCastleKingside: bool
    var blackCanCastleQueenside: bool
    var enPassantTargetSquare: Option<Coord>
    var trueEnpassantTargetSquare: Option<Coord>
    var enPassantTargetPiece: Option<P.Piece>

    /** The cells, rank by rank: cell `8 * rank + file` mirrors `board[rank, file]`. */
    ghost var cells: Squares

    /** The array is 8 ranks of 8 files, and `cells` is its rank-by-rank view. */
    ghost predicate Valid()
      reads this, board
    {
      board.Length0 == 8 && board.Length1 == 8
      && forall r, f | 0 <= r < 8 && 0 <= f < 8 :: board[r, f] == cells[8 * r + f]
    }

    /** The castling flags and the en passant fields: everything but the cells. */
    function Flags(): (bool, bool, bool, bool, Option<Coord>, Option<Coord>, Option<P.Piece>)
      reads this
    {
      (whiteCanCastleKingside, whiteCanCastleQueenside, blackCanCastleKingside,
       blackCanCastleQueenside, enPassantTargetSquare, trueEnpassantTargetSquare, enPassantTargetPiece)
    }

    ghost function Snapshot(): State
      reads this
    {
      State(cells, whiteCanCastleKingside, whiteCanCastleQueenside,
            blackCanCastleKingside, blackCanCastleQueenside, enPassantTargetSquare)
    }

    /** `Board::new`. */
    constructor (variant: ChessVariant)
      ensures Valid() && fresh(board)
      ensures Snapshot() == InitialState(variant)
      ensures trueEnpassantTargetSquare.None? && enPassantTargetPiece.None?
    {
      var init := InitialSquares(variant);
      board := new Option<P.Piece>[8, 8]((r: nat, f: nat) requires r < 8 && f < 8 => init[8 * r + f]);
      whiteCanCastleKingside := true;
      whiteCanCastleQueenside := true;
      blackCanCastleKingside := true;
      blackCanCastleQueenside := true;
      enPassantTargetSquare := None;
      trueEnpassantTargetSquare := None;
      enPassantTargetPiece := None;
      cells := init;
    }

    /** `get_piece`. */
    function GetPiece(c: Coord): (r: Cell)
      reads this, board
      requires Valid()
      ensures r == At(cells, c)
    {
      board[c.rank, c.file]
    }

    /** The board read out rank by rank, as `apply_move` sees it. */
    method Contents() returns (s: Squares)
      requires Valid()
      ensures s == cells
    {
      var acc: seq<Cell> := [];
      for r := 0 to 8
        invariant |acc| == 8 * r && acc == cells[..8 * r]
      {
        for f := 0 to 8
          invariant |acc| == 8 * r + f && acc == cells[..8 * r + f]
        {
          assert cells[..8 * r + f + 1] == cells[..8 * r + f] + [cells[8 * r + f]];
          acc := acc + [board[r, f]];
        }
      }
      assert cells[..64] == cells;
      s := acc;
    }

    /** `get_top_coords` .. `get_bottom_left_coords`: walk from the piece in
        direction `d` for at most `get_move_max` steps, stopping at the board's
        edge or at the first occupied square, which is kept only when it holds
        the other colour. The indices are bytes: a step below 0 wraps to 255
        and is rejected by `Coord::new` like a step past 7. */
    method DirectionCoords(p: P.Piece, d: Direction) returns (coords: seq<Coord>)
      requires Valid()
      ensures coords == Ray(cells, p, d)
    {
      ghost var whole := Ray(cells, p, d);
      var fileIdx := Step(p.coord.file, DF(d));
      var rankIdx := Step(p.coord.rank, DR(d));
      var max := P.MoveMax(p.kind);
      WalkingStart(cells, p, d);
      coords := [];
      ghost var left := max;
      for k := 0 to max
        invariant left == max - k
        invariant Walking(cells, p.color, d, fileIdx, rankIdx, left, coords, whole)
      {
        var done;
        coords, done, fileIdx, rankIdx := WalkStep(p, d, fileIdx, rankIdx, coords, left, whole);
        if done {
          return;
        }
        left := left - 1;
      }
      WalkingOff(cells, p.color, d, fileIdx, rankIdx, 0, coords, whole);
    }

    /** One pass of the walk at the byte indices `fileIdx` and `rankIdx`:
        off the board the walk is `done`; an occupied square is kept for the
        other colour and ends it; an empty square is kept and the indices
        move one step in direction `d`. */
    method WalkStep(p: P.Piece, d: Direction, fileIdx: u8, rankIdx: u8, coords: seq<Coord>,
                    ghost budget: nat, ghost whole: seq<Coord>)
      returns (walked: seq<Coord>, done: bool, nextFile: u8, nextRank: u8)
      requires Valid() && budget > 0
      requires Walking(cells, p.color, d, fileIdx, rankIdx, budget, coords, whole)
      ensures done ==> walked == whole
      ensures !done ==> Walking(cells, p.color, d, nextFile, nextRank, budget - 1, walked, whole)
    {
      var next := New(fileIdx, rankIdx);
      if next.Err? {
        WalkingOff(cells, p.color, d, fileIdx, rankIdx, budget, coords, whole);
        return coords, true, fileIdx, rankIdx;
      }
      var c := next.value;
      var occupant := GetPiece(c);
      if occupant.Some? {
        walked := coords;
        if !occupant.value.IsSameColor(p) {
          walked := walked + [c];
        }
        WalkingBlocked(cells, p.color, d, fileIdx, rankIdx, budget, coords, whole);
        return walked, true, fileIdx, rankIdx;
      }
      WalkingOpen(cells, p.color, d, fileIdx, rankIdx, budget, coords, whole);
      walked, done := coords + [c], false;
      nextFile, nextRank := Step(fileIdx, DF(d)), Step(rankIdx, DR(d));
    }

    /** `get_queen_move_coords`: the eight rays, top-left first, clockwise. */
    method QueenMoveCoords(p: P.Piece) returns (coords: seq<Coord>)
      requires Valid()
      ensures coords == QueenTargets(cells, p)
    {
      coords := ExtendRays(p, ALL_DIRECTIONS);
    }

    /** `get_rook_move_coords`: top, right, bottom, left. */
    method RookMoveCoords(p: P.Piece) returns (coords: seq<Coord>)
      requires Valid()
      ensures coords == RookTargets(cells, p)
    {
      coords := ExtendRays(p, ROOK_DIRECTIONS);
    }

    /** `get_bishop_move_coords`: top-left, top-right, bottom-right, bottom-left. */
    method BishopMoveCoords(p: P.Piece) returns (coords: seq<Coord>)
      requires Valid()
      ensures coords == BishopTargets(cells, p)
    {
      coords := ExtendRays(p, BISHOP_DIRECTIONS);
    }

    /** The `coords.extend(..)` sequence of the generators: the rays of
        `ds`, one after the other. */
    method ExtendRays(p: P.Piece, ds: seq<Direction>) returns (coords: seq<Coord>)
      requires Valid()
      ensures coords == Rays(cells, p, ds)
    {
      coords := [];
      for k := 0 to |ds|
        invariant coords == Rays(cells, p, ds[..k])
      {
        var ray := DirectionCoords(p, ds[k]);
        RaysSnoc(cells, p, ds, k);
        coords := coords + ray;
      }
      assert ds[..|ds|] == ds;
    }

    /** `put_piece`: the one cell is overwritten and its old occupant returned. */
    method PutPiece(piece: Cell, c: Coord) returns (prior: Cell)
      requires Valid()
      modifies this, board
      ensures Valid() && board == old(board) && Flags() == old(Flags())
      ensures prior == At(old(cells), c)
      ensures cells == old(cells)[ToIndex(c) := piece]
    {
      prior := board[c.rank, c.file];
      board[c.rank, c.file] := piece;
      cells := cells[ToIndex(c) := piece];
    }

    /** `take_piece`: `put_piece(None, c)`. */
    method TakePiece(c: Coord) returns (prior: Cell)
      requires Valid()
      modifies this, board
      ensures Valid() && board == old(board) && Flags() == old(Flags())
      ensures prior == At(old(cells), c)
      ensures cells == old(cells)[ToIndex(c) := None]
    {
      prior := PutPiece(None, c);
    }

    /** `replace_piece`: never an error. */
    method ReplacePiece(piece: P.Piece, to: Coord) returns (r: Result<Cell>)
      requires Valid()
      modifies this, board
      ensures Valid() && board == old(board) && Flags() == old(Flags())
      ensures r == Ok(Displaced(old(cells), piece, to))
      ensures cells == Relocated(old(cells), piece, to)
    {
      var _ := TakePiece(piece.coord);
      var moved := P.SetCoord(piece, to);
      var prior := PutPiece(Some(moved), to);
      r := Ok(prior);
    }

    /** `apply_move`, for a move with piece `piece` and target `to`: without
        a piece, or unless exactly one piece of its kind and colour reaches
        the target, the move is refused and the board is left alone;
        otherwise that piece is relocated. `depth` bounds the king recursion
        of the move generators. */
    method ApplyMove(piece: Option<P.Piece>, to: Coord, depth: nat) returns (r: Result<Cell>)
      requires Valid()
      modifies this, board
      ensures Valid() && board == old(board) && Flags() == old(Flags())
      ensures piece.None? ==> r == Err(InvalidMove) && cells == old(cells)
      ensures piece.Some? && |Candidates(old(Snapshot()), piece.value, to, depth)| != 1 ==>
        r == Err(InvalidMove) && cells == old(cells)
      ensures piece.Some? && |Candidates(old(Snapshot()), piece.value, to, depth)| == 1 ==>
        var q := Candidates(old(Snapshot()), piece.value, to, depth)[0];
        r == Ok(Displaced(old(cells), q, to)) && cells == Relocated(old(cells), q, to)
    {
      if piece.None? {
        return Err(InvalidMove);
      }
      var squares := Contents();
      var st := State(squares, whiteCanCastleKingside, whiteCanCastleQueenside,
                      blackCanCastleKingside, blackCanCastleQueenside, enPassantTargetSquare);
      var pieces := Pieces(squares, piece.value);
      var canMove := PiecesCanMove(st, pieces, to, depth);
      if |canMove| == 0 {
        r := Err(InvalidMove);
      } else if |canMove| == 1 {
        r := ReplacePiece(canMove[0], to);
      } else {
        r := Err(InvalidMove);
      }
    }

    /** `set_coords`: every piece is tagged with the square of its cell. */
    method SetCoords()
      requires Valid()
      modifies this, board
      ensures Valid() && board == old(board) && Flags() == old(Flags())
      ensures cells == Retagged(old(cells))
    {
      ghost var s0 := cells;
      for r := 0 to 8
        invariant board == old(board) && cells == s0 && Flags() == old(Flags())
        invariant forall rr, ff | 0 <= rr < 8 && 0 <= ff < 8 ::
          board[rr, ff] == if rr < r then Retag(s0[8 * rr + ff], Coord(ff, rr)) else s0[8 * rr + ff]
      {
        for f := 0 to 8
          invariant board == old(board) && cells == s0 && Flags() == old(Flags())
          invariant forall rr, ff | 0 <= rr < 8 && 0 <= ff < 8 ::
            board[rr, ff] == if rr < r || (rr == r && ff < f) then Retag(s0[8 * rr + ff], Coord(ff, rr)) else s0[8 * rr + ff]
        {
          SquareOfCell(r, f);
          match board[r, f]
          case None =>
          case Some(p) =>
            board[r, f] := Some(P.SetCoord(p, SquareOf(8 * r + f)));
        }
      }
      cells := Retagged(s0);
      forall r, f | 0 <= r < 8 && 0 <= f < 8
        ensures board[r, f] == cells[8 * r + f]
      {
        SquareOfCell(r, f);
      }
    }

    /** `get_en_passant`: the target square and the target pawn. */
    function GetEnPassant(): (Option<Coord>, Option<P.Piece>)
      reads this
    {
      (enPassantTargetSquare, enPassantTargetPiece)
    }

    /** `set_en_passant_coord`: the FEN and the X-FEN target squares both
        become `c`. */
    method SetEnPassantCoord(c: Option<Coord>)
      requires Valid()
      modifies this
      ensures Valid() && board == old(board) && cells == old(cells)
      ensures enPassantTargetSquare == c && trueEnpassantTargetSquare == c
      ensures enPassantTargetPiece == old(enPassantTargetPiece)
      ensures whiteCanCastleKingside == old(whiteCanCastleKingside) && whiteCanCastleQueenside == old(whiteCanCastleQueenside)
      ensures blackCanCastleKingside == old(blackCanCastleKingside) && blackCanCastleQueenside == old(blackCanCastleQueenside)
    {
      enPassantTargetSquare := c;
      trueEnpassantTargetSquare := c;
    }

    /** `set_en_passant_piece`. */
    method SetEnPassantPiece(piece: Option<P.Piece>)
      requires Valid()
      modifies this
      ensures Valid() && board == old(board) && cells == old(cells)
      ensures enPassantTargetPiece == piece
      ensures enPassantTargetSquare == old(enPassantTargetSquare)
      ensures trueEnpassantTargetSquare == old(trueEnpassantTargetSquare)
      ensures whiteCanCastleKingside == old(whiteCanCastleKingside) && whiteCanCastleQueenside == old(whiteCanCastleQueenside)
      ensures blackCanCastleKingside == old(blackCanCastleKingside) && blackCanCastleQueenside == old(blackCanCastleQueenside)
    {
      enPassantTargetPiece := piece;
    }

    /** `set_en_passant`: both setters; `get_en_passant` then returns the pair. */
    method SetEnPassant(c: Option<Coord>, piece: Option<P.Piece>)
      requires Valid()
      modifies this
      ensures Valid() && board == old(board) && cells == old(cells)
      ensures GetEnPassant() == (c, piece) && trueEnpassantTargetSquare == c
      ensures whiteCanCastleKingside == old(whiteCanCastleKingside) && whiteCanCastleQueenside == old(whiteCanCastleQueenside)
      ensures blackCanCastleKingside == old(blackCanCastleKingside) && blackCanCastleQueenside == old(blackCanCastleQueenside)
    {
      SetEnPassantCoord(c);
      SetEnPassantPiece(piece);
    }
  }
}
