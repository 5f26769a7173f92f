// The oldest `Board`, src/modules/board.rs, as a class: the 8x8 array of
// optional pieces updated in place by `set_coords`, `replace_piece` and
// `apply_move`, and its `while`-loop walkers, proved against the functions
// of module OldestBoardRules.

module OldestBoard {
  import opened Errors
  import P = Piece
  import opened OldestBoardRules

  /** The board: `board[rank, file]`. */
  class Board {
    var board: array2<Cell>

    /** The cells, rank by rank: cell `8 * rank + file` mirrors `board[rank, file]`. */
    ghost var cells: Cells

    /** The array is 8 ranks of 8 files, and `cells` is its rank-by-rank view. */
    ghost predicate Shaped()
      reads this, board
    {
      board.Length0 == 8 && board.Length1 == 8
      && forall r, f | 0 <= r < 8 && 0 <= f < 8 :: board[r, f] == cells[8 * r + f]
    }

    /** A shaped board whose pieces carry the indices of their own cells, as
        `set_coords` leaves them and `replace_piece` keeps them. */
    ghost predicate Valid()
      reads this, board
    {
      Shaped() && Placed(cells)
    }

    /** `Board::new(StandardChess)`: the rows of `new_standard_chess`, then
        `set_coords`; the result is the standard position. */
    constructor (variant: ChessVariant)
      ensures Valid() && fresh(board)
      ensures IsStandard(cells)
    {
      var layout := NewStandardChess();
      var rows := new Cell[8, 8]((r: nat, f: nat) requires r < 8 && f < 8 => layout[8 * r + f]);
      board := rows;
      cells := layout;
      new;
      var _ := SetCoords();
      forall r, f | 0 <= r < 8 && 0 <= f < 8
        ensures cells[8 * r + f] == StandardCell(f, r)
      {
        var i := 8 * r + f;
        assert i % 8 == f && i / 8 == r;
        NewStandardTagged(f, r);
      }
    }

    /** `get_piece`: `None` when either index is 8 or more, otherwise the
        stored cell. */
    function GetPiece(f: nat, r: nat): (c: Cell)
      requires Shaped()
      reads this, board
      ensures f >= 8 || r >= 8 ==> c.None?
      ensures f < 8 && r < 8 ==> c == cells[8 * r + f]
    {
      if f >= 8 || r >= 8 then None else board[r, f]
    }

    /** `set_coords`: every piece is tagged with the indices of its cell, and
        the result is `Ok`. */
    method SetCoords() returns (res: Result<()>)
      requires Shaped()
      modifies this, board
      ensures Valid() && board == old(board) && res == Ok(())
      ensures forall i | 0 <= i < 64 :: cells[i] == Tag(old(cells)[i], i % 8, i / 8)
    {
      ghost var s0 := cells;
      for rank := 0 to 8
        invariant Shaped() && board == old(board)
        invariant forall i | 0 <= i < 64 :: cells[i] == if i < 8 * rank then Tag(s0[i], i % 8, i / 8) else s0[i]
      {
        for file := 0 to 8
          invariant Shaped() && board == old(board)
          invariant forall i | 0 <= i < 64 :: cells[i] == if i < 8 * rank + file then Tag(s0[i], i % 8, i / 8) else s0[i]
        {
          ghost var i := 8 * rank + file;
          assert i % 8 == file && i / 8 == rank;
          board[rank, file] := Tag(board[rank, file], file, rank);
          cells := cells[i := board[rank, file]];
        }
      }
      res := Ok(());
    }

    /** `get_pieces`: the pieces of the same kind and colour as `piece`,
        rank by rank and file by file. */
    method GetPieces(piece: Piece) returns (pieces: seq<Piece>)
      requires Shaped()
      ensures pieces == PiecesUpTo(cells, piece.kind, piece.color, 64)
    {
      pieces := [];
      for rank := 0 to 8
        invariant pieces == PiecesUpTo(cells, piece.kind, piece.color, 8 * rank)
      {
        for file := 0 to 8
          invariant pieces == PiecesUpTo(cells, piece.kind, piece.color, 8 * rank + file)
        {
          var some := board[rank, file];
          if some.Some? && some.value.kind == piece.kind && some.value.color == piece.color {
            pieces := pieces + [some.value];
          }
        }
      }
    }

    /** The loop shared by the four walkers: from (f, r), step by (df, dr)
        while the loop test holds and fewer than `limit` squares are taken;
        an empty square, or any square when `ignore` is set, is collected,
        and an occupied one ends the walk. */
    method Walk(f: int, r: int, df: int, dr: int, limit: nat, ignore: bool) returns (coords: seq<Square>)
      requires Shaped()
      ensures coords == Line(cells, f, r, df, dr, limit, ignore)
    {
      ghost var whole := Line(cells, f, r, df, dr, limit, ignore);
      coords := [];
      var counter := 0;
      var fi, ri := f, r;
      while Inside(fi, ri, df, dr) && counter < limit
        invariant counter <= limit
        invariant Walking(cells, fi, ri, df, dr, limit - counter, ignore, coords, whole)
        decreases limit - counter
      {
        if !ignore && GetPiece(fi as nat, ri as nat).Some? {
          WalkingDone(cells, fi, ri, df, dr, limit - counter, ignore, coords, whole);
          return;
        }
        WalkingOpen(cells, fi, ri, df, dr, limit - counter, ignore, coords, whole);
        coords := coords + [(fi as nat, ri as nat)];
        fi, ri, counter := fi + df, ri + dr, counter + 1;
      }
      WalkingDone(cells, fi, ri, df, dr, limit - counter, ignore, coords, whole);
    }

    /** `get_top_coords`: up the file from the next rank. */
    method GetTopCoords(file: nat, rank: nat, limit: nat, ignore: bool) returns (coords: seq<Square>)
      requires Shaped()
      ensures coords == Line(cells, file, rank + 1, 0, 1, limit, ignore)
    {
      coords := Walk(file, rank + 1, 0, 1, limit, ignore);
    }

    /** `get_bottom_coords`: down the file from the rank below, with a signed
        counter. */
    method GetBottomCoords(file: nat, rank: nat, limit: nat, ignore: bool) returns (coords: seq<Square>)
      requires Shaped()
      ensures coords == Line(cells, file, rank - 1, 0, -1, limit, ignore)
    {
      coords := Walk(file, rank - 1, 0, -1, limit, ignore);
    }

    /** `get_right_coords`: a king's move first sets the limit to 2; then
        along the rank from the next file. The new limit is returned. */
    method GetRightCoords(file: nat, rank: nat, limit: nat, ignore: bool, cm: Option<Move>)
      returns (coords: seq<Square>, newLimit: nat)
      requires Shaped() && HasPiece(cm)
      ensures newLimit == LimitAfter(limit, cm)
      ensures coords == Line(cells, file + 1, rank, 1, 0, newLimit, ignore)
    {
      newLimit := limit;
      if cm.Some? && cm.value.piece.value.kind == P.King {
        newLimit := 2;
      }
      coords := Walk(file + 1, rank, 1, 0, newLimit, ignore);
    }

    /** `get_left_coords`: a king's move first sets the limit to 2; then
        along the rank from the file to the left, with a signed counter. */
    method GetLeftCoords(file: nat, rank: nat, limit: nat, ignore: bool, cm: Option<Move>)
      returns (coords: seq<Square>, newLimit: nat)
      requires Shaped() && HasPiece(cm)
      ensures newLimit == LimitAfter(limit, cm)
      ensures coords == Line(cells, file - 1, rank, -1, 0, newLimit, ignore)
    {
      newLimit := limit;
      if cm.Some? && cm.value.piece.value.kind == P.King {
        newLimit := 2;
      }
      coords := Walk(file - 1, rank, -1, 0, newLimit, ignore);
    }

    /** The `zip_*` functions: pair the walks square by square, taking the
        rank of the vertical square and the file of the horizontal one, and
        stop at the shorter walk or before the first occupied square. */
    method ZipCoords(vertical: seq<Square>, horizontal: seq<Square>) returns (coords: seq<Square>)
      requires Shaped()
      ensures coords == Zip(cells, vertical, horizontal)
    {
      ghost var whole := Zip(cells, vertical, horizontal);
      coords := [];
      assert vertical[0..] == vertical && horizontal[0..] == horizontal;
      var k := 0;
      while k < |vertical| && k < |horizontal|
        invariant k <= |vertical| && k <= |horizontal|
        invariant coords + Zip(cells, vertical[k..], horizontal[k..]) == whole
      {
        var c := (horizontal[k].0, vertical[k].1);
        ZipAt(cells, vertical, horizontal, k);
        if GetPiece(c.0, c.1).Some? {
          return;
        }
        assert coords + [c] + Zip(cells, vertical[k + 1..], horizontal[k + 1..])
            == coords + ([c] + Zip(cells, vertical[k + 1..], horizontal[k + 1..]));
        coords := coords + [c];
        k := k + 1;
      }
      assert Zip(cells, vertical[k..], horizontal[k..]) == [];
    }

    /** `get_top_left_coords`: the top walk with the current limit, then the
        left walk, which may change the limit, both ignoring pieces, zipped:
        the diagonal up and to the left, up to the smaller limit and before
        the first occupied square. */
    method GetTopLeftCoords(file: nat, rank: nat, limit: nat, cm: Option<Move>)
      returns (coords: seq<Square>, newLimit: nat)
      requires Shaped() && HasPiece(cm)
      ensures newLimit == LimitAfter(limit, cm)
      ensures coords == Line(cells, file - 1, rank + 1, -1, 1, Min(limit, newLimit), false)
    {
      var vertical := GetTopCoords(file, rank, limit, true);
      var horizontal;
      horizontal, newLimit := GetLeftCoords(file, rank, limit, true, cm);
      coords := ZipCoords(vertical, horizontal);
      ZipLines(cells, file, rank, rank + 1, file - 1, -1, 1, limit, newLimit);
    }

    /** `get_top_right_coords`: the diagonal up and to the right. */
    method GetTopRightCoords(file: nat, rank: nat, limit: nat, cm: Option<Move>)
      returns (coords: seq<Square>, newLimit: nat)
      requires Shaped() && HasPiece(cm)
      ensures newLimit == LimitAfter(limit, cm)
      ensures coords == Line(cells, file + 1, rank + 1, 1, 1, Min(limit, newLimit), false)
    {
      var vertical := GetTopCoords(file, rank, limit, true);
      var horizontal;
      horizontal, newLimit := GetRightCoords(file, rank, limit, true, cm);
      coords := ZipCoords(vertical, horizontal);
      ZipLines(cells, file, rank, rank + 1, file + 1, 1, 1, limit, newLimit);
    }

    /** `get_bottom_right_coords`: the diagonal down and to the right. */
    method GetBottomRightCoords(file: nat, rank: nat, limit: nat, cm: Option<Move>)
      returns (coords: seq<Square>, newLimit: nat)
      requires Shaped() && HasPiece(cm)
      ensures newLimit == LimitAfter(limit, cm)
      ensures coords == Line(cells, file + 1, rank - 1, 1, -1, Min(limit, newLimit), false)
    {
      var vertical := GetBottomCoords(file, rank, limit, true);
      var horizontal;
      horizontal, newLimit := GetRightCoords(file, rank, limit, true, cm);
      coords := ZipCoords(vertical, horizontal);
      ZipLines(cells, file, rank, rank - 1, file + 1, 1, -1, limit, newLimit);
    }

    /** `get_bottom_left_coords`: the diagonal down and to the left. */
    method GetBottomLeftCoords(file: nat, rank: nat, limit: nat, cm: Option<Move>)
      returns (coords: seq<Square>, newLimit: nat)
      requires Shaped() && HasPiece(cm)
      ensures newLimit == LimitAfter(limit, cm)
      ensures coords == Line(cells, file - 1, rank - 1, -1, -1, Min(limit, newLimit), false)
    {
      var vertical := GetBottomCoords(file, rank, limit, true);
      var horizontal;
      horizontal, newLimit := GetLeftCoords(file, rank, limit, true, cm);
      coords := ZipCoords(vertical, horizontal);
      ZipLines(cells, file, rank, rank - 1, file - 1, -1, -1, limit, newLimit);
    }

    /** `get_king_move_coords`: the eight walks, each with a fresh limit of
        1, which a king's move widens to 2 on the sideways walks. */
    method GetKingMoveCoords(file: nat, rank: nat, cm: Option<Move>) returns (coords: seq<Square>)
      requires Shaped() && HasPiece(cm)
      ensures coords == KingCoords(cells, file, rank, cm)
    {
      var tl, tr, right, br, bl, left, l;
      tl, l := GetTopLeftCoords(file, rank, 1, cm);
      var top := GetTopCoords(file, rank, 1, false);
      tr, l := GetTopRightCoords(file, rank, 1, cm);
      right, l := GetRightCoords(file, rank, 1, false, cm);
      br, l := GetBottomRightCoords(file, rank, 1, cm);
      var bottom := GetBottomCoords(file, rank, 1, false);
      bl, l := GetBottomLeftCoords(file, rank, 1, cm);
      left, l := GetLeftCoords(file, rank, 1, false, cm);
      coords := tl + top + tr + right + br + bottom + bl + left;
    }

    /** `get_queen_move_coords`: the eight walks share one limit, starting at
        8, the larger of the file and rank counts. */
    method GetQueenMoveCoords(file: nat, rank: nat, cm: Option<Move>) returns (coords: seq<Square>)
      requires Shaped() && HasPiece(cm)
      ensures coords == QueenCoords(cells, file, rank, cm)
    {
      var max := 8;
      var tl, tr, right, br, bl, left;
      tl, max := GetTopLeftCoords(file, rank, max, cm);
      var top := GetTopCoords(file, rank, max, false);
      tr, max := GetTopRightCoords(file, rank, max, cm);
      right, max := GetRightCoords(file, rank, max, false, cm);
      br, max := GetBottomRightCoords(file, rank, max, cm);
      var bottom := GetBottomCoords(file, rank, max, false);
      bl, max := GetBottomLeftCoords(file, rank, max, cm);
      left, max := GetLeftCoords(file, rank, max, false, cm);
      coords := tl + top + tr + right + br + bottom + bl + left;
    }

    /** `get_rook_move_coords`: top, right, bottom, left, sharing the limit. */
    method GetRookMoveCoords(file: nat, rank: nat, cm: Option<Move>) returns (coords: seq<Square>)
      requires Shaped() && HasPiece(cm)
      ensures coords == RookCoords(cells, file, rank, cm)
    {
      var max := 8;
      var right, left;
      var top := GetTopCoords(file, rank, max, false);
      right, max := GetRightCoords(file, rank, max, false, cm);
      var bottom := GetBottomCoords(file, rank, max, false);
      left, max := GetLeftCoords(file, rank, max, false, cm);
      coords := top + right + bottom + left;
    }

    /** `get_bishop_move_coords`: the four diagonals, sharing the limit. */
    method GetBishopMoveCoords(file: nat, rank: nat, cm: Option<Move>) returns (coords: seq<Square>)
      requires Shaped() && HasPiece(cm)
      ensures coords == BishopCoords(cells, file, rank, cm)
    {
      var max := 8;
      var tl, tr, br, bl;
      tl, max := GetTopLeftCoords(file, rank, max, cm);
      tr, max := GetTopRightCoords(file, rank, max, cm);
      br, max := GetBottomRightCoords(file, rank, max, cm);
      bl, max := GetBottomLeftCoords(file, rank, max, cm);
      coords := tl + tr + br + bl;
    }

    /** `get_knight_move_coords`: eight blocks, one per jump. */
    method GetKnightMoveCoords(file: nat, rank: nat) returns (coords: seq<Square>)
      requires Shaped()
      ensures coords == KnightCoords(cells, file, rank)
    {
      var c0 := JumpCoords(file, rank, (1, 2));
      var c1 := JumpCoords(file, rank, (1, -2));
      var c2 := JumpCoords(file, rank, (-1, 2));
      var c3 := JumpCoords(file, rank, (-1, -2));
      var c4 := JumpCoords(file, rank, (2, 1));
      var c5 := JumpCoords(file, rank, (2, -1));
      var c6 := JumpCoords(file, rank, (-2, 1));
      var c7 := JumpCoords(file, rank, (-2, -1));
      coords := c0 + c1 + c2 + c3 + c4 + c5 + c6 + c7;
    }

    /** One block of `get_knight_move_coords`: the bounds test on the signed
        indices, then `get_piece` on the target. */
    method JumpCoords(file: nat, rank: nat, j: (int, int)) returns (here: seq<Square>)
      requires Shaped()
      ensures here == Jump(cells, file, rank, j)
    {
      var nf, nr := file + j.0, rank + j.1;
      here := [];
      if Inside(nf, nr, j.0, j.1) && GetPiece(nf as nat, nr as nat).None? {
        here := [(nf as nat, nr as nat)];
      }
    }

    /** `get_pawn_move_coords`: White forward one and, from rank index 1,
        two; Black forward one when `rank_idx - 1 > 0` (wrapping on rank
        index 0) and, from rank index 6, two. */
    method GetPawnMoveCoords(file: nat, rank: nat, color: P.Color) returns (coords: seq<Square>)
      requires Shaped()
      ensures coords == PawnCoords(cells, file, rank, color)
    {
      coords := [];
      if color == P.White {
        if rank + 1 < 8 && GetPiece(file, rank + 1).None? {
          coords := coords + [(file, rank + 1)];
        }
        if rank == 1 && GetPiece(file, rank + 1).None? && GetPiece(file, rank + 2).None? {
          coords := coords + [(file, rank + 2)];
        }
      } else {
        var down: nat := if rank == 0 then USIZE_MAX else rank - 1;
        if down > 0 && GetPiece(file, down).None? {
          coords := coords + [(file, down)];
        }
        if rank == 6 && GetPiece(file, rank - 1).None? && GetPiece(file, rank - 2).None? {
          coords := coords + [(file, rank - 2)];
        }
      }
    }

    /** `Piece::get_move_coords`: the generator of the piece's kind, from the
        indices the piece carries. */
    method MoveCoordsOf(p: Piece, cm: Option<Move>) returns (coords: seq<Square>)
      requires Shaped() && HasPiece(cm)
      ensures coords == MoveCoords(cells, p, cm)
    {
      match p.kind
      case King => coords := GetKingMoveCoords(p.file, p.rank, cm);
      case Queen => coords := GetQueenMoveCoords(p.file, p.rank, cm);
      case Rook => coords := GetRookMoveCoords(p.file, p.rank, cm);
      case Bishop => coords := GetBishopMoveCoords(p.file, p.rank, cm);
      case Knight => coords := GetKnightMoveCoords(p.file, p.rank);
      case Pawn => coords := GetPawnMoveCoords(p.file, p.rank, p.color);
    }

    /** The `pieces_can_move` loop of `apply_move`: the pieces, in order,
        whose move coordinates contain the target. */
    method PiecesCanMove(pieces: seq<Piece>, cm: Option<Move>, to: Square) returns (canMove: seq<Piece>)
      requires Shaped() && HasPiece(cm)
      ensures canMove == CanMove(cells, pieces, cm, to)
    {
      canMove := [];
      for k := 0 to |pieces|
        invariant canMove == CanMove(cells, pieces[..k], cm, to)
      {
        assert pieces[..k + 1][..k] == pieces[..k];
        var coords := MoveCoordsOf(pieces[k], cm);
        if to in coords {
          canMove := canMove + [pieces[k]];
        }
      }
      assert pieces[..|pieces|] == pieces;
    }

    /** `replace_piece`: the piece takes the target indices, its own cell is
        emptied and the target cell receives it. */
    method ReplacePiece(piece: Piece, to: Square)
      requires Valid() && piece.file < 8 && piece.rank < 8 && to.0 < 8 && to.1 < 8
      modifies this, board
      ensures Valid() && board == old(board)
      ensures cells == Relocated(old(cells), piece, to)
    {
      var moved := Piece(piece.kind, piece.color, to.0, to.1);
      board[piece.rank, piece.file] := None;
      board[to.1, to.0] := Some(moved);
      cells := cells[8 * piece.rank + piece.file := None][8 * to.1 + to.0 := Some(moved)];
      RelocatedPlaced(old(cells), piece, to);
    }

    /** `apply_move`: no move, or a move without a piece, is refused; so is
        a move that no piece, or more than one piece, of its kind and colour
        can make, and a refused move leaves the board alone. With exactly
        one candidate, that piece is relocated to the target. */
    method ApplyMove(current: Option<Move>) returns (res: Result<()>)
      requires Valid()
      modifies this, board
      ensures Valid() && board == old(board)
      ensures (current.None? || current.value.piece.None?) ==> res == Err(InvalidMove) && cells == old(cells)
      ensures current.Some? && current.value.piece.Some? ==>
        var cands := Candidates(old(cells), current.value);
        if |cands| == 1 then
          && cands[0].file < 8 && cands[0].rank < 8
          && current.value.Target().0 < 8 && current.value.Target().1 < 8
          && res == Ok(()) && cells == Relocated(old(cells), cands[0], current.value.Target())
        else res == Err(InvalidMove) && cells == old(cells)
    {
      if current.None? {
        return Err(InvalidMove);
      }
      var mv := current.value;
      if mv.piece.None? {
        return Err(InvalidMove);
      }
      var pieces := GetPieces(mv.piece.value);
      var canMove := PiecesCanMove(pieces, current, mv.Target());
      if |canMove| == 0 {
        res := Err(InvalidMove);
      } else if |canMove| == 1 {
        CandidateOnBoard(cells, mv, canMove[0]);
        ReplacePiece(canMove[0], mv.Target());
        res := Ok(());
      } else {
        res := Err(InvalidMove);
      }
    }
  }
}
