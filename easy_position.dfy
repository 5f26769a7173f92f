// `EasyPosition` of lib/chui_core/src/position/easy_position.rs: an 8x8
// array of `Option<Piece>` indexed [rank][file], updated in place. Its back
// rows come from `standard_row_of_pieces`, which is `Geometry.StandardRowOfPieces`.

module EasyPositionStore {
  import opened Errors
  import opened Coordinate
  import P = Piece
  import opened Geometry
  import BR = BoardRules
  import PT = PositionTrait

  /** The rows `new_standard_chess` takes from `standard_row_of_pieces`:
      White's on rank index 0 and Black's on 7 are the back rows of the
      standard setup. */
  lemma StandardRowsAreStandard(f: Index)
    ensures StandardRowOfPieces(P.White, 0).Ok? && StandardRowOfPieces(P.Black, 7).Ok?
    ensures StandardRowOfPieces(P.White, 0).value[f] == At(StandardSquares(), Coord(f, 0))
    ensures StandardRowOfPieces(P.Black, 7).value[f] == At(StandardSquares(), Coord(f, 7))
  {
    StandardLayout(Coord(f, 0));
    StandardLayout(Coord(f, 7));
  }

  /** The two back rows, cell by cell, are ranks 1 and 8 of the standard setup. */
  lemma BackRowsAreInitial(white: seq<Cell>, black: seq<Cell>)
    requires StandardRowOfPieces(P.White, 0).Ok? && white == StandardRowOfPieces(P.White, 0).value
    requires StandardRowOfPieces(P.Black, 7).Ok? && black == StandardRowOfPieces(P.Black, 7).value
    ensures |white| == 8 && |black| == 8
    ensures forall f: Index :: white[f] == BR.InitialSquares(BR.StandardChess)[8 * 0 + f]
    ensures forall f: Index :: black[f] == BR.InitialSquares(BR.StandardChess)[8 * 7 + f]
  {
    forall f: Index
      ensures white[f] == BR.InitialSquares(BR.StandardChess)[8 * 0 + f]
      ensures black[f] == BR.InitialSquares(BR.StandardChess)[8 * 7 + f]
    {
      StandardRowsAreStandard(f);
    }
  }

  class EasyPosition {
    var board: array2<Cell>

    /** The cells, rank by rank: cell `8 * rank + file` mirrors `board[rank, file]`. */
    ghost var cells: Squares

    ghost predicate Valid()
      reads this, board
    {
      board.Length0 == 8 && board.Length1 == 8
      && forall r, f | 0 <= r < 8 && 0 <= f < 8 :: board[r, f] == cells[8 * r + f]
    }

    /** `new(variant)`: for the standard setup, the back rows from
        `standard_row_of_pieces` and the pawns and empty ranks between them;
        by `Default`, empty cells. */
    constructor (variant: BR.ChessVariant)
      ensures Valid() && fresh(board)
      ensures cells == BR.InitialSquares(variant)
    {
      var init := BR.InitialSquares(variant);
      match variant {
        case Empty =>
          board := new Cell[8, 8]((r: nat, f: nat) => None);
        case StandardChess =>
          var white := StandardRowOfPieces(P.White, 0).value;
          var black := StandardRowOfPieces(P.Black, 7).value;
          board := new Cell[8, 8]((r: nat, f: nat) requires r < 8 && f < 8 =>
            if r == 0 then white[f] else if r == 7 then black[f] else init[8 * r + f]);
          BackRowsAreInitial(white, black);
      }
      cells := init;
    }

    /** `get_piece`: `[rank][file]`. */
    function GetPiece(c: Coord): (r: Cell)
      requires Valid()
      reads this, board
      ensures r == At(cells, c)
    {
      board[c.rank, c.file]
    }

    /** `put_piece`: the previous occupant, and the square overwritten with
        the piece retagged with the square, or emptied. */
    method PutPiece(piece: Cell, c: Coord) returns (r: Cell)
      requires Valid()
      modifies this, board
      ensures Valid() && board == old(board)
      ensures r == At(old(cells), c)
      ensures cells == PT.Placed(old(cells), piece, c)
    {
      r := GetPiece(c);
      match piece {
        case Some(p) =>
          board[c.rank, c.file] := Some(P.SetCoord(p, c));
        case None =>
          board[c.rank, c.file] := None;
      }
      cells := PT.Placed(cells, piece, c);
    }

    /** `set_coords`: the cells flattened rank by rank, each piece retagged
        with the square of its flat index. */
    method SetCoords()
      requires Valid()
      modifies this, board
      ensures Valid() && board == old(board)
      ensures cells == BR.Retagged(old(cells))
    {
      ghost var s0 := cells;
      for r := 0 to 8
        invariant board == old(board) && cells == s0
        invariant forall rr, ff | 0 <= rr < 8 && 0 <= ff < 8 ::
          board[rr, ff] == if rr < r then BR.Retag(s0[8 * rr + ff], Coord(ff, rr)) else s0[8 * rr + ff]
      {
        for f := 0 to 8
          invariant board == old(board) && cells == s0
          invariant forall rr, ff | 0 <= rr < 8 && 0 <= ff < 8 ::
            board[rr, ff] == if rr < r || (rr == r && ff < f) then BR.Retag(s0[8 * rr + ff], Coord(ff, rr)) else s0[8 * rr + ff]
        {
          BR.SquareOfCell(r, f);
          match board[r, f]
          case None =>
          case Some(p) =>
            board[r, f] := Some(P.SetCoord(p, BR.SquareOf(8 * r + f)));
        }
      }
      cells := BR.Retagged(s0);
      forall r, f | 0 <= r < 8 && 0 <= f < 8
        ensures board[r, f] == cells[8 * r + f]
      {
        BR.SquareOfCell(r, f);
      }
    }

    /** `get_pieces_attacking_coord`: the pieces, rank by rank, whose move
        list contains `c`. The move list is `targets`, since the piece's move
        generator is not part of this model. */
    method GetPiecesAttackingCoord(targets: P.Piece -> seq<Coord>, c: Coord) returns (r: seq<P.Piece>)
      requires Valid()
      ensures r == PiecesFrom(cells, q => c in targets(q), 0)
    {
      ghost var keep := q => c in targets(q);
      r := [];
      for rank := 0 to 8
        invariant r + PiecesFrom(cells, keep, 8 * rank) == PiecesFrom(cells, keep, 0)
      {
        var row := AttackersOnRank(targets, c, rank);
        r := r + row;
      }
    }

    /** The attackers on one rank, file by file. */
    method AttackersOnRank(targets: P.Piece -> seq<Coord>, c: Coord, rank: nat) returns (row: seq<P.Piece>)
      requires Valid() && rank < 8
      ensures row + PiecesFrom(cells, q => c in targets(q), 8 * rank + 8)
              == PiecesFrom(cells, q => c in targets(q), 8 * rank)
    {
      ghost var keep := q => c in targets(q);
      row := [];
      for file := 0 to 8
        invariant row + PiecesFrom(cells, keep, 8 * rank + file) == PiecesFrom(cells, keep, 8 * rank)
      {
        match board[rank, file]
        case None =>
        case Some(q) =>
          if c in targets(q) {
            row := row + [q];
          }
      }
    }
  }
}
