// `Easy1DPosition` of lib/chui_core/src/position/easy_1d_position.rs: 64
// cells of `Option<Piece>`, a1 to h8, updated in place. Pieces are stored
// whole, so a piece keeps its has-moved flag in this store.

module Easy1DPositionStore {
  import opened Errors
  import opened Coordinate
  import P = Piece
  import opened Geometry
  import BR = BoardRules
  import PT = PositionTrait

  class Easy1DPosition {
    var cells: array<Cell>

    ghost predicate Valid()
      reads this
    {
      cells.Length == 64
    }

    /** The 64 cells, a1 to h8. */
    function Cells(): Squares
      requires Valid()
      reads this, cells
    {
      cells[..]
    }

    /** `new(variant)`: `new_standard_chess` lists the standard setup cell
        by cell, each piece built on its own square; `Default` is 64 empty
        cells. */
    constructor (variant: BR.ChessVariant)
      ensures Valid() && fresh(cells)
      ensures Cells() == BR.InitialSquares(variant)
    {
      var init := BR.InitialSquares(variant);
      cells := new Cell[64](i requires 0 <= i < 64 => init[i]);
    }

    /** `get_piece`: the cell of the square's index. */
    function GetPiece(c: Coord): (r: Cell)
      requires Valid()
      reads this, cells
      ensures r == At(Cells(), c)
    {
      cells[ToIndex(c)]
    }

    /** `put_piece`: the previous occupant, and the square overwritten with
        the piece retagged with the square, or emptied. */
    method PutPiece(piece: Cell, c: Coord) returns (r: Cell)
      requires Valid()
      modifies cells
      ensures r == At(old(Cells()), c)
      ensures Cells() == PT.Placed(old(Cells()), piece, c)
    {
      r := GetPiece(c);
      match piece
      case Some(p) =>
        cells[ToIndex(c)] := Some(P.SetCoord(p, c));
      case None =>
        cells[ToIndex(c)] := None;
    }

    /** `set_coords`: every stored piece retagged with the square of its
        index, `Coord::try_from(idx)`. */
    method SetCoords()
      requires Valid()
      modifies cells
      ensures Cells() == BR.Retagged(old(Cells()))
    {
      ghost var s0 := Cells();
      for idx := 0 to 64
        invariant forall i | 0 <= i < 64 :: cells[i] == if i < idx then BR.Retag(s0[i], BR.SquareOf(i)) else s0[i]
      {
        match cells[idx]
        case None =>
        case Some(p) =>
          cells[idx] := Some(P.SetCoord(p, BR.SquareOf(idx)));
      }
    }

    /** `get_pieces_attacking_coord`: the stored pieces, a1 to h8, whose
        move list contains `c`. The move list is `targets`, since the
        piece's move generator is not part of this model. */
    method GetPiecesAttackingCoord(targets: P.Piece -> seq<Coord>, c: Coord) returns (r: seq<P.Piece>)
      requires Valid()
      ensures r == PiecesFrom(Cells(), q => c in targets(q), 0)
    {
      ghost var keep := q => c in targets(q);
      r := [];
      for idx := 0 to 64
        invariant r + PiecesFrom(Cells(), keep, idx) == PiecesFrom(Cells(), keep, 0)
      {
        match cells[idx]
        case None =>
        case Some(q) =>
          if c in targets(q) {
            r := r + [q];
          }
      }
    }
  }
}
