// `EnumPosition` of lib/chui_core/src/position/enum_position.rs: 64 cells of
// `Option<PieceEnum>`, one enum value per kind and colour. A piece keeps only
// its kind and colour in the store and is rebuilt with the queried square on
// the way out. The store is the one whose methods match the `Position`
// trait, so the trait's `take_piece`, `replace_piece` and `to_string` and the
// `piece_operation` benchmark of lib/chui_core/src/util.rs are modelled on it.

module EnumPositionStore {
  import opened Errors
  import opened Coordinate
  import P = Piece
  import opened Geometry
  import BR = BoardRules
  import PT = PositionTrait
  import G = Game
  import Text

  /** `PieceEnum`: the twelve kinds of piece of both colours. */
  datatype PieceEnum =
    | WhiteKing | WhiteQueen | WhiteRook | WhiteBishop | WhiteKnight | WhitePawn
    | BlackKing | BlackQueen | BlackRook | BlackBishop | BlackKnight | BlackPawn

  /** `PieceEnum::get_piece`: the kind. */
  function KindOf(e: PieceEnum): P.PieceKind
  {
    match e
    case WhiteKing | BlackKing => P.King
    case WhiteQueen | BlackQueen => P.Queen
    case WhiteRook | BlackRook => P.Rook
    case WhiteBishop | BlackBishop => P.Bishop
    case WhiteKnight | BlackKnight => P.Knight
    case WhitePawn | BlackPawn => P.Pawn
  }

  /** `PieceEnum::get_color`: the colour. */
  function ColorOf(e: PieceEnum): P.Color
  {
    match e
    case WhiteKing | WhiteQueen | WhiteRook | WhiteBishop | WhiteKnight | WhitePawn => P.White
    case BlackKing | BlackQueen | BlackRook | BlackBishop | BlackKnight | BlackPawn => P.Black
  }

  /** `From<Piece> for PieceEnum`: the variant of the piece's kind and colour. */
  function FromPiece(p: P.Piece): (e: PieceEnum)
    ensures KindOf(e) == p.kind && ColorOf(e) == p.color
  {
    match (p.kind, p.color)
    case (King, White) => WhiteKing
    case (Queen, White) => WhiteQueen
    case (Rook, White) => WhiteRook
    case (Bishop, White) => WhiteBishop
    case (Knight, White) => WhiteKnight
    case (Pawn, White) => WhitePawn
    case (King, Black) => BlackKing
    case (Queen, Black) => BlackQueen
    case (Rook, Black) => BlackRook
    case (Bishop, Black) => BlackBishop
    case (Knight, Black) => BlackKnight
    case (Pawn, Black) => BlackPawn
  }

  /** `From<PieceEnum> for Piece`: a piece of that kind and colour on a1. */
  function ToPiece(e: PieceEnum): (p: P.Piece)
    ensures p.kind == KindOf(e) && p.color == ColorOf(e) && p.coord == Zero()
  {
    P.New(KindOf(e), ColorOf(e), Zero())
  }

  /** A variant survives the trip through a piece. */
  lemma EnumRoundTrip(e: PieceEnum)
    ensures FromPiece(ToPiece(e)) == e
  {
  }

  /** A piece survives the trip through a variant up to its square, which
      becomes a1. */
  lemma PieceRoundTrip(p: P.Piece)
    ensures ToPiece(FromPiece(p)) == P.New(p.kind, p.color, Zero())
  {
  }

  /** Two pieces share a variant exactly when they share kind and colour. */
  lemma FromPieceInjective(p: P.Piece, q: P.Piece)
    ensures FromPiece(p) == FromPiece(q) <==> p.kind == q.kind && p.color == q.color
  {
  }

  /** `Display for PieceEnum`: the letter of the piece it stands for. */
  function Display(e: PieceEnum): (s: string)
    ensures |s| == 1
  {
    [P.Repr(ToPiece(e)).0]
  }

  /** A piece's variant displays as the piece's own letter, wherever the
      piece stands. */
  lemma DisplayOfPiece(p: P.Piece)
    ensures Display(FromPiece(p)) == [P.Repr(p).0]
  {
  }

  // ----- the cells -----

  type EnumCell = Option<PieceEnum>

  /** A stored cell as `get_piece` reports it on square `c`: the piece is
      rebuilt with `Piece::new`, so its has-moved flag is read off the square. */
  function Decode(cell: EnumCell, c: Coord): Cell
  {
    match cell
    case None => None
    case Some(e) => Some(P.New(KindOf(e), ColorOf(e), c))
  }

  /** `get_piece(coord)`: nothing for no square, otherwise the decoded cell. */
  function Get(cells: seq<EnumCell>, coord: Option<Coord>): Cell
    requires |cells| == 64
  {
    match coord
    case None => None
    case Some(c) => Decode(cells[ToIndex(c)], c)
  }

  /** The cells as the rest of the model sees a position. */
  function View(cells: seq<EnumCell>): Squares
    requires |cells| == 64
  {
    seq(64, (i: int) requires 0 <= i < 64 => Decode(cells[i], BR.SquareOf(i)))
  }

  /** Each square of the view is what `get_piece` reports there. */
  lemma ViewAt(cells: seq<EnumCell>, c: Coord)
    requires |cells| == 64
    ensures At(View(cells), c) == Get(cells, Some(c))
  {
    var i := ToIndex(c);
    BR.ToIndexInjective(BR.SquareOf(i), c);
  }

  /** The cells after `put_piece(piece, coord)`: no square changes nothing,
      otherwise the square's cell holds the piece's variant, or nothing. */
  function Put(cells: seq<EnumCell>, piece: Cell, coord: Option<Coord>): (r: seq<EnumCell>)
    requires |cells| == 64
    ensures |r| == 64
  {
    match coord
    case None => cells
    case Some(c) =>
      cells[ToIndex(c) := match piece
                          case Some(p) => Some(FromPiece(P.SetCoord(p, c)))
                          case None => None]
  }

  /** After a put, the square reads back the piece rebuilt on that square
      (or nothing), and every other square reads as before; a put without a
      square changes nothing. */
  lemma GetAfterPut(cells: seq<EnumCell>, piece: Cell, coord: Option<Coord>, d: Option<Coord>)
    requires |cells| == 64
    ensures coord.None? ==> Put(cells, piece, coord) == cells
    ensures coord.Some? && d == coord ==>
      Get(Put(cells, piece, coord), d) == (if piece.None? then None else Some(P.New(piece.value.kind, piece.value.color, coord.value)))
    ensures d != coord ==> Get(Put(cells, piece, coord), d) == Get(cells, d)
  {
    if coord.Some? && d.Some? && d != coord {
      BR.ToIndexInjective(coord.value, d.value);
    }
  }

  /** The cells after `replace_piece`: the piece taken off its own square,
      then put on the target square. */
  function Replaced(cells: seq<EnumCell>, from: P.Piece, to: Option<Coord>): (r: seq<EnumCell>)
    requires |cells| == 64
    ensures |r| == 64
  {
    Put(Put(cells, None, Some(from.coord)), Some(from), to)
  }

  /** A replace to another square leaves the piece's own square empty, puts
      the piece on the target and changes no other square; without a target
      square it only empties the piece's own square. */
  lemma ReplacedMoves(cells: seq<EnumCell>, from: P.Piece, to: Option<Coord>, d: Coord)
    requires |cells| == 64
    ensures to.None? ==> Replaced(cells, from, to) == Put(cells, None, Some(from.coord))
    ensures to.Some? && to.value != from.coord ==> Get(Replaced(cells, from, to), Some(from.coord)).None?
    ensures to.Some? ==> Get(Replaced(cells, from, to), to) == Some(P.New(from.kind, from.color, to.value))
    ensures Some(d) != to && d != from.coord ==> Get(Replaced(cells, from, to), Some(d)) == Get(cells, Some(d))
  {
    var taken := Put(cells, None, Some(from.coord));
    GetAfterPut(cells, None, Some(from.coord), Some(d));
    GetAfterPut(taken, Some(from), to, Some(d));
    GetAfterPut(taken, Some(from), to, to);
    GetAfterPut(taken, Some(from), to, Some(from.coord));
    GetAfterPut(cells, None, Some(from.coord), Some(from.coord));
  }

  /** The cells after `piece_operation(c0, c1)`: the piece on `c0` put on
      `c1`, and what stood on `c1` put back on `c0`. */
  function Swapped(cells: seq<EnumCell>, c0: Coord, c1: Coord): (r: seq<EnumCell>)
    requires |cells| == 64
    ensures |r| == 64
  {
    Put(Put(cells, Get(cells, Some(c0)), Some(c1)), Get(cells, Some(c1)), Some(c0))
  }

  /** `piece_operation` exchanges the cells of its two squares and leaves
      the rest alone; on one square it changes nothing. */
  lemma SwappedExchanges(cells: seq<EnumCell>, c0: Coord, c1: Coord)
    requires |cells| == 64
    ensures Swapped(cells, c0, c1) == cells[ToIndex(c0) := cells[ToIndex(c1)]][ToIndex(c1) := cells[ToIndex(c0)]]
  {
    var i0, i1 := ToIndex(c0), ToIndex(c1);
    var once := Put(cells, Get(cells, Some(c0)), Some(c1));
    if cells[i0].Some? {
      EnumRoundTripAt(cells[i0].value, c0, c1);
    }
    assert once == cells[i1 := cells[i0]];
    if cells[i1].Some? {
      EnumRoundTripAt(cells[i1].value, c1, c0);
    }
    if c0 == c1 {
      assert Swapped(cells, c0, c1) == cells;
    } else {
      BR.ToIndexInjective(c0, c1);
      assert Get(cells, Some(c1)) == Decode(cells[i1], c1);
    }
  }

  /** A variant decoded on one square and stored on another is itself. */
  lemma EnumRoundTripAt(e: PieceEnum, c: Coord, d: Coord)
    ensures FromPiece(P.SetCoord(P.New(KindOf(e), ColorOf(e), c), d)) == e
  {
  }

  // ----- the two setups -----

  const WHITE_BACK_ROW: seq<EnumCell> :=
    [Some(WhiteRook), Some(WhiteKnight), Some(WhiteBishop), Some(WhiteQueen),
     Some(WhiteKing), Some(WhiteBishop), Some(WhiteKnight), Some(WhiteRook)]
  const BLACK_BACK_ROW: seq<EnumCell> :=
    [Some(BlackRook), Some(BlackKnight), Some(BlackBishop), Some(BlackQueen),
     Some(BlackKing), Some(BlackBishop), Some(BlackKnight), Some(BlackRook)]

  /** `new_standard_chess`: rank 1 to rank 8, eight cells each. */
  function StandardEnums(): (s: seq<EnumCell>)
    ensures |s| == 64
  {
    WHITE_BACK_ROW + seq(8, _ => Some(WhitePawn)) + seq(32, _ => None)
    + seq(8, _ => Some(BlackPawn)) + BLACK_BACK_ROW
  }

  /** `Default`: 64 empty cells. */
  function EmptyEnums(): (s: seq<EnumCell>)
    ensures |s| == 64
  {
    seq(64, _ => None)
  }

  /** `new(variant)`. */
  function InitialEnums(variant: BR.ChessVariant): (s: seq<EnumCell>)
    ensures |s| == 64
  {
    match variant
    case StandardChess => StandardEnums()
    case Empty => EmptyEnums()
  }

  /** The back rows hold the kinds R N B Q K B N R. */
  lemma BackRows(f: Index)
    ensures WHITE_BACK_ROW[f] == Some(FromPiece(P.New(BackRank(f), P.White, Zero())))
    ensures BLACK_BACK_ROW[f] == Some(FromPiece(P.New(BackRank(f), P.Black, Zero())))
  {
  }

  /** The cell at index `i` of the standard setup, rank by rank. */
  lemma StandardEnumsAt(i: nat)
    requires i < 64
    ensures i < 8 ==> StandardEnums()[i] == WHITE_BACK_ROW[i]
    ensures 8 <= i < 16 ==> StandardEnums()[i] == Some(WhitePawn)
    ensures 16 <= i < 48 ==> StandardEnums()[i] == None
    ensures 48 <= i < 56 ==> StandardEnums()[i] == Some(BlackPawn)
    ensures 56 <= i ==> StandardEnums()[i] == BLACK_BACK_ROW[i - 56]
  {
  }

  /** Read square by square, both setups are those of the rest of the
      model: the standard setup of `Geometry` and the empty board. */
  lemma InitialDecodes(variant: BR.ChessVariant, c: Coord)
    ensures Get(InitialEnums(variant), Some(c)) == At(BR.InitialSquares(variant), c)
  {
    if variant == BR.StandardChess {
      StandardDecodes(c);
    }
  }

  lemma StandardDecodes(c: Coord)
    ensures Get(StandardEnums(), Some(c)) == At(StandardSquares(), c)
  {
    StandardLayout(c);
    StandardEnumsAt(ToIndex(c));
    if c.rank == 0 || c.rank == 7 {
      BackRows(c.file);
    }
  }

  /** A rank line appended to a text, cut where `to_string` trims. */
  lemma RankLineParts(output: string, view: Squares, rank: Index, cols: seq<Index>)
    ensures output + G.RankLine(view, rank, cols)
      == (output + "║ " + Text.NatToString(rank + 1) + " │" + G.CellsText(view, rank, cols))
         + (" │ " + Text.NatToString(rank + 1) + " ║\n")
  {
  }

  // ----- the store -----

  class EnumPosition {
    var cells: array<EnumCell>

    ghost predicate Valid()
      reads this
    {
      cells.Length == 64
    }

    /** The 64 cells, a1 to h8. */
    function Cells(): seq<EnumCell>
      reads this, cells
    {
      cells[..]
    }

    /** `new(variant)`. */
    constructor (variant: BR.ChessVariant)
      ensures Valid() && fresh(cells)
      ensures Cells() == InitialEnums(variant)
    {
      var init := InitialEnums(variant);
      cells := new EnumCell[64](i requires 0 <= i < 64 => init[i]);
    }

    /** `get_piece`. */
    function GetPiece(coord: Option<Coord>): Cell
      requires Valid()
      reads this, cells
    {
      match coord
      case None => None
      case Some(c) => Decode(cells[ToIndex(c)], c)
    }

    /** `put_piece`: the previous occupant of the square, and the square's
        cell overwritten; without a square, nothing. */
    method PutPiece(piece: Cell, coord: Option<Coord>) returns (r: Cell)
      requires Valid()
      modifies cells
      ensures r == Get(old(Cells()), coord)
      ensures Cells() == Put(old(Cells()), piece, coord)
    {
      if coord.None? {
        return None;
      }
      var idx := ToIndex(coord.value);
      r := GetPiece(coord);
      if piece.Some? {
        var moved := P.SetCoord(piece.value, coord.value);
        cells[idx] := Some(FromPiece(moved));
      } else {
        cells[idx] := None;
      }
    }

    /** `take_piece`: a put of nothing. */
    method TakePiece(coord: Option<Coord>) returns (r: Cell)
      requires Valid()
      modifies cells
      ensures r == Get(old(Cells()), coord)
      ensures Cells() == Put(old(Cells()), None, coord)
    {
      r := PutPiece(None, coord);
    }

    /** `replace_piece(piece_from, move_obj)` with `to` the move's target
        square: take the piece off its square, retag it and put it on the
        target, answering what the target held after the take. */
    method ReplacePiece(pieceFrom: P.Piece, to: Option<Coord>) returns (r: Result<Cell>)
      requires Valid()
      modifies cells
      ensures r == Ok(Get(Put(old(Cells()), None, Some(pieceFrom.coord)), to))
      ensures Cells() == Replaced(old(Cells()), pieceFrom, to)
    {
      var _ := TakePiece(Some(pieceFrom.coord));
      var piece := if to.Some? then P.SetCoord(pieceFrom, to.value) else pieceFrom;
      var old_ := PutPiece(Some(piece), to);
      r := Ok(old_);
    }

    /** `piece_operation` of lib/chui_core/src/util.rs. */
    method PieceOperation(c0: Coord, c1: Coord)
      requires Valid()
      modifies cells
      ensures Cells() == Swapped(old(Cells()), c0, c1)
    {
      var p1 := GetPiece(Some(c0));
      var p2 := PutPiece(p1, Some(c1));
      var _ := PutPiece(p2, Some(c0));
    }

    /** `to_string(color)` of the `Position` trait. */
    method ToString(color: P.Color) returns (s: string)
      requires Valid()
      ensures s == PT.PositionText(View(Cells()), color)
    {
      var output := Framed(color);
      s := "Position:\n" + output + "\n";
    }

    /** The framed board of `to_string`, built line by line and trimmed. */
    method Framed(color: P.Color) returns (output: string)
      requires Valid()
      ensures output == PT.FrameText(View(Cells()), color)
    {
      var files := G.FileOrder(color);
      output := G.AppendSpaced(G.TOP, files);
      output := output + G.TOP_RULE;
      assert output[0] == G.TOP[0];
      output := AppendRanks(output, G.RowOrder(color), G.ColOrder(color));
      output := output + G.BOTTOM_RULE;
      output := G.AppendSpaced(output, files);
      output := output + PT.POSITION_BOTTOM;
      assert output[0] == G.TOP[0] && output[|output| - 1] == PT.POSITION_BOTTOM[|PT.POSITION_BOTTOM| - 1];
      Text.TrimKeeps(output);
      output := Text.Trim(output);
    }

    /** The row loop of `to_string`. */
    method AppendRanks(output: string, rows: seq<Index>, cols: seq<Index>) returns (r: string)
      requires Valid()
      requires output != [] && !Text.IsWhitespace(output[0]) && |cols| == 8
      ensures r == output + G.RanksText(View(Cells()), rows, cols)
    {
      r := output;
      for k := 0 to |rows|
        invariant r == output + G.RanksText(View(Cells()), rows[..k], cols)
        invariant r != [] && r[0] == output[0]
      {
        ghost var front := G.RanksText(View(Cells()), rows[..k], cols);
        ghost var line := G.RankLine(View(Cells()), rows[k], cols);
        r := AppendRank(r, rows[k], cols);
        assert rows[..k + 1][..k] == rows[..k];
        assert G.RanksText(View(Cells()), rows[..k + 1], cols) == front + line;
        G.Associate(output, front, line);
      }
      assert rows[..|rows|] == rows;
    }

    /** One pass of the row loop: the rank number, the cells and, once the
        text so far is trimmed, the rank number again. */
    method AppendRank(output: string, rank: Index, cols: seq<Index>) returns (r: string)
      requires Valid()
      requires output != [] && !Text.IsWhitespace(output[0]) && |cols| == 8
      ensures r == output + G.RankLine(View(Cells()), rank, cols)
    {
      ghost var view := View(Cells());
      var head := output + "║ " + Text.NatToString(rank + 1) + " │";
      r := AppendCells(head, rank, cols);
      ghost var text := G.CellsText(view, rank, cols);
      assert text[|text| - 1] == G.CellSymbol(At(view, Coord(cols[7], rank)));
      G.CellSymbolVisible(At(view, Coord(cols[7], rank)));
      assert r[0] == output[0] && r[|r| - 1] == text[|text| - 1];
      Text.TrimKeeps(r);
      var tail := " │ " + Text.NatToString(rank + 1) + " ║\n";
      RankLineParts(output, view, rank, cols);
      r := Text.Trim(r) + tail;
    }

    /** The column loop: a space and each cell's symbol. */
    method AppendCells(output: string, rank: Index, cols: seq<Index>) returns (r: string)
      requires Valid()
      ensures r == output + G.CellsText(View(Cells()), rank, cols)
    {
      r := output;
      for l := 0 to |cols|
        invariant r == output + G.CellsText(View(Cells()), rank, cols[..l])
      {
        var cell := GetPiece(Some(Coord(cols[l], rank)));
        ViewAt(Cells(), Coord(cols[l], rank));
        assert cols[..l + 1][..l] == cols[..l];
        r := r + " " + [G.CellSymbol(cell)];
      }
      assert cols[..|cols|] == cols;
    }

    /** `white_to_string`, also the `Display` of the store. */
    method WhiteToString() returns (s: string)
      requires Valid()
      ensures s == PT.PositionText(View(Cells()), P.White)
    {
      s := ToString(P.White);
    }

    /** `black_to_string`. */
    method BlackToString() returns (s: string)
      requires Valid()
      ensures s == PT.PositionText(View(Cells()), P.Black)
    {
      s := ToString(P.Black);
    }
  }
}
