// The `Board` of lib/chui_core/src/modules/board/mod.rs, the generation
// before lib/chui_core/src/modules/board.rs: an 8x8 array of cells indexed
// [rank][file] and the en passant fields, updated in place. Its move
// generators have no castling branch and no attack test: a king takes the
// eight one-square rays. The rules are stated in module OlderBoardRules, and
// the class of module OlderBoard is proved against them.

module OlderBoardRules {
  import opened Errors
  import opened Coordinate
  import P = Piece
  import opened Geometry
  import BR = BoardRules
  import BT = BoardTargets

  /** `ChessVariant`: this generation knows only standard chess. */
  datatype ChessVariant = StandardChess

  /** A move as `apply_move` reads it: the piece to move, if any, and the
      target square. */
  datatype MoveRequest = MoveRequest(piece: Option<P.Piece>, toCoord: Coord)

  /** `Piece::get_move_coords` with this board: the king and the queen take
      all eight rays, the rook and the bishop four, and the knight and the
      pawn their own generators. */
  function MoveCoords(s: Squares, ep: Option<Coord>, p: P.Piece): seq<Coord>
  {
    match p.kind
    case King => Rays(s, p, ALL_DIRECTIONS)
    case Queen => QueenTargets(s, p)
    case Rook => RookTargets(s, p)
    case Bishop => BishopTargets(s, p)
    case Knight => KnightTargets(s, p)
    case Pawn => PawnTargets(s, ep, p)
  }

  /** The pieces among `qs` that `keep` accepts, in order. */
  function Kept(qs: seq<P.Piece>, keep: P.Piece -> bool): seq<P.Piece>
  {
    if qs == [] then []
    else
      var last := qs[|qs| - 1];
      Kept(qs[..|qs| - 1], keep) + (if keep(last) then [last] else [])
  }

  /** The accepted pieces are kept, in order, and no others. */
  lemma {:induction false} KeptMembers(qs: seq<P.Piece>, keep: P.Piece -> bool)
    ensures forall q :: q in Kept(qs, keep) <==> q in qs && keep(q)
    ensures |Kept(qs, keep)| <= |qs|
  {
    if qs != [] {
      KeptMembers(qs[..|qs| - 1], keep);
      assert qs == qs[..|qs| - 1] + [qs[|qs| - 1]];
    }
  }

  /** The test of the `pieces_can_move` loop: the piece's targets contain `to`. */
  function ReachesTarget(s: Squares, ep: Option<Coord>, to: Coord): P.Piece -> bool
  {
    q => to in MoveCoords(s, ep, q)
  }

  /** The pieces `apply_move` may move: the same kind and colour as the
      move's piece, and able to reach the target square. */
  function Candidates(s: Squares, ep: Option<Coord>, piece: P.Piece, to: Coord): seq<P.Piece>
  {
    Kept(BR.Pieces(s, piece), ReachesTarget(s, ep, to))
  }

  /** The candidates of `apply_move` are exactly the pieces on the board of
      the same kind and colour as the move's piece that reach the target. */
  lemma CandidatesMembers(s: Squares, ep: Option<Coord>, piece: P.Piece, to: Coord, q: P.Piece)
    ensures q in Candidates(s, ep, piece, to) <==>
      (exists i :: 0 <= i < 64 && s[i] == Some(q) && q.IsSamePiece(piece)) && to in MoveCoords(s, ep, q)
  {
    KeptMembers(BR.Pieces(s, piece), ReachesTarget(s, ep, to));
  }

  /** A king of this generation reaches exactly its neighbouring squares not
      held by its own colour: there is no castling target and no test of
      whether the square is attacked. */
  lemma KingTargets(s: Squares, ep: Option<Coord>, king: P.Piece, x: Coord)
    requires king.kind == P.King
    ensures x in MoveCoords(s, ep, king) <==> IsKingStep(king.coord, x) && !HoldsColor(s, x, king.color)
  {
    OneStepRays(s, king, x);
  }

  /** The colours of the standard setup: White on the first two ranks,
      Black on the last two, and nothing in between. */
  ghost predicate StandardShape(s: Squares)
  {
    forall c: Coord ::
      (c.rank <= 1 ==> HoldsColor(s, c, P.White))
      && (2 <= c.rank <= 5 ==> At(s, c).None?)
      && (6 <= c.rank ==> HoldsColor(s, c, P.Black))
  }

  lemma StandardSquaresShape()
    ensures StandardShape(StandardSquares())
  {
    forall c: Coord
      ensures (c.rank <= 1 ==> HoldsColor(StandardSquares(), c, P.White))
        && (2 <= c.rank <= 5 ==> At(StandardSquares(), c).None?)
        && (6 <= c.rank ==> HoldsColor(StandardSquares(), c, P.Black))
    {
      StandardLayout(c);
    }
  }

  /** On the standard setup, the pieces of the back rows other than the
      knights have no target, as the source's tests expect for a1 to h1 and
      a8 to h8. */
  lemma StandardBackRowHemmed(color: P.Color, f: Index)
    requires f != 1 && f != 6
    ensures var p := At(StandardSquares(), Coord(f, BT.BackRow(color)));
      p.Some? && MoveCoords(StandardSquares(), None, p.value) == []
  {
    var c := Coord(f, BT.BackRow(color));
    var p := P.New(BackRank(f), color, c);
    assert At(StandardSquares(), c) == Some(p) by {
      StandardLayout(c);
    }
    assert p.kind != P.Knight && p.kind != P.Pawn;
    BT.StandardSlidersHemmed(color, f, BackRank(f));
    SlidersHemmed(StandardSquares(), p);
  }

  /** A king, queen, rook or bishop whose eight rays are all blocked has no
      target. */
  lemma SlidersHemmed(s: Squares, p: P.Piece)
    requires p.kind != P.Knight && p.kind != P.Pawn
    requires QueenTargets(s, p) == [] && RookTargets(s, p) == [] && BishopTargets(s, p) == []
    ensures MoveCoords(s, None, p) == []
  {
  }

  /** On the standard setup each knight has exactly two targets, the squares
      two ranks in front of it one file to either side (c3 and a3 from b1). */
  lemma StandardKnightTargets(color: P.Color, f: Index)
    requires f == 1 || f == 6
    ensures var p := At(StandardSquares(), Coord(f, BT.BackRow(color)));
      var rank := if color == P.White then 2 else 5;
      p.Some? && MoveCoords(StandardSquares(), None, p.value) == [Coord(f + 1, rank), Coord(f - 1, rank)]
  {
    var s := StandardSquares();
    var back := BT.BackRow(color);
    var c := Coord(f, back);
    var knight := P.New(P.Knight, color, c);
    assert At(s, c) == Some(knight) by {
      StandardLayout(c);
      assert BackRank(f) == P.Knight;
    }
    var rank := if color == P.White then 2 else 5;
    var fwd := Forward(color);
    StandardSquaresShape();
    KnightJumps(s, knight, fwd, rank);
  }

  /** The knight's jumps from its home square, in the generator's order:
      the two forward jumps of two ranks are open and every other jump is
      off the board or onto the knight's own colour. */
  lemma KnightJumps(s: Squares, knight: P.Piece, fwd: int, rank: Index)
    requires StandardShape(s) && knight.kind == P.Knight
    requires knight.coord.file == 1 || knight.coord.file == 6
    requires knight.coord.rank == BT.BackRow(knight.color) && fwd == Forward(knight.color)
    requires rank == knight.coord.rank + 2 * fwd
    ensures MoveCoords(s, None, knight) == [Coord(knight.coord.file + 1, rank), Coord(knight.coord.file - 1, rank)]
  {
    KnightTargetsList(s, knight);
    JumpsOpen(s, knight, rank);
  }

  lemma KnightTargetsList(s: Squares, knight: P.Piece)
    ensures KnightTargets(s, knight) == KnightList(s, knight, KNIGHT_JUMPS)
  {
    KnightListIs(s, knight, KNIGHT_JUMPS);
  }

  /** On the standard setup each pawn has exactly two targets, one and two
      squares ahead (a3 and a4 from a2, a6 and a5 from a7). */
  lemma StandardPawnTargets(color: P.Color, f: Index)
    ensures var rank := if color == P.White then 1 else 6;
      var p := At(StandardSquares(), Coord(f, rank));
      p.Some? && MoveCoords(StandardSquares(), None, p.value)
        == [Coord(f, rank + Forward(color)), Coord(f, rank + 2 * Forward(color))]
  {
    var rank := if color == P.White then 1 else 6;
    StandardLayout(Coord(f, rank));
    BT.StandardPawns(color, f);
  }

  /** The two open jumps, taken in the order of `KNIGHT_JUMPS`. */
  lemma JumpsOpen(s: Squares, knight: P.Piece, rank: Index)
    requires knight.coord.rank == 0 || knight.coord.rank == 7
    requires rank == (if knight.coord.rank == 0 then 2 else 5)
    requires 1 <= knight.coord.file <= 6
    requires StandardShape(s) && knight.coord.rank == BT.BackRow(knight.color)
    ensures KnightList(s, knight, KNIGHT_JUMPS) == [Coord(knight.coord.file + 1, rank), Coord(knight.coord.file - 1, rank)]
  {
    KnightListOpen(s, knight, rank, 0);
    assert KNIGHT_JUMPS[0..] == KNIGHT_JUMPS;
    if knight.coord.rank == 0 {
      OpenJumpsNorth(knight.coord);
    } else {
      OpenJumpsSouth(knight.coord);
    }
  }

  /** The jump `k` of the list, kept when it lands on `rank`. */
  function OpenJump(c: Coord, rank: int, k: nat): seq<Coord>
    requires k < 8
  {
    var sh := Shift(c, KNIGHT_JUMPS[k].0, KNIGHT_JUMPS[k].1);
    if sh.Some? && sh.value.rank == rank then [sh.value] else []
  }

  /** The jumps from `k` on that land on `rank`, in order. */
  function OpenJumps(c: Coord, rank: int, k: nat): seq<Coord>
    requires k <= 8
    decreases 8 - k
  {
    if k == 8 then [] else OpenJump(c, rank, k) + OpenJumps(c, rank, k + 1)
  }

  /** From a back-row square, the knight's list is the jumps landing on the
      third rank from its side. */
  lemma {:induction false} KnightListOpen(s: Squares, knight: P.Piece, rank: Index, k: nat)
    requires knight.coord.rank == 0 || knight.coord.rank == 7
    requires rank == (if knight.coord.rank == 0 then 2 else 5)
    requires StandardShape(s) && knight.coord.rank == BT.BackRow(knight.color)
    requires k <= 8
    decreases 8 - k
    ensures KnightList(s, knight, KNIGHT_JUMPS[k..]) == OpenJumps(knight.coord, rank, k)
  {
    if k < 8 {
      KnightListOpen(s, knight, rank, k + 1);
      JumpStep(s, knight, rank, k, OpenJump(knight.coord, rank, k), OpenJumps(knight.coord, rank, k + 1));
    }
  }

  lemma OpenJumpsNorth(c: Coord)
    requires c.rank == 0 && 1 <= c.file <= 6
    ensures OpenJumps(c, 2, 0) == [Coord(c.file + 1, 2), Coord(c.file - 1, 2)]
  {
    assert OpenJumps(c, 2, 4) == [] by {
      assert OpenJumps(c, 2, 8) == [];
      assert OpenJumps(c, 2, 7) == [];
      assert OpenJumps(c, 2, 6) == [];
      assert OpenJumps(c, 2, 5) == [];
    }
    assert OpenJumps(c, 2, 3) == [];
    assert OpenJumps(c, 2, 2) == [Coord(c.file - 1, 2)];
    assert OpenJumps(c, 2, 1) == [Coord(c.file - 1, 2)];
  }

  lemma OpenJumpsSouth(c: Coord)
    requires c.rank == 7 && 1 <= c.file <= 6
    ensures OpenJumps(c, 5, 0) == [Coord(c.file + 1, 5), Coord(c.file - 1, 5)]
  {
    assert OpenJumps(c, 5, 4) == [] by {
      assert OpenJumps(c, 5, 8) == [];
      assert OpenJumps(c, 5, 7) == [];
      assert OpenJumps(c, 5, 6) == [];
      assert OpenJumps(c, 5, 5) == [];
    }
    assert OpenJumps(c, 5, 3) == [Coord(c.file - 1, 5)];
    assert OpenJumps(c, 5, 2) == [Coord(c.file - 1, 5)];
    assert OpenJumps(c, 5, 1) == [Coord(c.file + 1, 5), Coord(c.file - 1, 5)];
  }

  /** One jump of a back-row knight: open exactly when it lands on the
      third rank from its side. */
  lemma JumpStep(s: Squares, knight: P.Piece, rank: Index, k: nat, here: seq<Coord>, rest: seq<Coord>)
    requires knight.coord.rank == 0 || knight.coord.rank == 7
    requires rank == (if knight.coord.rank == 0 then 2 else 5)
    requires StandardShape(s) && knight.coord.rank == BT.BackRow(knight.color)
    requires k < 8 && KnightList(s, knight, KNIGHT_JUMPS[k + 1..]) == rest
    requires var sh := Shift(knight.coord, KNIGHT_JUMPS[k].0, KNIGHT_JUMPS[k].1);
      here == if sh.Some? && sh.value.rank == rank then [sh.value] else []
    ensures KnightList(s, knight, KNIGHT_JUMPS[k..]) == here + rest
  {
    KnightListStep(s, knight, KNIGHT_JUMPS, k);
    JumpRanks(k);
    BackRowJump(s, knight, rank, KNIGHT_JUMPS[k]);
  }

  /** `KnightList` takes the jumps one at a time. */
  lemma KnightListStep(s: Squares, p: P.Piece, jumps: seq<(int, int)>, k: nat)
    requires k < |jumps|
    ensures KnightList(s, p, jumps[k..]) == KnightJump(s, p, jumps[k]) + KnightList(s, p, jumps[k + 1..])
  {
    assert jumps[k..][1..] == jumps[k + 1..];
  }

  /** Every knight jump moves one or two ranks. */
  lemma JumpRanks(k: nat)
    requires k < 8
    ensures KNIGHT_JUMPS[k].1 in {-2, -1, 1, 2}
  {
  }

  /** From a back-row square, a jump is kept exactly when it lands on the
      third rank from the knight's side: the second rank holds its own
      colour and the other way leads off the board. */
  lemma BackRowJump(s: Squares, knight: P.Piece, rank: Index, j: (int, int))
    requires knight.coord.rank == 0 || knight.coord.rank == 7
    requires rank == (if knight.coord.rank == 0 then 2 else 5)
    requires StandardShape(s) && knight.coord.rank == BT.BackRow(knight.color)
    requires j.1 in {-2, -1, 1, 2}
    ensures var sh := Shift(knight.coord, j.0, j.1);
      KnightJump(s, knight, j) == if sh.Some? && sh.value.rank == rank then [sh.value] else []
  {
    var sh := Shift(knight.coord, j.0, j.1);
    if sh.Some? {
      var c := sh.value;
      assert (c.rank <= 1 ==> HoldsColor(s, c, P.White))
        && (2 <= c.rank <= 5 ==> At(s, c).None?)
        && (6 <= c.rank ==> HoldsColor(s, c, P.Black));
    }
  }

  /** The piece of a cell, when it has the kind and colour of `piece`. */
  function SameCell(cell: Cell, piece: P.Piece): seq<P.Piece>
  {
    match cell
    case None => []
    case Some(q) => if q.IsSamePiece(piece) then [q] else []
  }

  /** The pieces like `piece` from cell `i` on, front to back. */
  function SameFrom(s: seq<Cell>, piece: P.Piece, i: nat): seq<P.Piece>
    requires i <= |s|
    decreases |s| - i
  {
    if i == |s| then [] else SameCell(s[i], piece) + SameFrom(s, piece, i + 1)
  }

  /** The pieces of the same kind and colour as `piece` among the cells from
      `lo` up to `hi`, collected in the order `get_pieces` visits them. */
  function SameInRange(s: seq<Cell>, piece: P.Piece, lo: nat, hi: nat): seq<P.Piece>
    requires lo <= hi <= |s|
    decreases hi - lo
  {
    if hi == lo then [] else SameInRange(s, piece, lo, hi - 1) + SameCell(s[hi - 1], piece)
  }

  /** `SameFrom` is `PiecesFrom` with the same-piece test. */
  lemma {:induction false} SameFromIs(s: seq<Cell>, piece: P.Piece, keep: P.Piece -> bool, i: nat)
    requires i <= |s|
    requires forall q :: keep(q) == q.IsSamePiece(piece)
    decreases |s| - i
    ensures SameFrom(s, piece, i) == PiecesFrom(s, keep, i)
  {
    if i < |s| {
      SameFromIs(s, piece, keep, i + 1);
      var rest := PiecesFrom(s, keep, i + 1);
      match s[i]
      case None =>
        assert PiecesFrom(s, keep, i) == rest;
      case Some(q) =>
        assert PiecesFrom(s, keep, i) == if keep(q) then [q] + rest else rest;
    }
  }

  /** Collecting up to `hi` and then from `hi` on is collecting from `lo` on. */
  lemma {:induction false} SameInRangeSplit(s: seq<Cell>, piece: P.Piece, lo: nat, hi: nat)
    requires lo <= hi <= |s|
    decreases hi - lo
    ensures SameFrom(s, piece, lo) == SameInRange(s, piece, lo, hi) + SameFrom(s, piece, hi)
  {
    if hi > lo {
      SameInRangeSplit(s, piece, lo, hi - 1);
      var last := SameCell(s[hi - 1], piece);
      assert SameFrom(s, piece, hi - 1) == last + SameFrom(s, piece, hi);
      assert (SameInRange(s, piece, lo, hi - 1) + last) + SameFrom(s, piece, hi)
          == SameInRange(s, piece, lo, hi - 1) + (last + SameFrom(s, piece, hi));
    }
  }

  /** The square one jump reaches, when it is on the board and not held by
      the knight's own colour. */
  function KnightJump(s: Squares, p: P.Piece, j: (int, int)): seq<Coord>
  {
    match Shift(p.coord, j.0, j.1)
    case None => []
    case Some(c) => if HoldsColor(s, c, p.color) then [] else [c]
  }

  /** The jump list of `JumpsFrom`, without its membership contract. */
  function KnightList(s: Squares, p: P.Piece, jumps: seq<(int, int)>): seq<Coord>
  {
    if jumps == [] then [] else KnightJump(s, p, jumps[0]) + KnightList(s, p, jumps[1..])
  }

  /** The first `k` jumps of `jumps`, collected back to front. */
  function JumpsUpTo(s: Squares, p: P.Piece, jumps: seq<(int, int)>, k: nat): seq<Coord>
    requires k <= |jumps|
  {
    if k == 0 then [] else JumpsUpTo(s, p, jumps, k - 1) + KnightJump(s, p, jumps[k - 1])
  }

  /** The first `k` jumps followed by the rest are all the jumps. */
  lemma {:induction false} JumpsUpToSplit(s: Squares, p: P.Piece, jumps: seq<(int, int)>, k: nat)
    requires k <= |jumps|
    ensures KnightList(s, p, jumps) == JumpsUpTo(s, p, jumps, k) + KnightList(s, p, jumps[k..])
  {
    if k == 0 {
      assert jumps[0..] == jumps;
    } else {
      JumpsUpToSplit(s, p, jumps, k - 1);
      var here := KnightJump(s, p, jumps[k - 1]);
      assert jumps[k - 1..][1..] == jumps[k..];
      assert KnightList(s, p, jumps[k - 1..]) == here + KnightList(s, p, jumps[k..]);
      assert (JumpsUpTo(s, p, jumps, k - 1) + here) + KnightList(s, p, jumps[k..])
          == JumpsUpTo(s, p, jumps, k - 1) + (here + KnightList(s, p, jumps[k..]));
    }
  }

  lemma {:induction false} KnightListIs(s: Squares, p: P.Piece, jumps: seq<(int, int)>)
    ensures KnightList(s, p, jumps) == JumpsFrom(s, p, jumps)
  {
    if jumps != [] {
      KnightListIs(s, p, jumps[1..]);
    }
  }
}

module OlderBoard {
  import opened Errors
  import opened Coordinate
  import P = Piece
  import opened Geometry
  import BR = BoardRules
  import opened OlderBoardRules

  /** The 8x8 board and its en passant fields, updated in place. */
  /** The rows `new` takes from `standard_row_of_pieces` are ranks 1 and 8
      of the standard setup, cell by cell. */
  lemma StandardBackRows(white: seq<Cell>, black: seq<Cell>)
    requires StandardRowOfPieces(P.White, 0).Ok? && white == StandardRowOfPieces(P.White, 0).value
    requires StandardRowOfPieces(P.Black, 7).Ok? && black == StandardRowOfPieces(P.Black, 7).value
    ensures |white| == 8 && |black| == 8
    ensures forall f: Index :: white[f] == StandardSquares()[8 * 0 + f]
    ensures forall f: Index :: black[f] == StandardSquares()[8 * 7 + f]
  {
    forall f: Index
      ensures white[f] == StandardSquares()[8 * 0 + f]
      ensures black[f] == StandardSquares()[8 * 7 + f]
    {
      StandardLayout(Coord(f, 0));
      StandardLayout(Coord(f, 7));
    }
  }

  class Board {
    var board: array2<Cell>
    var enPassantTargetSquare: Option<Coord>
    var enPassantTargetPiece: Option<P.Piece>

    /** The cells, rank by rank: cell `8 * rank + file` mirrors `board[rank, file]`. */
    ghost var cells: Squares

    /** The array is 8 ranks of 8 files, and `cells` is its rank-by-rank view. */
    ghost predicate Valid()
      reads this, board
    {
      board.Length0 == 8 && board.Length1 == 8
      && forall r, f | 0 <= r < 8 && 0 <= f < 8 :: board[r, f] == cells[8 * r + f]
    }

    /** `Board::new(StandardChess)`: White's back row from
        `standard_row_of_pieces` on rank index 0, White's pawns on 1, empty
        ranks 2 to 5, Black's pawns on 6 and Black's back row on 7, every
        piece tagged with its own square, and no en passant target. */
    constructor (variant: ChessVariant)
      ensures Valid() && fresh(board)
      ensures cells == StandardSquares()
      ensures enPassantTargetSquare.None? && enPassantTargetPiece.None?
    {
      var init := StandardSquares();
      var white := StandardRowOfPieces(P.White, 0).value;
      var black := StandardRowOfPieces(P.Black, 7).value;
      var rows := new Cell[8, 8]((r: nat, f: nat) requires r < 8 && f < 8 =>
        if r == 0 then white[f] else if r == 7 then black[f] else init[8 * r + f]);
      StandardBackRows(white, black);
      board := rows;
      enPassantTargetSquare := None;
      enPassantTargetPiece := None;
      cells := init;
    }

    /** `get_piece`: `[rank][file]`. */
    function GetPiece(c: Coord): (r: Cell)
      requires Valid()
      reads this, board
      ensures r == At(cells, c)
    {
      board[c.rank, c.file]
    }

    /** `get_pieces`: the pieces of the same kind and colour as `piece`,
        rank by rank and file by file. */
    method GetPieces(piece: P.Piece) returns (pieces: seq<P.Piece>)
      requires Valid()
      ensures pieces == BR.Pieces(cells, piece)
    {
      pieces := [];
      for r := 0 to 8
        invariant pieces == SameInRange(cells, piece, 0, 8 * r)
      {
        pieces := RankPieces(piece, r, pieces);
      }
      ghost var keep := (q: P.Piece) => q.IsSamePiece(piece);
      SameInRangeSplit(cells, piece, 0, 64);
      SameFromIs(cells, piece, keep, 0);
    }

    /** The inner loop of `get_pieces`: rank `r`, file by file, appending
        each piece of the same kind and colour. */
    method RankPieces(piece: P.Piece, r: nat, before: seq<P.Piece>) returns (pieces: seq<P.Piece>)
      requires Valid() && r < 8
      requires before == SameInRange(cells, piece, 0, 8 * r)
      ensures pieces == SameInRange(cells, piece, 0, 8 * r + 8)
    {
      pieces := before;
      for f := 0 to 8
        invariant pieces == SameInRange(cells, piece, 0, 8 * r + f)
      {
        assert board[r, f] == cells[8 * r + f];
        match board[r, f]
        case None =>
        case Some(q) =>
          if q.kind == piece.kind && q.color == piece.color {
            pieces := pieces + [q];
          }
      }
    }

    /** `get_en_passant_coord`. */
    function GetEnPassantCoord(): Option<Coord>
      reads this
    {
      enPassantTargetSquare
    }

    /** `get_en_passant_piece`. */
    function GetEnPassantPiece(): Option<P.Piece>
      reads this
    {
      enPassantTargetPiece
    }

    /** `set_en_passant_coord`: only the target square changes. */
    method SetEnPassantCoord(c: Coord)
      requires Valid()
      modifies this
      ensures Valid()
      ensures enPassantTargetSquare == Some(c)
      ensures enPassantTargetPiece == old(enPassantTargetPiece) && board == old(board) && cells == old(cells)
    {
      enPassantTargetSquare := Some(c);
    }

    /** `unset_en_passant_coord`: only the target square changes. */
    method UnsetEnPassantCoord()
      requires Valid()
      modifies this
      ensures Valid()
      ensures enPassantTargetSquare.None?
      ensures enPassantTargetPiece == old(enPassantTargetPiece) && board == old(board) && cells == old(cells)
    {
      enPassantTargetSquare := None;
    }

    /** `set_en_passant_piece`: only the target pawn changes. */
    method SetEnPassantPiece(piece: P.Piece)
      requires Valid()
      modifies this
      ensures Valid()
      ensures enPassantTargetPiece == Some(piece)
      ensures enPassantTargetSquare == old(enPassantTargetSquare) && board == old(board) && cells == old(cells)
    {
      enPassantTargetPiece := Some(piece);
    }

    /** `unset_en_passant_piece`: only the target pawn changes. */
    method UnsetEnPassantPiece()
      requires Valid()
      modifies this
      ensures Valid()
      ensures enPassantTargetPiece.None?
      ensures enPassantTargetSquare == old(enPassantTargetSquare) && board == old(board) && cells == old(cells)
    {
      enPassantTargetPiece := None;
    }

    /** `set_en_passant`: both the target square and the pawn are set, and
        the getters return them. */
    method SetEnPassant(c: Coord, piece: P.Piece)
      requires Valid()
      modifies this
      ensures Valid()
      ensures GetEnPassantCoord() == Some(c) && GetEnPassantPiece() == Some(piece)
      ensures board == old(board) && cells == old(cells)
    {
      SetEnPassantCoord(c);
      SetEnPassantPiece(piece);
    }

    /** `unset_en_passant`: both are cleared. */
    method UnsetEnPassant()
      requires Valid()
      modifies this
      ensures Valid()
      ensures GetEnPassantCoord().None? && GetEnPassantPiece().None?
      ensures board == old(board) && cells == old(cells)
    {
      UnsetEnPassantCoord();
      UnsetEnPassantPiece();
    }

    /** `set_coords`: every piece is tagged with the square of its cell;
        `Coord::new` cannot fail on indices below 8, so the result is `Ok`. */
    method SetCoords() returns (r: Result<()>)
      requires Valid()
      modifies this, board
      ensures Valid() && board == old(board)
      ensures enPassantTargetSquare == old(enPassantTargetSquare) && enPassantTargetPiece == old(enPassantTargetPiece)
      ensures r == Ok(()) && cells == BR.Retagged(old(cells))
    {
      ghost var s0 := cells;
      for rank := 0 to 8
        invariant board == old(board) && cells == s0
        invariant enPassantTargetSquare == old(enPassantTargetSquare) && enPassantTargetPiece == old(enPassantTargetPiece)
        invariant forall rr, ff | 0 <= rr < 8 && 0 <= ff < 8 ::
          board[rr, ff] == if rr < rank then BR.Retag(s0[8 * rr + ff], Coord(ff, rr)) else s0[8 * rr + ff]
      {
        for file := 0 to 8
          invariant board == old(board) && cells == s0
          invariant enPassantTargetSquare == old(enPassantTargetSquare) && enPassantTargetPiece == old(enPassantTargetPiece)
          invariant forall rr, ff | 0 <= rr < 8 && 0 <= ff < 8 ::
            board[rr, ff] == if rr < rank || (rr == rank && ff < file) then BR.Retag(s0[8 * rr + ff], Coord(ff, rr)) else s0[8 * rr + ff]
        {
          match board[rank, file]
          case None =>
          case Some(p) =>
            var c := New(file, rank);
            board[rank, file] := Some(P.SetCoord(p, c.value));
        }
      }
      cells := BR.Retagged(s0);
      forall rr, ff | 0 <= rr < 8 && 0 <= ff < 8
        ensures board[rr, ff] == cells[8 * rr + ff]
      {
        BR.SquareOfCell(rr, ff);
      }
      r := Ok(());
    }

    /** `get_top_coords` .. `get_bottom_left_coords`: while the counter is
        below `get_move_max`, take the next square in direction `d`; leaving
        the board ends the walk, an empty square is kept, and an occupied one
        ends it and is kept only when it holds the other colour. The indices
        are bytes: a step below 0 wraps to 255 and `Coord::new` rejects it
        like a step past 7. */
    method DirectionCoords(p: P.Piece, d: Direction) returns (coords: seq<Coord>)
      requires Valid()
      ensures coords == Ray(cells, p, d)
    {
      ghost var whole := Ray(cells, p, d);
      var fileIdx := Step(p.coord.file, DF(d));
      var rankIdx := Step(p.coord.rank, DR(d));
      var max := P.MoveMax(p.kind);
      BR.WalkingStart(cells, p, d);
      coords := [];
      var maxCounter := 0;
      ghost var left := max;
      while maxCounter < max
        invariant 0 <= maxCounter <= max && left == max - maxCounter
        invariant BR.Walking(cells, p.color, d, fileIdx, rankIdx, left, coords, whole)
      {
        var done;
        coords, done, fileIdx, rankIdx := WalkStep(p, d, fileIdx, rankIdx, coords, left, whole);
        if done {
          return;
        }
        maxCounter, left := maxCounter + 1, left - 1;
      }
      BR.WalkingOff(cells, p.color, d, fileIdx, rankIdx, 0, coords, whole);
    }

    /** One pass of a walker's loop body at the byte indices `fileIdx` and
        `rankIdx`: off the board the walk is `done`; an occupied square is
        kept for the other colour and ends it; an empty square is kept and
        the indices move one step in direction `d`. */
    method WalkStep(p: P.Piece, d: Direction, fileIdx: u8, rankIdx: u8, coords: seq<Coord>,
                    ghost budget: nat, ghost whole: seq<Coord>)
      returns (walked: seq<Coord>, done: bool, nextFile: u8, nextRank: u8)
      requires Valid() && budget > 0
      requires BR.Walking(cells, p.color, d, fileIdx, rankIdx, budget, coords, whole)
      ensures done ==> walked == whole
      ensures !done ==> BR.Walking(cells, p.color, d, nextFile, nextRank, budget - 1, walked, whole)
    {
      var next := New(fileIdx, rankIdx);
      if next.Err? {
        BR.WalkingOff(cells, p.color, d, fileIdx, rankIdx, budget, coords, whole);
        return coords, true, fileIdx, rankIdx;
      }
      var c := next.value;
      var occupant := GetPiece(c);
      if occupant.Some? {
        walked := coords;
        if !occupant.value.IsSameColor(p) {
          walked := walked + [c];
        }
        BR.WalkingBlocked(cells, p.color, d, fileIdx, rankIdx, budget, coords, whole);
        return walked, true, fileIdx, rankIdx;
      }
      BR.WalkingOpen(cells, p.color, d, fileIdx, rankIdx, budget, coords, whole);
      walked, done := coords + [c], false;
      nextFile, nextRank := Step(fileIdx, DF(d)), Step(rankIdx, DR(d));
    }

    /** The `coords.extend(..)` sequence of the ray generators: the walks of
        `ds`, one after the other. */
    method ExtendRays(p: P.Piece, ds: seq<Direction>) returns (coords: seq<Coord>)
      requires Valid()
      ensures coords == Rays(cells, p, ds)
    {
      coords := [];
      for k := 0 to |ds|
        invariant coords == Rays(cells, p, ds[..k])
      {
        var ray := DirectionCoords(p, ds[k]);
        BR.RaysSnoc(cells, p, ds, k);
        coords := coords + ray;
      }
      assert ds[..|ds|] == ds;
    }

    /** `get_king_move_coords`: the eight walks, top-left first, clockwise;
        with a move range of 1 these are the neighbouring squares. */
    method KingMoveCoords(p: P.Piece) returns (coords: seq<Coord>)
      requires Valid()
      ensures coords == Rays(cells, p, ALL_DIRECTIONS)
    {
      coords := ExtendRays(p, ALL_DIRECTIONS);
    }

    /** `get_queen_move_coords`: the eight walks, top-left first, clockwise. */
    method QueenMoveCoords(p: P.Piece) returns (coords: seq<Coord>)
      requires Valid()
      ensures coords == QueenTargets(cells, p)
    {
      coords := ExtendRays(p, ALL_DIRECTIONS);
    }

    /** `get_rook_move_coords`: top, right, bottom, left. */
    method RookMoveCoords(p: P.Piece) returns (coords: seq<Coord>)
      requires Valid()
      ensures coords == RookTargets(cells, p)
    {
      coords := ExtendRays(p, ROOK_DIRECTIONS);
    }

    /** `get_bishop_move_coords`: top-left, top-right, bottom-right, bottom-left. */
    method BishopMoveCoords(p: P.Piece) returns (coords: seq<Coord>)
      requires Valid()
      ensures coords == BishopTargets(cells, p)
    {
      coords := ExtendRays(p, BISHOP_DIRECTIONS);
    }

    /** `get_knight_move_coords`: the eight L-jumps in the source's order,
        each kept when `Coord::new` accepts it and it is empty or holds the
        other colour. */
    method KnightMoveCoords(p: P.Piece) returns (coords: seq<Coord>)
      requires Valid()
      ensures coords == KnightTargets(cells, p)
    {
      var jumps := KNIGHT_JUMPS;
      coords := [];
      for k := 0 to |jumps|
        invariant coords == JumpsUpTo(cells, p, jumps, k)
      {
        var here := JumpCoords(p, jumps[k]);
        coords := coords + here;
      }
      JumpsUpToSplit(cells, p, jumps, |jumps|);
      KnightTargetsList(cells, p);
    }

    /** One of the eight unrolled blocks of `get_knight_move_coords`: step
        the indices, validate with `Coord::new`, and keep the square when it
        is empty or holds the other colour. */
    method JumpCoords(p: P.Piece, j: (int, int)) returns (here: seq<Coord>)
      requires Valid() && -2 <= j.0 <= 2 && -2 <= j.1 <= 2
      ensures here == KnightJump(cells, p, j)
    {
      StepThenNew(p.coord, j.0, j.1);
      var next := New(Step(p.coord.file, j.0), Step(p.coord.rank, j.1));
      here := [];
      if next.Ok? {
        var c := next.value;
        var occupant := GetPiece(c);
        if occupant.Some? {
          if occupant.value.color != p.color {
            here := [c];
          }
        } else {
          here := [c];
        }
      }
    }

    /** A forward diagonal of a pawn, `df` files aside: kept when it holds
        the other colour, and again when it is the en passant target. */
    method CaptureCoords(p: P.Piece, df: int) returns (coords: seq<Coord>)
      requires Valid() && -1 <= df <= 1
      ensures coords == PawnCapture(cells, enPassantTargetSquare, p.color, Shift(p.coord, df, Forward(p.color)))
    {
      var fwd := Forward(p.color);
      StepThenNew(p.coord, df, fwd);
      var square := New(Step(p.coord.file, df), Step(p.coord.rank, fwd));
      coords := [];
      if square.Ok? {
        var c := square.value;
        var occupant := GetPiece(c);
        if occupant.Some? && occupant.value.color == p.color.Opposite() {
          coords := coords + [c];
        }
        if enPassantTargetSquare.Some? && c == enPassantTargetSquare.value {
          coords := coords + [c];
        }
      }
    }

    /** The forward moves of a pawn: one square when it is empty, two from
        the starting rank when both are empty. */
    method PushCoords(p: P.Piece) returns (coords: seq<Coord>)
      requires Valid()
      ensures var fwd := Forward(p.color);
        var one := Shift(p.coord, 0, fwd);
        var two := Shift(p.coord, 0, 2 * fwd);
        coords == (if one.Some? && At(cells, one.value).None? then [one.value] else [])
          + (if one.Some? && two.Some? && p.coord.rank == PawnStartRank(p.color)
               && At(cells, one.value).None? && At(cells, two.value).None? then [two.value] else [])
    {
      var fwd := Forward(p.color);
      StepThenNew(p.coord, 0, fwd);
      StepThenNew(p.coord, 0, 2 * fwd);
      var one := New(p.coord.file, Step(p.coord.rank, fwd));
      var two := New(p.coord.file, Step(p.coord.rank, 2 * fwd));
      coords := [];
      if one.Ok? && GetPiece(one.value).None? {
        coords := coords + [one.value];
      }
      if one.Ok? && two.Ok? && p.coord.rank == PawnStartRank(p.color)
         && GetPiece(one.value).None? && GetPiece(two.value).None? {
        coords := coords + [two.value];
      }
    }

    /** `get_pawn_move_coords`: the forward moves, then the left and right
        diagonals. White steps up with `+`, Black down with `wrapping_sub`;
        both branches are this one walk with the colour's direction. */
    method PawnMoveCoords(p: P.Piece) returns (coords: seq<Coord>)
      requires Valid()
      ensures coords == PawnTargets(cells, enPassantTargetSquare, p)
    {
      var pushes := PushCoords(p);
      var left := CaptureCoords(p, -1);
      var right := CaptureCoords(p, 1);
      coords := pushes + left + right;
    }

    /** `Piece::get_move_coords`: the generator of the piece's kind. */
    method MoveCoordsOf(p: P.Piece) returns (coords: seq<Coord>)
      requires Valid()
      ensures coords == MoveCoords(cells, enPassantTargetSquare, p)
    {
      match p.kind
      case King => coords := KingMoveCoords(p);
      case Queen => coords := QueenMoveCoords(p);
      case Rook => coords := RookMoveCoords(p);
      case Bishop => coords := BishopMoveCoords(p);
      case Knight => coords := KnightMoveCoords(p);
      case Pawn => coords := PawnMoveCoords(p);
    }

    /** The `pieces_can_move` loop of `apply_move`: the pieces, in order,
        whose move list contains the target square. */
    method PiecesCanMove(pieces: seq<P.Piece>, to: Coord) returns (canMove: seq<P.Piece>)
      requires Valid()
      ensures canMove == Kept(pieces, ReachesTarget(cells, enPassantTargetSquare, to))
    {
      ghost var keep := ReachesTarget(cells, enPassantTargetSquare, to);
      canMove := [];
      for k := 0 to |pieces|
        invariant canMove == Kept(pieces[..k], keep)
      {
        assert pieces[..k + 1][..k] == pieces[..k];
        var coords := MoveCoordsOf(pieces[k]);
        if to in coords {
          canMove := canMove + [pieces[k]];
        }
      }
      assert pieces[..|pieces|] == pieces;
    }

    /** `replace_piece`: the piece's own cell is emptied and the piece,
        tagged with the target square, is stored there. */
    method ReplacePiece(piece: P.Piece, to: Coord)
      requires Valid()
      modifies this, board
      ensures Valid() && board == old(board)
      ensures enPassantTargetSquare == old(enPassantTargetSquare) && enPassantTargetPiece == old(enPassantTargetPiece)
      ensures cells == BR.Relocated(old(cells), piece, to)
    {
      var from := piece.coord;
      var moved := P.SetCoord(piece, to);
      SetCell(from, None);
      SetCell(to, Some(moved));
    }

    /** `self.board[rank][file] = cell`. */
    method SetCell(c: Coord, cell: Cell)
      requires Valid()
      modifies this, board
      ensures Valid() && board == old(board)
      ensures enPassantTargetSquare == old(enPassantTargetSquare) && enPassantTargetPiece == old(enPassantTargetPiece)
      ensures cells == old(cells)[ToIndex(c) := cell]
    {
      board[c.rank, c.file] := cell;
      cells := cells[ToIndex(c) := cell];
      forall r, f | 0 <= r < 8 && 0 <= f < 8
        ensures board[r, f] == cells[8 * r + f]
      {
        BR.ToIndexInjective(Coord(f, r), c);
      }
    }

    /** `apply_move`: no move, or a move without a piece, is refused; so is
        a move that no piece or more than one piece of its kind and colour
        can make, and a refused move leaves the board alone. With exactly
        one candidate, that piece is relocated. */
    method ApplyMove(current: Option<MoveRequest>) returns (r: Result<()>)
      requires Valid()
      modifies this, board
      ensures Valid() && board == old(board)
      ensures enPassantTargetSquare == old(enPassantTargetSquare) && enPassantTargetPiece == old(enPassantTargetPiece)
      ensures (current.None? || current.value.piece.None?) ==> r == Err(InvalidMove) && cells == old(cells)
      ensures current.Some? && current.value.piece.Some? ==>
        var cands := Candidates(old(cells), old(enPassantTargetSquare), current.value.piece.value, current.value.toCoord);
        if |cands| == 1 then r == Ok(()) && cells == BR.Relocated(old(cells), cands[0], current.value.toCoord)
        else r == Err(InvalidMove) && cells == old(cells)
    {
      if current.None? {
        return Err(InvalidMove);
      }
      var mv := current.value;
      if mv.piece.None? {
        return Err(InvalidMove);
      }
      var pieces := GetPieces(mv.piece.value);
      var canMove := PiecesCanMove(pieces, mv.toCoord);
      if |canMove| == 0 {
        r := Err(InvalidMove);
      } else if |canMove| == 1 {
        ReplacePiece(canMove[0], mv.toCoord);
        r := Ok(());
      } else {
        r := Err(InvalidMove);
      }
    }
  }
}
