// What the move generators of lib/chui_core/src/modules/board.rs give on the
// two boards its tests use: a single piece on the empty board, and the
// standard setup.

module BoardTargets {
  import opened Errors
  import opened Coordinate
  import P = Piece
  import opened Geometry

  /** The empty board with `p` put on its own square. */
  function LoneBoard(p: P.Piece): (s: Squares)
    ensures At(s, p.coord) == Some(p)
    ensures forall x :: x != p.coord ==> At(s, x).None?
  {
    forall x | x != p.coord
      ensures ToIndex(x) != ToIndex(p.coord)
    {
      CoordIndexRoundTrip(x);
      CoordIndexRoundTrip(p.coord);
    }
    EmptySquares()[ToIndex(p.coord) := Some(p)]
  }

  /** The squares from (f, r) on in direction `d`, at most `budget` of them,
      up to the edge of the board: the ray of a piece with nothing in its
      way. */
  function OpenRay(f: int, r: int, d: Direction, budget: nat): (ray: seq<Coord>)
    decreases budget
  {
    if budget == 0 || !(0 <= f < 8 && 0 <= r < 8) then []
    else [Coord(f, r)] + OpenRay(f + DF(d), r + DR(d), d, budget - 1)
  }

  /** A ray over squares that are all empty runs to the edge or to its
      budget. */
  lemma {:induction false} EmptyRay(s: Squares, color: P.Color, d: Direction, f: int, r: int, budget: nat)
    requires forall c :: c in OpenRay(f, r, d, budget) ==> At(s, c).None?
    ensures RayFrom(s, color, d, f, r, budget) == OpenRay(f, r, d, budget)
    decreases budget
  {
    if budget > 0 && 0 <= f < 8 && 0 <= r < 8 {
      OpenRayStep(f, r, d, budget);
      assert Coord(f, r) in OpenRay(f, r, d, budget);
      RayStep(s, color, d, f, r, budget);
      EmptyRay(s, color, d, f + DF(d), r + DR(d), budget - 1);
    }
  }

  /** The open ray from the square `j >= 1` steps away from `c0` never comes
      back to `c0`. */
  lemma {:induction false} LoneRayFrom(c0: Coord, d: Direction, f: int, r: int, budget: nat, j: nat)
    requires j >= 1 && f == Along(c0.file, DF(d), j) && r == Along(c0.rank, DR(d), j)
    ensures c0 !in OpenRay(f, r, d, budget)
    decreases budget
  {
    if budget > 0 && 0 <= f < 8 && 0 <= r < 8 {
      AlongLeaves(c0, d, j);
      OpenRayStep(f, r, d, budget);
      LoneRayFrom(c0, d, f + DF(d), r + DR(d), budget - 1, j + 1);
    }
  }

  /** Every square but `c0` of a board holding only `c0` is empty. */
  lemma LoneAway(s: Squares, c0: Coord, c: Coord)
    requires forall x :: x != c0 ==> At(s, x).None?
    requires c != c0
    ensures At(s, c).None?
  {
  }

  /** An empty square on the board is kept and the ray goes on past it. */
  lemma RayStep(s: Squares, color: P.Color, d: Direction, f: int, r: int, budget: nat)
    requires budget > 0 && 0 <= f < 8 && 0 <= r < 8 && At(s, Coord(f, r)).None?
    ensures RayFrom(s, color, d, f, r, budget) == [Coord(f, r)] + RayFrom(s, color, d, f + DF(d), r + DR(d), budget - 1)
  {
  }

  /** The open ray keeps every square on the board. */
  lemma OpenRayStep(f: int, r: int, d: Direction, budget: nat)
    requires budget > 0 && 0 <= f < 8 && 0 <= r < 8
    ensures OpenRay(f, r, d, budget) == [Coord(f, r)] + OpenRay(f + DF(d), r + DR(d), d, budget - 1)
  {
  }

  /** A square `j >= 1` steps from `c0` in a direction is not `c0`, and one
      more step leads to the square `j + 1` steps away. */
  lemma AlongLeaves(c0: Coord, d: Direction, j: nat)
    requires j >= 1
    ensures Along(c0.file, DF(d), j) != c0.file || Along(c0.rank, DR(d), j) != c0.rank
    ensures Along(c0.file, DF(d), j) + DF(d) == Along(c0.file, DF(d), j + 1)
    ensures Along(c0.rank, DR(d), j) + DR(d) == Along(c0.rank, DR(d), j + 1)
  {
  }

  /** On a board where `p` stands alone, its ray in each direction is the
      open ray. */
  lemma LoneRay(s: Squares, p: P.Piece, d: Direction)
    requires forall x :: x != p.coord ==> At(s, x).None?
    ensures Ray(s, p, d) == OpenRay(p.coord.file + DF(d), p.coord.rank + DR(d), d, P.MoveMax(p.kind))
  {
    var f, r, budget := p.coord.file + DF(d), p.coord.rank + DR(d), P.MoveMax(p.kind);
    LoneRayFrom(p.coord, d, f, r, budget, 1);
    forall c | c in OpenRay(f, r, d, budget)
      ensures At(s, c).None?
    {
      LoneAway(s, p.coord, c);
    }
    EmptyRay(s, p.color, d, f, r, budget);
  }

  /** The rays in four directions, unrolled. */
  lemma FourRays(s: Squares, p: P.Piece, ds: seq<Direction>)
    requires |ds| == 4
    ensures Rays(s, p, ds) == Ray(s, p, ds[0]) + (Ray(s, p, ds[1]) + (Ray(s, p, ds[2]) + Ray(s, p, ds[3])))
  {
    assert ds[3..][1..] == [];
    assert ds[2..][1..] == ds[3..];
    assert ds[1..][1..] == ds[2..];
    assert Rays(s, p, ds[3..]) == Ray(s, p, ds[3]) + Rays(s, p, []);
    assert Rays(s, p, ds[2..]) == Ray(s, p, ds[2]) + Rays(s, p, ds[3..]);
    assert Rays(s, p, ds[1..]) == Ray(s, p, ds[1]) + Rays(s, p, ds[2..]);
  }

  /** A rook collects its rays upward, rightward, downward and leftward, in
      that order. */
  lemma RookRays(s: Squares, p: P.Piece)
    ensures RookTargets(s, p) == Ray(s, p, Top) + (Ray(s, p, Right) + (Ray(s, p, Bottom) + Ray(s, p, Left)))
  {
    assert ROOK_DIRECTIONS[0] == Top && ROOK_DIRECTIONS[1] == Right;
    assert ROOK_DIRECTIONS[2] == Bottom && ROOK_DIRECTIONS[3] == Left;
    FourRays(s, p, ROOK_DIRECTIONS);
  }

  /** A bishop collects its rays up-left, up-right, down-right and down-left,
      in that order. */
  lemma BishopRays(s: Squares, p: P.Piece)
    ensures BishopTargets(s, p) ==
      Ray(s, p, TopLeft) + (Ray(s, p, TopRight) + (Ray(s, p, BottomRight) + Ray(s, p, BottomLeft)))
  {
    assert BISHOP_DIRECTIONS[0] == TopLeft && BISHOP_DIRECTIONS[1] == TopRight;
    assert BISHOP_DIRECTIONS[2] == BottomRight && BISHOP_DIRECTIONS[3] == BottomLeft;
    FourRays(s, p, BISHOP_DIRECTIONS);
  }

  /** The squares from e4 to the edge of the board in direction `d`, nearest
      first. */
  function E4Ray(d: Direction): seq<Coord>
  {
    match d
    case TopLeft => [Coord(3, 4), Coord(2, 5), Coord(1, 6), Coord(0, 7)]
    case Top => [Coord(4, 4), Coord(4, 5), Coord(4, 6), Coord(4, 7)]
    case TopRight => [Coord(5, 4), Coord(6, 5), Coord(7, 6)]
    case Right => [Coord(5, 3), Coord(6, 3), Coord(7, 3)]
    case BottomRight => [Coord(5, 2), Coord(6, 1), Coord(7, 0)]
    case Bottom => [Coord(4, 2), Coord(4, 1), Coord(4, 0)]
    case BottomLeft => [Coord(3, 2), Coord(2, 1), Coord(1, 0)]
    case Left => [Coord(3, 3), Coord(2, 3), Coord(1, 3), Coord(0, 3)]
  }

  /** Seven steps from e4 reach the edge in every direction. */
  lemma OpenRayE4(d: Direction, f: int, r: int, budget: nat)
    requires f == 4 + DF(d) && r == 3 + DR(d) && budget == 7
    ensures OpenRay(f, r, d, budget) == E4Ray(d)
  {
    match d
    case TopLeft => assert OpenRay(3, 4, TopLeft, 7) == E4Ray(TopLeft);
    case Top => assert OpenRay(4, 4, Top, 7) == E4Ray(Top);
    case TopRight => assert OpenRay(5, 4, TopRight, 7) == E4Ray(TopRight);
    case Right => assert OpenRay(5, 3, Right, 7) == E4Ray(Right);
    case BottomRight => assert OpenRay(5, 2, BottomRight, 7) == E4Ray(BottomRight);
    case Bottom => assert OpenRay(4, 2, Bottom, 7) == E4Ray(Bottom);
    case BottomLeft => assert OpenRay(3, 2, BottomLeft, 7) == E4Ray(BottomLeft);
    case Left => assert OpenRay(3, 3, Left, 7) == E4Ray(Left);
  }

  /** A long-range piece alone on e4 slides to the edge in every direction. */
  lemma LoneE4Ray(s: Squares, p: P.Piece, d: Direction)
    requires p.coord == Coord(4, 3) && P.MoveMax(p.kind) == 7
    requires forall x :: x != p.coord ==> At(s, x).None?
    ensures Ray(s, p, d) == E4Ray(d)
  {
    LoneRay(s, p, d);
    OpenRayE4(d, p.coord.file + DF(d), p.coord.rank + DR(d), P.MoveMax(p.kind));
  }

  /** A rook alone on e4 reaches the 14 squares of its file and rank, listed
      up, right, down and left in the generator's order (the source's test
      compares them as a set). This holds on every board on which nothing
      else stands, `LoneBoard` among them. */
  lemma LoneRookE4(s: Squares, rook: P.Piece)
    requires rook.kind == P.Rook && rook.coord == Coord(4, 3)
    requires forall x :: x != rook.coord ==> At(s, x).None?
    ensures RookTargets(s, rook) == E4Ray(Top) + E4Ray(Right) + E4Ray(Bottom) + E4Ray(Left)
    ensures |RookTargets(s, rook)| == 14
  {
    RookRays(s, rook);
    LoneE4Ray(s, rook, Top);
    LoneE4Ray(s, rook, Right);
    LoneE4Ray(s, rook, Bottom);
    LoneE4Ray(s, rook, Left);
  }

  /** A bishop alone on e4 reaches the 13 squares of its diagonals, listed
      ray by ray in the generator's order (the source's test compares them
      as a set). */
  lemma LoneBishopE4(s: Squares, bishop: P.Piece)
    requires bishop.kind == P.Bishop && bishop.coord == Coord(4, 3)
    requires forall x :: x != bishop.coord ==> At(s, x).None?
    ensures BishopTargets(s, bishop) == E4Ray(TopLeft) + E4Ray(TopRight) + E4Ray(BottomRight) + E4Ray(BottomLeft)
    ensures |BishopTargets(s, bishop)| == 13
  {
    BishopRays(s, bishop);
    LoneE4Ray(s, bishop, TopLeft);
    LoneE4Ray(s, bishop, TopRight);
    LoneE4Ray(s, bishop, BottomRight);
    LoneE4Ray(s, bishop, BottomLeft);
  }

  /** The eight squares a knight's jump away from e4. */
  const E4_KNIGHT_SQUARES: seq<Coord> :=
    [Coord(3, 5), Coord(3, 1), Coord(2, 4), Coord(2, 2), Coord(5, 5), Coord(5, 1), Coord(6, 4), Coord(6, 2)]

  /** The squares a knight's jump away from e4 are those eight. */
  lemma KnightJumpsE4(x: Coord)
    ensures IsKnightJump(Coord(4, 3), x) <==> x in E4_KNIGHT_SQUARES
  {
    if IsKnightJump(Coord(4, 3), x) {
      var df, dr := x.file - 4, x.rank - 3;
      if df == 1 && dr == 2 { assert x == E4_KNIGHT_SQUARES[4]; }
      else if df == 1 { assert x == E4_KNIGHT_SQUARES[5]; }
      else if df == -1 && dr == 2 { assert x == E4_KNIGHT_SQUARES[0]; }
      else if df == -1 { assert x == E4_KNIGHT_SQUARES[1]; }
      else if df == 2 && dr == 1 { assert x == E4_KNIGHT_SQUARES[6]; }
      else if df == 2 { assert x == E4_KNIGHT_SQUARES[7]; }
      else if dr == 1 { assert x == E4_KNIGHT_SQUARES[2]; }
      else { assert x == E4_KNIGHT_SQUARES[3]; }
    }
  }

  /** A knight alone on e4 reaches the eight squares a knight's jump away,
      as the source's test expects. */
  lemma LoneKnightE4(s: Squares, knight: P.Piece, x: Coord)
    requires knight.kind == P.Knight && knight.coord == Coord(4, 3)
    requires forall y :: y != knight.coord ==> At(s, y).None?
    ensures x in KnightTargets(s, knight) <==> x in E4_KNIGHT_SQUARES
  {
    KnightJumpsE4(x);
    if IsKnightJump(knight.coord, x) {
      assert x != knight.coord;
      assert At(s, x).None?;
    }
  }

  /** Rays that are all empty add up to nothing. */
  lemma {:induction false} HemmedRays(s: Squares, p: P.Piece, ds: seq<Direction>)
    requires forall i | 0 <= i < |ds| :: Ray(s, p, ds[i]) == []
    ensures Rays(s, p, ds) == []
  {
    if ds != [] {
      assert Ray(s, p, ds[0]) == [];
      HemmedRays(s, p, ds[1..]);
    }
  }

  /** The rank index of a colour's back row in the standard setup. */
  function BackRow(color: P.Color): Index
  {
    if color == P.White then 0 else 7
  }

  /** On the standard setup every square next to a back-row square is off
      the board or held by the same colour, so a piece there has no ray. */
  lemma StandardBackRowRay(color: P.Color, f: Index, kind: P.PieceKind, d: Direction)
    ensures Ray(StandardSquares(), P.New(kind, color, Coord(f, BackRow(color))), d) == []
  {
    var s := StandardSquares();
    var nf, nr := f + DF(d), BackRow(color) + DR(d);
    if 0 <= nf < 8 && 0 <= nr < 8 {
      assert At(s, Coord(nf, nr)).Some? && At(s, Coord(nf, nr)).value.color == color by {
        StandardLayout(Coord(nf, nr));
      }
    }
    RayHeldStart(s, color, d, nf, nr, P.MoveMax(kind));
  }

  /** A ray whose first square is off the board or held by the mover's own
      colour is empty. */
  lemma RayHeldStart(s: Squares, color: P.Color, d: Direction, f: int, r: int, budget: nat)
    requires 0 <= f < 8 && 0 <= r < 8 ==> At(s, Coord(f, r)).Some? && At(s, Coord(f, r)).value.color == color
    ensures RayFrom(s, color, d, f, r, budget) == []
  {
  }

  /** The rooks, bishops and queens of the standard setup have no move, as
      the source's tests expect. */
  lemma StandardSlidersHemmed(color: P.Color, f: Index, kind: P.PieceKind)
    ensures var p := P.New(kind, color, Coord(f, BackRow(color)));
      QueenTargets(StandardSquares(), p) == [] && RookTargets(StandardSquares(), p) == []
      && BishopTargets(StandardSquares(), p) == []
  {
    var p := P.New(kind, color, Coord(f, BackRow(color)));
    forall d | true
      ensures Ray(StandardSquares(), p, d) == []
    {
      StandardBackRowRay(color, f, kind, d);
    }
    HemmedRays(StandardSquares(), p, ALL_DIRECTIONS);
    HemmedRays(StandardSquares(), p, ROOK_DIRECTIONS);
    HemmedRays(StandardSquares(), p, BISHOP_DIRECTIONS);
  }

  /** The knights of the standard setup, on the b- and g-files, reach the
      two empty squares two ranks in front of them (a3 and c3 from b1, f3
      and h3 from g1, a6 and c6 from b8, f6 and h6 from g8), as the source's
      tests expect. */
  lemma StandardKnights(color: P.Color, f: Index, x: Coord)
    requires f == 1 || f == 6
    ensures var knight := P.New(P.Knight, color, Coord(f, BackRow(color)));
      x in KnightTargets(StandardSquares(), knight) <==>
        x.rank == (if color == P.White then 2 else 5) && (x.file == f - 1 || x.file == f + 1)
  {
    if color == P.White {
      StandardWhiteKnights(f, x);
    } else {
      StandardBlackKnights(f, x);
    }
  }

  lemma StandardWhiteKnights(f: Index, x: Coord)
    requires f == 1 || f == 6
    ensures x in KnightTargets(StandardSquares(), P.New(P.Knight, P.White, Coord(f, BackRow(P.White)))) <==>
      x.rank == 2 && (x.file == f - 1 || x.file == f + 1)
  {
    StandardLayout(x);
  }

  lemma StandardBlackKnights(f: Index, x: Coord)
    requires f == 1 || f == 6
    ensures x in KnightTargets(StandardSquares(), P.New(P.Knight, P.Black, Coord(f, BackRow(P.Black)))) <==>
      x.rank == 5 && (x.file == f - 1 || x.file == f + 1)
  {
    StandardLayout(x);
  }

  /** The pawns of the standard setup may advance one or two squares and
      capture nothing (a3 and a4 from a2, a6 and a5 from a7), as the
      source's tests expect. */
  lemma StandardPawns(color: P.Color, f: Index)
    ensures var rank := if color == P.White then 1 else 6;
      var fwd := Forward(color);
      PawnTargets(StandardSquares(), None, P.New(P.Pawn, color, Coord(f, rank)))
        == [Coord(f, rank + fwd), Coord(f, rank + 2 * fwd)]
  {
    if color == P.White {
      StandardWhitePawns(f);
    } else {
      StandardBlackPawns(f);
    }
  }

  /** The white pawns of the standard setup, on rank 2. */
  lemma StandardWhitePawns(f: Index)
    ensures PawnTargets(StandardSquares(), None, P.New(P.Pawn, P.White, Coord(f, 1)))
              == [Coord(f, 2), Coord(f, 3)]
  {
    StandardLayout(Coord(f, 2));
    StandardLayout(Coord(f, 3));
    if f > 0 {
      StandardLayout(Coord(f - 1, 2));
    }
    if f < 7 {
      StandardLayout(Coord(f + 1, 2));
    }
  }

  /** The black pawns of the standard setup, on rank 7. */
  lemma StandardBlackPawns(f: Index)
    ensures PawnTargets(StandardSquares(), None, P.New(P.Pawn, P.Black, Coord(f, 6)))
              == [Coord(f, 5), Coord(f, 4)]
  {
    StandardLayout(Coord(f, 5));
    StandardLayout(Coord(f, 4));
    if f > 0 {
      StandardLayout(Coord(f - 1, 5));
    }
    if f < 7 {
      StandardLayout(Coord(f + 1, 5));
    }
  }
}
