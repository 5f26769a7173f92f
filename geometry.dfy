// Move geometry shared by the 8x8 `Board` of `modules/board.rs` and the
// default methods of the `Position` trait: a position is read through
// `get_piece`, modelled here as a snapshot of the 64 cells indexed
// `8 * rank + file`. The sliding rays, the knight jumps, the pawn pushes and
// captures and the standard setup are written identically in both files and
// are defined once here.

module Geometry {
  import opened Errors
  import opened Coordinate
  import P = Piece

  type Cell = Option<P.Piece>

  /** The 64 cells of a position, rank by rank from a1 to h8. */
  type Squares = s: seq<Cell> | |s| == 64 witness seq(64, i => None)

  /** `get_piece`. */
  function At(s: Squares, c: Coord): Cell
  {
    s[ToIndex(c)]
  }

  predicate HoldsColor(s: Squares, c: Coord, color: P.Color)
  {
    At(s, c).Some? && At(s, c).value.color == color
  }

  /** The square `df` files and `dr` ranks away from `c`, if it is on the board. */
  function Shift(c: Coord, df: int, dr: int): (r: Option<Coord>)
    ensures r.Some? <==> 0 <= c.file + df < 8 && 0 <= c.rank + dr < 8
    ensures r.Some? ==> r.value.file == c.file + df && r.value.rank == c.rank + dr
  {
    if 0 <= c.file + df < 8 && 0 <= c.rank + dr < 8 then Some(Coord(c.file + df, c.rank + dr)) else None
  }

  /** One step of the source's index arithmetic: `x + d` going up and
      `x.wrapping_sub(-d)` going down. */
  function Step(x: u8, d: int): (y: u8)
    requires -2 <= d <= 2 && x + d < 256
    ensures y == if x + d < 0 then x + d + 256 else x + d
  {
    if d >= 0 then x + d else WrappingSub(x, -d)
  }

  /** Stepping a board index with wrap-around and validating with `Coord::new`
      finds exactly the squares `Shift` finds: a step below 0 wraps to 254 or 255
      and is rejected like a step past 7. */
  lemma StepThenNew(c: Coord, df: int, dr: int)
    requires -2 <= df <= 2 && -2 <= dr <= 2
    ensures New(Step(c.file, df), Step(c.rank, dr)).Ok? <==> Shift(c, df, dr).Some?
    ensures Shift(c, df, dr).Some? ==> New(Step(c.file, df), Step(c.rank, dr)).value == Shift(c, df, dr).value
  {
  }

  datatype Direction = TopLeft | Top | TopRight | Right | BottomRight | Bottom | BottomLeft | Left

  /** The file step of a direction: West is -1, East +1. */
  function DF(d: Direction): int
  {
    match d
    case TopLeft | BottomLeft | Left => -1
    case Top | Bottom => 0
    case TopRight | Right | BottomRight => 1
  }

  /** The rank step of a direction: South is -1, North +1. */
  function DR(d: Direction): int
  {
    match d
    case TopLeft | Top | TopRight => 1
    case Right | Left => 0
    case BottomRight | Bottom | BottomLeft => -1
  }

  /** The squares a piece of colour `color` can slide to from (f, r) onward in
      direction `d`, taking at most `budget` steps: empty squares are kept, the
      first occupied square ends the ray and is kept only if it holds the
      other colour, and leaving the board ends it. */
  function RayFrom(s: Squares, color: P.Color, d: Direction, f: int, r: int, budget: nat): (ray: seq<Coord>)
    decreases budget
  {
    if budget == 0 || !(0 <= f < 8 && 0 <= r < 8) then []
    else
      var c := Coord(f, r);
      match At(s, c)
      case Some(o) => if o.color != color then [c] else []
      case None => [c] + RayFrom(s, color, d, f + DF(d), r + DR(d), budget - 1)
  }

  /** A ray takes at most `budget` squares, starts at (f, r), passes only
      over empty squares and ends on a square not held by the mover's colour. */
  lemma {:induction false} RayFromShape(s: Squares, color: P.Color, d: Direction, f: int, r: int, budget: nat)
    decreases budget
    ensures var ray := RayFrom(s, color, d, f, r, budget);
      |ray| <= budget
      && (|ray| > 0 ==> ray[0].file == f && ray[0].rank == r && !HoldsColor(s, ray[|ray| - 1], color))
      && (forall i :: 0 <= i < |ray| - 1 ==> At(s, ray[i]).None?)
  {
    if budget > 0 && 0 <= f < 8 && 0 <= r < 8 && At(s, Coord(f, r)).None? {
      RayFromShape(s, color, d, f + DF(d), r + DR(d), budget - 1);
      var ray := RayFrom(s, color, d, f, r, budget);
      var rest := RayFrom(s, color, d, f + DF(d), r + DR(d), budget - 1);
      assert ray == [Coord(f, r)] + rest;
      forall i | 0 <= i < |ray| - 1
        ensures At(s, ray[i]).None?
      {
        if i > 0 {
          assert ray[i] == rest[i - 1];
        }
      }
    }
  }

  /** A ray stops early only for a reason: when it is shorter than its budget,
      the square after its last empty square (or its first square, if it is
      empty) is off the board or holds the mover's own colour. */
  lemma {:induction false} RayFromStops(s: Squares, color: P.Color, d: Direction, f: int, r: int, budget: nat)
    decreases budget
    ensures var ray := RayFrom(s, color, d, f, r, budget);
      |ray| == 0 && budget > 0 ==> !(0 <= f < 8 && 0 <= r < 8) || HoldsColor(s, Coord(f, r), color)
    ensures var ray := RayFrom(s, color, d, f, r, budget);
      0 < |ray| < budget && At(s, ray[|ray| - 1]).None? ==>
        (var last := ray[|ray| - 1];
         Shift(last, DF(d), DR(d)).None? || HoldsColor(s, Shift(last, DF(d), DR(d)).value, color))
  {
    if budget > 0 && 0 <= f < 8 && 0 <= r < 8 && At(s, Coord(f, r)).None? {
      var c := Coord(f, r);
      var ray := RayFrom(s, color, d, f, r, budget);
      var rest := RayFrom(s, color, d, f + DF(d), r + DR(d), budget - 1);
      assert ray == [c] + rest;
      if rest != [] {
        RayFromStops(s, color, d, f + DF(d), r + DR(d), budget - 1);
        assert ray[|ray| - 1] == rest[|rest| - 1];
      } else if |ray| < budget {
        RayFromEmpty(s, color, d, f + DF(d), r + DR(d), budget - 1);
        assert ray[|ray| - 1] == c;
      }
    }
  }

  /** A ray is empty, with budget left, only off the board or on a square of
      the mover's own colour. */
  lemma RayFromEmpty(s: Squares, color: P.Color, d: Direction, f: int, r: int, budget: nat)
    requires budget > 0 && RayFrom(s, color, d, f, r, budget) == []
    ensures !(0 <= f < 8 && 0 <= r < 8) || HoldsColor(s, Coord(f, r), color)
  {
  }

  /** `x` moved `i` times by `dx`, for a step of -1, 0 or 1. */
  function Along(x: int, dx: int, i: nat): int
  {
    if dx > 0 then x + i else if dx < 0 then x - i else x
  }

  /** Every square of a ray lies a whole number of steps from its start. */
  lemma {:induction false} RayFromAlong(s: Squares, color: P.Color, d: Direction, f: int, r: int, budget: nat, i: nat)
    requires i < |RayFrom(s, color, d, f, r, budget)|
    ensures RayFrom(s, color, d, f, r, budget)[i].file == Along(f, DF(d), i)
    ensures RayFrom(s, color, d, f, r, budget)[i].rank == Along(r, DR(d), i)
    decreases budget
  {
    var ray := RayFrom(s, color, d, f, r, budget);
    assert budget > 0 && 0 <= f < 8 && 0 <= r < 8;
    if i > 0 {
      var rest := RayFrom(s, color, d, f + DF(d), r + DR(d), budget - 1);
      assert At(s, Coord(f, r)).None? && ray == [Coord(f, r)] + rest;
      RayFromAlong(s, color, d, f + DF(d), r + DR(d), budget - 1, i - 1);
      assert ray[i] == rest[i - 1];
    }
  }

  /** `get_top_coords` .. `get_bottom_left_coords`: the ray of a piece in one
      direction, at most `get_move_max` squares long. */
  function Ray(s: Squares, p: P.Piece, d: Direction): seq<Coord>
  {
    RayFrom(s, p.color, d, p.coord.file + DF(d), p.coord.rank + DR(d), P.MoveMax(p.kind))
  }

  /** The rays of several directions, in order. */
  function Rays(s: Squares, p: P.Piece, ds: seq<Direction>): seq<Coord>
  {
    if ds == [] then [] else Ray(s, p, ds[0]) + Rays(s, p, ds[1..])
  }

  /** The order in which the queen and the king collect their rays. */
  const ALL_DIRECTIONS: seq<Direction> := [TopLeft, Top, TopRight, Right, BottomRight, Bottom, BottomLeft, Left]
  const ROOK_DIRECTIONS: seq<Direction> := [Top, Right, Bottom, Left]
  const BISHOP_DIRECTIONS: seq<Direction> := [TopLeft, TopRight, BottomRight, BottomLeft]

  /** The `k`-th square of a ray (counting from 0) is `k + 1` steps from the
      piece, and `k` is below the piece's move range. */
  lemma RayAlong(s: Squares, p: P.Piece, d: Direction, k: nat)
    requires k < |Ray(s, p, d)|
    ensures k < P.MoveMax(p.kind)
    ensures Ray(s, p, d)[k].file == Along(p.coord.file, DF(d), k + 1)
    ensures Ray(s, p, d)[k].rank == Along(p.coord.rank, DR(d), k + 1)
  {
    var f, r := p.coord.file + DF(d), p.coord.rank + DR(d);
    var ray := RayFrom(s, p.color, d, f, r, P.MoveMax(p.kind));
    assert Ray(s, p, d) == ray;
    RayFromShape(s, p.color, d, f, r, P.MoveMax(p.kind));
    RayFromAlong(s, p.color, d, f, r, P.MoveMax(p.kind), k);
    AlongStep(p.coord.file, DF(d), k);
    AlongStep(p.coord.rank, DR(d), k);
  }

  /** Starting one step further is one step more. */
  lemma AlongStep(x: int, dx: int, k: nat)
    requires -1 <= dx <= 1
    ensures Along(x + dx, dx, k) == Along(x, dx, k + 1)
  {
  }

  /** A ray of a piece that moves one square is that square, unless it is off
      the board or held by the piece's own colour. */
  lemma RayOfOneStep(s: Squares, p: P.Piece, d: Direction)
    requires P.MoveMax(p.kind) == 1
    ensures Ray(s, p, d) == match Shift(p.coord, DF(d), DR(d))
      case None => []
      case Some(c) => if HoldsColor(s, c, p.color) then [] else [c]
  {
  }

  /** A square is among several rays exactly when it is on one of them. */
  lemma {:induction false} InRays(s: Squares, p: P.Piece, ds: seq<Direction>, x: Coord)
    ensures x in Rays(s, p, ds) <==> exists i :: 0 <= i < |ds| && x in Ray(s, p, ds[i])
  {
    if ds != [] {
      InRays(s, p, ds[1..], x);
      if x in Rays(s, p, ds[1..]) {
        var i :| 0 <= i < |ds[1..]| && x in Ray(s, p, ds[1..][i]);
        assert x in Ray(s, p, ds[i + 1]);
      }
      if exists i :: 0 <= i < |ds| && x in Ray(s, p, ds[i]) {
        var i :| 0 <= i < |ds| && x in Ray(s, p, ds[i]);
        if i > 0 {
          assert x in Ray(s, p, ds[1..][i - 1]);
        }
      }
    }
  }

  /** Two distinct squares at most one file and one rank apart. */
  predicate IsKingStep(a: Coord, b: Coord)
  {
    a != b && -1 <= b.file - a.file <= 1 && -1 <= b.rank - a.rank <= 1
  }

  /** The direction that leads from `a` to a neighbouring square `b`. */
  function DirectionTo(a: Coord, b: Coord): (d: Direction)
    requires IsKingStep(a, b)
    ensures d in ALL_DIRECTIONS
    ensures DF(d) == b.file - a.file && DR(d) == b.rank - a.rank
  {
    var df, dr := b.file - a.file, b.rank - a.rank;
    if dr == 1 then (if df == -1 then TopLeft else if df == 0 then Top else TopRight)
    else if dr == 0 then (if df == 1 then Right else Left)
    else (if df == 1 then BottomRight else if df == 0 then Bottom else BottomLeft)
  }

  /** The eight one-square rays of a king are its neighbouring squares not
      held by its own colour. */
  lemma OneStepRays(s: Squares, p: P.Piece, x: Coord)
    requires P.MoveMax(p.kind) == 1
    ensures x in Rays(s, p, ALL_DIRECTIONS) <==> IsKingStep(p.coord, x) && !HoldsColor(s, x, p.color)
  {
    InRays(s, p, ALL_DIRECTIONS, x);
    if x in Rays(s, p, ALL_DIRECTIONS) {
      var i :| 0 <= i < 8 && x in Ray(s, p, ALL_DIRECTIONS[i]);
      OneStepRayIsStep(s, p, ALL_DIRECTIONS[i], x);
    }
    if IsKingStep(p.coord, x) && !HoldsColor(s, x, p.color) {
      var d := DirectionTo(p.coord, x);
      StepIsOneStepRay(s, p, d, x);
      var i :| 0 <= i < 8 && ALL_DIRECTIONS[i] == d;
      assert x in Ray(s, p, ALL_DIRECTIONS[i]);
    }
  }

  lemma OneStepRayIsStep(s: Squares, p: P.Piece, d: Direction, x: Coord)
    requires P.MoveMax(p.kind) == 1 && x in Ray(s, p, d)
    ensures IsKingStep(p.coord, x) && !HoldsColor(s, x, p.color)
  {
    RayOfOneStep(s, p, d);
  }

  lemma StepIsOneStepRay(s: Squares, p: P.Piece, d: Direction, x: Coord)
    requires P.MoveMax(p.kind) == 1 && IsKingStep(p.coord, x) && !HoldsColor(s, x, p.color)
    requires DF(d) == x.file - p.coord.file && DR(d) == x.rank - p.coord.rank
    ensures x in Ray(s, p, d)
  {
    RayOfOneStep(s, p, d);
  }

  /** `get_queen_move_coords`. */
  function QueenTargets(s: Squares, p: P.Piece): seq<Coord>
  {
    Rays(s, p, ALL_DIRECTIONS)
  }

  /** `get_rook_move_coords`. */
  function RookTargets(s: Squares, p: P.Piece): seq<Coord>
  {
    Rays(s, p, ROOK_DIRECTIONS)
  }

  /** `get_bishop_move_coords`. */
  function BishopTargets(s: Squares, p: P.Piece): seq<Coord>
  {
    Rays(s, p, BISHOP_DIRECTIONS)
  }

  /** The eight L-shaped offsets, in the order the knight generator tries them. */
  const KNIGHT_JUMPS: seq<(int, int)> := [(1, 2), (1, -2), (-1, 2), (-1, -2), (2, 1), (2, -1), (-2, 1), (-2, -1)]

  /** Two squares are a knight's jump apart: one file and two ranks, or two
      files and one rank. */
  predicate IsKnightJump(a: Coord, b: Coord)
  {
    var df := b.file - a.file;
    var dr := b.rank - a.rank;
    ((df == 1 || df == -1) && (dr == 2 || dr == -2)) || ((df == 2 || df == -2) && (dr == 1 || dr == -1))
  }

  /** The jump squares among `jumps` that are on the board and not held by
      the knight's own colour. */
  function JumpsFrom(s: Squares, p: P.Piece, jumps: seq<(int, int)>): (r: seq<Coord>)
    ensures forall c :: c in r <==>
      (exists j :: j in jumps && Shift(p.coord, j.0, j.1) == Some(c)) && !HoldsColor(s, c, p.color)
  {
    if jumps == [] then []
    else
      var here := match Shift(p.coord, jumps[0].0, jumps[0].1)
        case None => []
        case Some(c) => if HoldsColor(s, c, p.color) then [] else [c];
      here + JumpsFrom(s, p, jumps[1..])
  }

  /** `get_knight_move_coords`: the on-board L-squares not held by the
      knight's own colour. */
  function KnightTargets(s: Squares, p: P.Piece): (r: seq<Coord>)
    ensures forall c :: c in r <==> IsKnightJump(p.coord, c) && !HoldsColor(s, c, p.color)
  {
    var r := JumpsFrom(s, p, KNIGHT_JUMPS);
    forall c ensures c in r <==> IsKnightJump(p.coord, c) && !HoldsColor(s, c, p.color) {
      KnightJumpOffsets(p.coord, c);
    }
    r
  }

  /** The offsets of `KNIGHT_JUMPS` lead from a square to exactly its
      knight's-jump squares. */
  lemma KnightJumpOffsets(a: Coord, b: Coord)
    ensures IsKnightJump(a, b) <==> exists j :: j in KNIGHT_JUMPS && Shift(a, j.0, j.1) == Some(b)
  {
    var j := (b.file - a.file, b.rank - a.rank);
    if IsKnightJump(a, b) {
      KnightOffsetListed(j);
      assert Shift(a, j.0, j.1) == Some(b);
    }
    forall k | k in KNIGHT_JUMPS && Shift(a, k.0, k.1) == Some(b)
      ensures IsKnightJump(a, b)
    {
      KnightOffsetShape(k);
    }
  }

  /** Every L-shaped offset is one of `KNIGHT_JUMPS`. */
  lemma KnightOffsetListed(j: (int, int))
    requires ((j.0 == 1 || j.0 == -1) && (j.1 == 2 || j.1 == -2)) || ((j.0 == 2 || j.0 == -2) && (j.1 == 1 || j.1 == -1))
    ensures j in KNIGHT_JUMPS
  {
  }

  /** Every offset of `KNIGHT_JUMPS` is L-shaped. */
  lemma KnightOffsetShape(j: (int, int))
    requires j in KNIGHT_JUMPS
    ensures ((j.0 == 1 || j.0 == -1) && (j.1 == 2 || j.1 == -2)) || ((j.0 == 2 || j.0 == -2) && (j.1 == 1 || j.1 == -1))
  {
  }

  /** The rank step of a pawn: White moves up, Black down. */
  function Forward(color: P.Color): int
  {
    if color == P.White then 1 else -1
  }

  /** The rank index from which a pawn may advance two squares. */
  function PawnStartRank(color: P.Color): Index
  {
    if color == P.White then 1 else 6
  }

  /** A diagonal square is a target when it holds the other colour or is the
      en passant square; both tests push, so a square passing both is listed
      twice. */
  function PawnCapture(s: Squares, ep: Option<Coord>, color: P.Color, sq: Option<Coord>): seq<Coord>
  {
    match sq
    case None => []
    case Some(c) =>
      (if HoldsColor(s, c, color.Opposite()) then [c] else [])
      + (if ep == Some(c) then [c] else [])
  }

  /** `get_pawn_move_coords`: one square forward if it is empty, two from the
      starting rank if both are empty, and the two forward diagonals by
      capture or en passant. */
  function PawnTargets(s: Squares, ep: Option<Coord>, p: P.Piece): seq<Coord>
  {
    var fwd := Forward(p.color);
    PawnPushOne(s, p) + PawnPushTwo(s, p)
    + PawnCapture(s, ep, p.color, Shift(p.coord, -1, fwd))
    + PawnCapture(s, ep, p.color, Shift(p.coord, 1, fwd))
  }

  /** The single push: the square ahead, when it is on the board and empty. */
  function PawnPushOne(s: Squares, p: P.Piece): seq<Coord>
  {
    var one := Shift(p.coord, 0, Forward(p.color));
    if one.Some? && At(s, one.value).None? then [one.value] else []
  }

  /** The double push: from the starting rank, when both squares ahead are empty. */
  function PawnPushTwo(s: Squares, p: P.Piece): seq<Coord>
  {
    var fwd := Forward(p.color);
    var one := Shift(p.coord, 0, fwd);
    var two := Shift(p.coord, 0, 2 * fwd);
    if one.Some? && two.Some? && p.coord.rank == PawnStartRank(p.color)
      && At(s, one.value).None? && At(s, two.value).None? then [two.value] else []
  }

  /** What `get_pawn_move_coords` lets a pawn reach, square by square. */
  predicate PawnReaches(s: Squares, ep: Option<Coord>, p: P.Piece, c: Coord)
  {
    var fwd := Forward(p.color);
    (c.file == p.coord.file && c.rank == p.coord.rank + fwd && At(s, c).None?)
    || (c.file == p.coord.file && p.coord.rank == PawnStartRank(p.color) && c.rank == p.coord.rank + 2 * fwd
        && At(s, c).None? && At(s, Coord(c.file, p.coord.rank + fwd)).None?)
    || ((c.file == p.coord.file - 1 || c.file == p.coord.file + 1) && c.rank == p.coord.rank + fwd
        && (HoldsColor(s, c, p.color.Opposite()) || ep == Some(c)))
  }

  /** The pawn targets are exactly the squares `PawnReaches` describes. */
  lemma PawnTargetsReach(s: Squares, ep: Option<Coord>, p: P.Piece, c: Coord)
    ensures c in PawnTargets(s, ep, p) <==> PawnReaches(s, ep, p, c)
  {
    var fwd := Forward(p.color);
    PawnPushOneHas(s, p, c);
    PawnPushTwoHas(s, p, c);
    PawnCaptureHas(s, ep, p.color, p.coord, -1, fwd, c);
    PawnCaptureHas(s, ep, p.color, p.coord, 1, fwd, c);
  }

  /** The single push lists exactly the empty square ahead. */
  lemma PawnPushOneHas(s: Squares, p: P.Piece, c: Coord)
    ensures c in PawnPushOne(s, p) <==>
      c.file == p.coord.file && c.rank == p.coord.rank + Forward(p.color) && At(s, c).None?
  {
  }

  /** The double push lists exactly the square two ahead of the starting
      rank, when it and the square between are empty. */
  lemma PawnPushTwoHas(s: Squares, p: P.Piece, c: Coord)
    ensures c in PawnPushTwo(s, p) <==>
      (c.file == p.coord.file && p.coord.rank == PawnStartRank(p.color) && c.rank == p.coord.rank + 2 * Forward(p.color)
       && At(s, c).None? && At(s, Coord(c.file, p.coord.rank + Forward(p.color))).None?)
  {
    var one := Shift(p.coord, 0, Forward(p.color));
    if one.Some? && p.coord.rank == PawnStartRank(p.color) && c.file == p.coord.file && c.rank == p.coord.rank + 2 * Forward(p.color) {
      assert one.value == Coord(c.file, p.coord.rank + Forward(p.color));
    }
  }

  /** A diagonal capture lists exactly its own square, when that square holds
      the other colour or is the en passant square. */
  lemma PawnCaptureHas(s: Squares, ep: Option<Coord>, color: P.Color, from: Coord, df: int, dr: int, c: Coord)
    ensures c in PawnCapture(s, ep, color, Shift(from, df, dr)) <==>
      c.file == from.file + df && c.rank == from.rank + dr && (HoldsColor(s, c, color.Opposite()) || ep == Some(c))
  {
    if c.file == from.file + df && c.rank == from.rank + dr {
      assert Shift(from, df, dr) == Some(c);
    }
  }

  /** The kinds of the back row from the a-file to the h-file: R N B Q K B N R. */
  function BackRank(file: Index): P.PieceKind
  {
    match file
    case 0 => P.Rook
    case 1 => P.Knight
    case 2 => P.Bishop
    case 3 => P.Queen
    case 4 => P.King
    case 5 => P.Bishop
    case 6 => P.Knight
    case 7 => P.Rook
  }

  /** `standard_row_of_pieces`: the back row of one colour on a rank, each
      piece tagged with its own square; a rank index above 7 is an error. */
  function StandardRowOfPieces(color: P.Color, rank: u8): (r: Result<seq<Cell>>)
    ensures rank > 7 ==> r == Err(InvalidRank)
    ensures rank <= 7 ==> r.Ok? && |r.value| == 8
    ensures r.Ok? ==> forall f: Index :: (r.value[f].Some? && r.value[f].value.coord == Coord(f, rank)
      && r.value[f].value.color == color && r.value[f].value.kind == BackRank(f))
  {
    if rank <= 7 then Ok(seq(8, (f: int) requires 0 <= f < 8 => Some(P.New(BackRank(f), color, Coord(f, rank)))))
    else Err(InvalidRank)
  }

  /** The back row is symmetric about the queen and king files. */
  lemma BackRankSymmetric(f: Index)
    requires f != 3 && f != 4
    ensures BackRank(f) == BackRank(7 - f)
  {
  }

  /** The cell at index `i` of the standard setup. */
  function StandardCell(i: nat): Cell
    requires i < 64
  {
    var file, rank := i % 8, i / 8;
    if rank == 0 then Some(P.New(BackRank(file), P.White, Coord(file, 0)))
    else if rank == 1 then Some(P.New(P.Pawn, P.White, Coord(file, 1)))
    else if rank == 6 then Some(P.New(P.Pawn, P.Black, Coord(file, 6)))
    else if rank == 7 then Some(P.New(BackRank(file), P.Black, Coord(file, 7)))
    else None
  }

  /** The standard chess setup. */
  function StandardSquares(): Squares
  {
    seq(64, (i: int) requires 0 <= i < 64 => StandardCell(i))
  }

  /** A position with no pieces. */
  function EmptySquares(): (s: Squares)
    ensures forall c :: At(s, c).None?
  {
    seq(64, i => None)
  }

  /** The standard setup square by square: White's back row on rank index 0
      and pawns on 1, Black's pawns on 6 and back row on 7, ranks 2 to 5
      empty, and every piece tagged with its own square. */
  lemma StandardLayout(c: Coord)
    ensures c.rank == 0 ==> At(StandardSquares(), c) == Some(P.New(BackRank(c.file), P.White, c))
    ensures c.rank == 1 ==> At(StandardSquares(), c) == Some(P.New(P.Pawn, P.White, c))
    ensures 2 <= c.rank <= 5 ==> At(StandardSquares(), c).None?
    ensures c.rank == 6 ==> At(StandardSquares(), c) == Some(P.New(P.Pawn, P.Black, c))
    ensures c.rank == 7 ==> At(StandardSquares(), c) == Some(P.New(BackRank(c.file), P.Black, c))
  {
    CoordIndexRoundTrip(c);
    var i := ToIndex(c);
    assert i % 8 == c.file && i / 8 == c.rank;
  }

  /** The pieces of a row of cells from index `i` on that satisfy `keep`, in order. */
  function PiecesFrom(s: seq<Cell>, keep: P.Piece -> bool, i: nat): (r: seq<P.Piece>)
    requires i <= |s|
    decreases |s| - i
    ensures forall q :: q in r <==> exists j :: i <= j < |s| && s[j] == Some(q) && keep(q)
    ensures |r| <= |s| - i
  {
    if i == |s| then []
    else
      var rest := PiecesFrom(s, keep, i + 1);
      match s[i]
      case Some(q) => if keep(q) then [q] + rest else rest
      case None => rest
  }
}
