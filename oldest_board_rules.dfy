// The rules of the oldest `Board`, src/modules/board.rs: an 8x8 array of
// optional pieces indexed [rank][file] by `usize`, whose move generators
// walk a limited number of squares in a straight line and stop before the
// first occupied square (there are no captures), pair a vertical and a
// horizontal walk into a diagonal, and let knights and pawns land only on
// empty squares. The class of module OldestBoard is proved against these
// functions.

module OldestBoardRules {
  import opened Errors
  import P = Piece

  /** `ChessVariant`: only standard chess. */
  datatype ChessVariant = StandardChess

  /** A piece as this board stores it: kind, colour and the (file, rank)
      indices that `set_coords` and `replace_piece` write into it. */
  datatype Piece = Piece(kind: P.PieceKind, color: P.Color, file: nat, rank: nat)

  type Cell = Option<Piece>

  /** The 64 cells rank by rank: cell `8 * rank + file` is `board[rank][file]`. */
  type Cells = s: seq<Cell> | |s| == 64 witness seq(64, i => None)

  /** A (file, rank) pair of `usize` indices. */
  type Square = (nat, nat)

  /** A 32-bit unsigned integer: the type of a move's target indices. */
  type u32 = x: int | 0 <= x < 0x1_0000_0000

  /** The largest `usize` of a 64-bit build: what `0 - 1` wraps to. */
  const USIZE_MAX: nat := 0xFFFF_FFFF_FFFF_FFFF

  /** The fields of a `Move` the board reads: the piece to move and the
      target indices. */
  datatype Move = Move(piece: Option<Piece>, toIndex: (u32, u32))
  {
    /** The target as a pair of `usize` indices. */
    function Target(): Square
    {
      (toIndex.0, toIndex.1)
    }
  }

  /** The sideways walkers call `unwrap` on the piece of any move they are
      given, so a move without a piece must not reach them. */
  predicate HasPiece(cm: Option<Move>)
  {
    cm.Some? ==> cm.value.piece.Some?
  }

  function Min(a: nat, b: nat): nat
  {
    if a <= b then a else b
  }

  /** `get_piece`: nothing off the board, otherwise the stored cell. */
  function PieceAt(s: Cells, f: nat, r: nat): Cell
  {
    if f >= 8 || r >= 8 then None else s[8 * r + f]
  }

  /** Every piece on the board carries the indices of its own cell. */
  ghost predicate Placed(s: Cells)
  {
    forall i | 0 <= i < 64 && s[i].Some? ::
      s[i].value.file < 8 && s[i].value.rank < 8 && 8 * s[i].value.rank + s[i].value.file == i
  }

  /** A cell whose piece is tagged with the indices (f, r), as `set_coords`
      does to each occupied cell. */
  function Tag(c: Cell, f: nat, r: nat): Cell
  {
    match c
    case None => None
    case Some(p) => Some(Piece(p.kind, p.color, f, r))
  }

  // ---------------------------------------------------------------------
  // The standard layout.
  // ---------------------------------------------------------------------

  /** The kind of the back-row piece on file `f`: R N B Q K B N R. */
  function BackRank(f: nat): P.PieceKind
    requires f < 8
  {
    [P.Rook, P.Knight, P.Bishop, P.Queen, P.King, P.Bishop, P.Knight, P.Rook][f]
  }

  /** `Piece::new`: a piece whose indices `set_coords` overwrites later;
      they are taken to be (0, 0) here. */
  function NewPiece(kind: P.PieceKind, color: P.Color): Piece
  {
    Piece(kind, color, 0, 0)
  }

  /** `standard_row_of_pieces`: rook, knight, bishop, queen, king, bishop,
      knight, rook of one colour. */
  function StandardRowOfPieces(color: P.Color): (row: seq<Cell>)
    ensures |row| == 8
    ensures forall f | 0 <= f < 8 :: row[f] == Some(NewPiece(BackRank(f), color))
  {
    [Some(NewPiece(P.Rook, color)), Some(NewPiece(P.Knight, color)),
     Some(NewPiece(P.Bishop, color)), Some(NewPiece(P.Queen, color)),
     Some(NewPiece(P.King, color)), Some(NewPiece(P.Bishop, color)),
     Some(NewPiece(P.Knight, color)), Some(NewPiece(P.Rook, color))]
  }

  /** `new_standard_chess`: the rows from rank 1 to rank 8, before the
      pieces are tagged with their indices. */
  function NewStandardChess(): Cells
  {
    StandardRowOfPieces(P.White) + seq(8, _ => Some(NewPiece(P.Pawn, P.White)))
    + seq(32, _ => None)
    + seq(8, _ => Some(NewPiece(P.Pawn, P.Black))) + StandardRowOfPieces(P.Black)
  }

  /** The standard position, square by square: White's back row on rank
      index 0 and pawns on 1, Black's pawns on 6 and back row on 7, every
      piece carrying its own indices. */
  function StandardCell(f: nat, r: nat): Cell
    requires f < 8 && r < 8
  {
    if r == 0 then Some(Piece(BackRank(f), P.White, f, r))
    else if r == 1 then Some(Piece(P.Pawn, P.White, f, r))
    else if r == 6 then Some(Piece(P.Pawn, P.Black, f, r))
    else if r == 7 then Some(Piece(BackRank(f), P.Black, f, r))
    else None
  }

  /** A board holding the standard position. */
  ghost predicate IsStandard(s: Cells)
  {
    forall r, f | 0 <= r < 8 && 0 <= f < 8 :: s[8 * r + f] == StandardCell(f, r)
  }

  /** Tagging the rows of `new_standard_chess` with their indices gives the
      standard position. */
  lemma NewStandardTagged(f: nat, r: nat)
    requires f < 8 && r < 8
    ensures Tag(NewStandardChess()[8 * r + f], f, r) == StandardCell(f, r)
  {
    var s := NewStandardChess();
    var white := StandardRowOfPieces(P.White);
    var black := StandardRowOfPieces(P.Black);
    if r == 0 {
      assert s[8 * r + f] == white[f];
    } else if r == 7 {
      assert s[8 * r + f] == black[f];
    }
  }

  // ---------------------------------------------------------------------
  // Walks.
  // ---------------------------------------------------------------------

  /** The loop test of a walker moving by (df, dr): a counter that moves up
      must stay below 8, one that moves down must stay at or above 0. */
  predicate Inside(f: int, r: int, df: int, dr: int)
  {
    0 <= f && 0 <= r && (df > 0 ==> f < 8) && (dr > 0 ==> r < 8)
  }

  /** The squares a walker collects from (f, r) stepping by (df, dr): at
      most `budget` of them, while the loop test holds; without
      `ignore_pieces` the walk ends before the first occupied square. */
  function Line(s: Cells, f: int, r: int, df: int, dr: int, budget: nat, ignore: bool): seq<Square>
    decreases budget
  {
    if budget == 0 || !Inside(f, r, df, dr) then []
    else if ignore || PieceAt(s, f as nat, r as nat).None? then
      [(f as nat, r as nat)] + Line(s, f + df, r + dr, df, dr, budget - 1, ignore)
    else []
  }

  /** The square a walk that collected `line` from (f, r) would look at next. */
  function NextAfter(line: seq<Square>, f: int, r: int, df: int, dr: int): (int, int)
  {
    if line == [] then (f, r) else (line[|line| - 1].0 + df, line[|line| - 1].1 + dr)
  }

  /** A walk starts at (f, r) and moves one step of (df, dr) at a time. */
  lemma {:induction false} LineSteps(s: Cells, f: int, r: int, df: int, dr: int, budget: nat, ignore: bool)
    ensures var line := Line(s, f, r, df, dr, budget, ignore);
      && (line != [] ==> line[0].0 == f && line[0].1 == r)
      && (forall k | 0 <= k < |line| - 1 :: line[k + 1].0 == line[k].0 + df && line[k + 1].1 == line[k].1 + dr)
    decreases budget
  {
    var line := Line(s, f, r, df, dr, budget, ignore);
    if budget > 0 && Inside(f, r, df, dr) && (ignore || PieceAt(s, f as nat, r as nat).None?) {
      var tail := Line(s, f + df, r + dr, df, dr, budget - 1, ignore);
      LineSteps(s, f + df, r + dr, df, dr, budget - 1, ignore);
      assert line == [(f as nat, r as nat)] + tail;
      forall k | 0 <= k < |line| - 1
        ensures line[k + 1].0 == line[k].0 + df && line[k + 1].1 == line[k].1 + dr
      {
        assert line[k + 1] == tail[k];
        if k > 0 {
          assert line[k] == tail[k - 1];
        }
      }
    }
  }

  /** A walk collects at most `budget` squares, each within the loop test
      and, unless pieces are ignored, empty. */
  lemma {:induction false} LineSquares(s: Cells, f: int, r: int, df: int, dr: int, budget: nat, ignore: bool)
    ensures var line := Line(s, f, r, df, dr, budget, ignore);
      && |line| <= budget
      && forall k | 0 <= k < |line| ::
           Inside(line[k].0, line[k].1, df, dr) && (ignore || PieceAt(s, line[k].0, line[k].1).None?)
    decreases budget
  {
    var line := Line(s, f, r, df, dr, budget, ignore);
    if budget > 0 && Inside(f, r, df, dr) && (ignore || PieceAt(s, f as nat, r as nat).None?) {
      var tail := Line(s, f + df, r + dr, df, dr, budget - 1, ignore);
      LineSquares(s, f + df, r + dr, df, dr, budget - 1, ignore);
      assert line == [(f as nat, r as nat)] + tail;
      assert forall k | 1 <= k < |line| :: line[k] == tail[k - 1];
    }
  }

  /** A walk that collects fewer than `budget` squares stops at a square that
      fails the loop test or, unless pieces are ignored, is occupied. */
  lemma {:induction false} LineStops(s: Cells, f: int, r: int, df: int, dr: int, budget: nat, ignore: bool)
    ensures var line := Line(s, f, r, df, dr, budget, ignore);
      |line| < budget ==>
        var next := NextAfter(line, f, r, df, dr);
        !Inside(next.0, next.1, df, dr) || (!ignore && PieceAt(s, next.0 as nat, next.1 as nat).Some?)
    decreases budget
  {
    var line := Line(s, f, r, df, dr, budget, ignore);
    if budget > 0 && Inside(f, r, df, dr) && (ignore || PieceAt(s, f as nat, r as nat).None?) {
      var tail := Line(s, f + df, r + dr, df, dr, budget - 1, ignore);
      LineStops(s, f + df, r + dr, df, dr, budget - 1, ignore);
      assert line == [(f as nat, r as nat)] + tail;
      if tail != [] {
        assert line[|line| - 1] == tail[|tail| - 1];
      }
    }
  }

  /** A walk that starts inside the board on every axis it does not climb
      never leaves the board. */
  lemma {:induction false} LineOnBoard(s: Cells, f: int, r: int, df: int, dr: int, budget: nat, ignore: bool)
    requires (df <= 0 ==> f < 8) && (dr <= 0 ==> r < 8)
    ensures forall c | c in Line(s, f, r, df, dr, budget, ignore) :: c.0 < 8 && c.1 < 8
    decreases budget
  {
    if budget > 0 && Inside(f, r, df, dr) && (ignore || PieceAt(s, f as nat, r as nat).None?) {
      LineOnBoard(s, f + df, r + dr, df, dr, budget - 1, ignore);
    }
  }

  /** The state of a walker's loop: the squares collected so far followed by
      the rest of the walk from the counters are the whole walk. */
  ghost predicate Walking(s: Cells, f: int, r: int, df: int, dr: int, budget: nat, ignore: bool,
                          walked: seq<Square>, whole: seq<Square>)
  {
    walked + Line(s, f, r, df, dr, budget, ignore) == whole
  }

  /** Collecting the square under the counters and stepping on. */
  lemma WalkingOpen(s: Cells, f: int, r: int, df: int, dr: int, budget: nat, ignore: bool,
                    walked: seq<Square>, whole: seq<Square>)
    requires Walking(s, f, r, df, dr, budget, ignore, walked, whole)
    requires budget > 0 && Inside(f, r, df, dr) && (ignore || PieceAt(s, f as nat, r as nat).None?)
    ensures Walking(s, f + df, r + dr, df, dr, budget - 1, ignore, walked + [(f as nat, r as nat)], whole)
  {
    var rest := Line(s, f + df, r + dr, df, dr, budget - 1, ignore);
    assert walked + [(f as nat, r as nat)] + rest == walked + ([(f as nat, r as nat)] + rest);
  }

  /** A walk whose budget is spent, whose loop test fails or that meets an
      occupied square is complete. */
  lemma WalkingDone(s: Cells, f: int, r: int, df: int, dr: int, budget: nat, ignore: bool,
                    walked: seq<Square>, whole: seq<Square>)
    requires Walking(s, f, r, df, dr, budget, ignore, walked, whole)
    requires budget == 0 || !Inside(f, r, df, dr) || (!ignore && PieceAt(s, f as nat, r as nat).Some?)
    ensures walked == whole
  {
    assert Line(s, f, r, df, dr, budget, ignore) == [];
  }

  /** The limit after `get_right_coords` or `get_left_coords`: 2 when the
      current move's piece is a king, otherwise unchanged. */
  function LimitAfter(limit: nat, cm: Option<Move>): nat
    requires HasPiece(cm)
  {
    if cm.Some? && cm.value.piece.value.kind == P.King then 2 else limit
  }

  /** The `zip_*` functions: the rank of each vertical square with the file
      of the horizontal square beside it, in order, up to the shorter walk
      and before the first occupied square. */
  function Zip(s: Cells, vertical: seq<Square>, horizontal: seq<Square>): seq<Square>
    decreases |vertical|
  {
    if vertical == [] || horizontal == [] then []
    else if PieceAt(s, horizontal[0].0, vertical[0].1).Some? then []
    else [(horizontal[0].0, vertical[0].1)] + Zip(s, vertical[1..], horizontal[1..])
  }

  /** One pass of a `zip_*` loop at position `k` of both walks. */
  lemma ZipAt(s: Cells, vertical: seq<Square>, horizontal: seq<Square>, k: nat)
    requires k < |vertical| && k < |horizontal|
    ensures Zip(s, vertical[k..], horizontal[k..])
         == if PieceAt(s, horizontal[k].0, vertical[k].1).Some? then []
            else [(horizontal[k].0, vertical[k].1)] + Zip(s, vertical[k + 1..], horizontal[k + 1..])
  {
    assert vertical[k..][1..] == vertical[k + 1..];
    assert horizontal[k..][1..] == horizontal[k + 1..];
  }

  /** Zipping a vertical walk from (f, vr) with a horizontal walk from
      (hf, r), both ignoring pieces, is the diagonal walk from (hf, vr) that
      stops before the first occupied square, limited by the shorter
      budget. */
  lemma {:induction false} ZipLines(s: Cells, f: nat, r: nat, vr: int, hf: int, df: int, dr: int, a: nat, b: nat)
    ensures Zip(s, Line(s, f, vr, 0, dr, a, true), Line(s, hf, r, df, 0, b, true))
         == Line(s, hf, vr, df, dr, Min(a, b), false)
    decreases a
  {
    var vertical := Line(s, f, vr, 0, dr, a, true);
    var horizontal := Line(s, hf, r, df, 0, b, true);
    if a > 0 && b > 0 && Inside(f, vr, 0, dr) && Inside(hf, r, df, 0) {
      var vrest := Line(s, f, vr + dr, 0, dr, a - 1, true);
      var hrest := Line(s, hf + df, r, df, 0, b - 1, true);
      assert vertical[1..] == vrest;
      assert horizontal[1..] == hrest;
      ZipLines(s, f, r, vr + dr, hf + df, df, dr, a - 1, b - 1);
      assert Min(a - 1, b - 1) == Min(a, b) - 1;
    }
  }

  // ---------------------------------------------------------------------
  // Piece move coordinates.
  // ---------------------------------------------------------------------

  /** The eight walks of a king or queen from (f, r) in the source's order:
      top-left, top, top-right, right, bottom-right, bottom, bottom-left,
      left; diagonals, verticals and horizontals each with their own
      budget. */
  function EightWalks(s: Cells, f: nat, r: nat, diag: nat, vert: nat, horiz: nat): seq<Square>
  {
    Line(s, f - 1, r + 1, -1, 1, diag, false) + Line(s, f, r + 1, 0, 1, vert, false)
    + Line(s, f + 1, r + 1, 1, 1, diag, false) + Line(s, f + 1, r, 1, 0, horiz, false)
    + Line(s, f + 1, r - 1, 1, -1, diag, false) + Line(s, f, r - 1, 0, -1, vert, false)
    + Line(s, f - 1, r - 1, -1, -1, diag, false) + Line(s, f - 1, r, -1, 0, horiz, false)
  }

  /** `get_king_move_coords`: each walk gets its own limit of 1, except that
      the sideways walks of a king's move are widened to 2. */
  function KingCoords(s: Cells, f: nat, r: nat, cm: Option<Move>): seq<Square>
    requires HasPiece(cm)
  {
    EightWalks(s, f, r, 1, 1, LimitAfter(1, cm))
  }

  /** `get_queen_move_coords`: the eight walks share one limit of 8, which a
      king's move cuts to 2 at the first diagonal. */
  function QueenCoords(s: Cells, f: nat, r: nat, cm: Option<Move>): seq<Square>
    requires HasPiece(cm)
  {
    var m := LimitAfter(8, cm);
    EightWalks(s, f, r, m, m, m)
  }

  /** `get_rook_move_coords`: top with the limit 8, then right, bottom and
      left with the limit the right walk leaves behind. */
  function RookCoords(s: Cells, f: nat, r: nat, cm: Option<Move>): seq<Square>
    requires HasPiece(cm)
  {
    var m := LimitAfter(8, cm);
    Line(s, f, r + 1, 0, 1, 8, false) + Line(s, f + 1, r, 1, 0, m, false)
    + Line(s, f, r - 1, 0, -1, m, false) + Line(s, f - 1, r, -1, 0, m, false)
  }

  /** `get_bishop_move_coords`: the four diagonals, top-left, top-right,
      bottom-right, bottom-left, sharing the limit. */
  function BishopCoords(s: Cells, f: nat, r: nat, cm: Option<Move>): seq<Square>
    requires HasPiece(cm)
  {
    var m := LimitAfter(8, cm);
    Line(s, f - 1, r + 1, -1, 1, m, false) + Line(s, f + 1, r + 1, 1, 1, m, false)
    + Line(s, f + 1, r - 1, 1, -1, m, false) + Line(s, f - 1, r - 1, -1, -1, m, false)
  }

  /** One block of `get_knight_move_coords`: the jump is kept when its
      bounds test passes and the square is empty. */
  function Jump(s: Cells, f: nat, r: nat, j: (int, int)): seq<Square>
  {
    var nf := f + j.0;
    var nr := r + j.1;
    if Inside(nf, nr, j.0, j.1) && PieceAt(s, nf as nat, nr as nat).None? then [(nf as nat, nr as nat)] else []
  }

  /** `get_knight_move_coords`: its eight blocks, in order. */
  function KnightCoords(s: Cells, f: nat, r: nat): seq<Square>
  {
    Jump(s, f, r, (1, 2)) + Jump(s, f, r, (1, -2)) + Jump(s, f, r, (-1, 2)) + Jump(s, f, r, (-1, -2))
    + Jump(s, f, r, (2, 1)) + Jump(s, f, r, (2, -1)) + Jump(s, f, r, (-2, 1)) + Jump(s, f, r, (-2, -1))
  }

  function Abs(x: int): nat
  {
    if x < 0 then -x else x
  }

  /** A knight's step: one square on one axis and two on the other. */
  predicate IsKnightStep(f: nat, r: nat, c: Square)
  {
    (Abs(c.0 - f) == 1 && Abs(c.1 - r) == 2) || (Abs(c.0 - f) == 2 && Abs(c.1 - r) == 1)
  }

  /** A knight on the board reaches exactly the empty squares of the board
      a knight's step away. */
  lemma KnightTargets(s: Cells, f: nat, r: nat, c: Square)
    requires f < 8 && r < 8
    ensures c in KnightCoords(s, f, r) <==> c.0 < 8 && c.1 < 8 && IsKnightStep(f, r, c) && PieceAt(s, c.0, c.1).None?
  {
    JumpMember(s, f, r, (1, 2), c);
    JumpMember(s, f, r, (1, -2), c);
    JumpMember(s, f, r, (-1, 2), c);
    JumpMember(s, f, r, (-1, -2), c);
    JumpMember(s, f, r, (2, 1), c);
    JumpMember(s, f, r, (2, -1), c);
    JumpMember(s, f, r, (-2, 1), c);
    JumpMember(s, f, r, (-2, -1), c);
  }

  /** A jump from a square of the board holds its target exactly when the
      target is on the board and empty. */
  lemma JumpMember(s: Cells, f: nat, r: nat, j: (int, int), c: Square)
    requires f < 8 && r < 8
    ensures c in Jump(s, f, r, j) <==>
      c.0 == f + j.0 && c.1 == r + j.1 && c.0 < 8 && c.1 < 8 && PieceAt(s, c.0, c.1).None?
  {
  }

  /** `get_pawn_move_coords` as written: White steps up one square when it
      is on the board and empty, and two from rank index 1 when both are
      empty. Black steps down one square only when `rank_idx - 1 > 0`, so
      never onto rank index 0 (on rank index 0 the subtraction wraps in a
      release build), and two from rank index 6. */
  function PawnCoords(s: Cells, f: nat, r: nat, color: P.Color): seq<Square>
  {
    match color
    case White =>
      (if r + 1 < 8 && PieceAt(s, f, r + 1).None? then [(f, r + 1)] else [])
      + (if r == 1 && PieceAt(s, f, 2).None? && PieceAt(s, f, 3).None? then [(f, 3)] else [])
    case Black =>
      var down: nat := if r == 0 then USIZE_MAX else r - 1;
      (if down > 0 && PieceAt(s, f, down).None? then [(f, down)] else [])
      + (if r == 6 && PieceAt(s, f, 5).None? && PieceAt(s, f, 4).None? then [(f, 4)] else [])
  }

  /** `get_pawn_move_coords` with the black test `rank_idx > 0`, the
      evident mirror of White's `rank_idx + 1 < RANKS`. */
  function PawnCoordsIntended(s: Cells, f: nat, r: nat, color: P.Color): seq<Square>
  {
    match color
    case White => PawnCoords(s, f, r, P.White)
    case Black =>
      (if r > 0 && PieceAt(s, f, r - 1).None? then [(f, r - 1)] else [])
      + (if r == 6 && PieceAt(s, f, 5).None? && PieceAt(s, f, 4).None? then [(f, 4)] else [])
  }

  /** As written, a black pawn on rank index 1 never moves, even onto an
      empty square, while a white pawn on rank index 6 steps onto an empty
      rank index 7. */
  lemma BlackPawnStuck(s: Cells, f: nat)
    requires f < 8 && PieceAt(s, f, 0).None? && PieceAt(s, f, 7).None?
    ensures PawnCoords(s, f, 1, P.Black) == []
    ensures PawnCoords(s, f, 6, P.White) == [(f, 7)]
  {
  }

  /** With the intended test, a pawn of either colour on the board steps one
      square forward exactly when that square is on the board and empty. */
  lemma PawnStepIntended(s: Cells, f: nat, r: nat, color: P.Color)
    requires f < 8 && r < 8
    ensures color == P.White ==>
      ((f, r + 1) in PawnCoordsIntended(s, f, r, color) <==> r + 1 < 8 && PieceAt(s, f, r + 1).None?)
    ensures color == P.Black && r > 0 ==>
      ((f, r - 1) in PawnCoordsIntended(s, f, r, color) <==> PieceAt(s, f, r - 1).None?)
    ensures color == P.Black ==> (r > 0 && PieceAt(s, f, r - 1).None? <==> exists c :: c in PawnCoordsIntended(s, f, r, color) && c.1 + 1 == r)
  {
    if color == P.Black && r > 0 && PieceAt(s, f, r - 1).None? {
      assert (f, r - 1) in PawnCoordsIntended(s, f, r, color);
    }
  }

  /** `Piece::get_move_coords`: the generator of the piece's kind, called
      with the indices the piece carries. */
  function MoveCoords(s: Cells, p: Piece, cm: Option<Move>): seq<Square>
    requires HasPiece(cm)
  {
    match p.kind
    case King => KingCoords(s, p.file, p.rank, cm)
    case Queen => QueenCoords(s, p.file, p.rank, cm)
    case Rook => RookCoords(s, p.file, p.rank, cm)
    case Bishop => BishopCoords(s, p.file, p.rank, cm)
    case Knight => KnightCoords(s, p.file, p.rank)
    case Pawn => PawnCoords(s, p.file, p.rank, p.color)
  }

  /** Every target of a piece on the board is on the board, except the
      wrapped step of a black pawn on rank index 0. */
  lemma TargetsOnBoard(s: Cells, p: Piece, cm: Option<Move>)
    requires HasPiece(cm) && p.file < 8 && p.rank < 8
    ensures forall c | c in MoveCoords(s, p, cm) :: (c.0 < 8 && c.1 < 8) || c.1 == USIZE_MAX
  {
    var f, r := p.file, p.rank;
    match p.kind
    case Knight =>
      forall c | c in KnightCoords(s, f, r)
        ensures c.0 < 8 && c.1 < 8
      {
        KnightTargets(s, f, r, c);
      }
    case Pawn =>
    case King =>
      EightWalksOnBoard(s, f, r, 1, 1, LimitAfter(1, cm));
    case Queen =>
      var m := LimitAfter(8, cm);
      EightWalksOnBoard(s, f, r, m, m, m);
    case Rook =>
      RookOnBoard(s, f, r, cm);
    case Bishop =>
      BishopOnBoard(s, f, r, cm);
  }

  lemma RookOnBoard(s: Cells, f: nat, r: nat, cm: Option<Move>)
    requires HasPiece(cm) && f < 8 && r < 8
    ensures forall c | c in RookCoords(s, f, r, cm) :: c.0 < 8 && c.1 < 8
  {
    var m := LimitAfter(8, cm);
    LineOnBoard(s, f, r as int + 1, 0, 1, 8, false);
    LineOnBoard(s, f as int + 1, r, 1, 0, m, false);
    LineOnBoard(s, f, r as int - 1, 0, -1, m, false);
    LineOnBoard(s, f as int - 1, r, -1, 0, m, false);
  }

  lemma BishopOnBoard(s: Cells, f: nat, r: nat, cm: Option<Move>)
    requires HasPiece(cm) && f < 8 && r < 8
    ensures forall c | c in BishopCoords(s, f, r, cm) :: c.0 < 8 && c.1 < 8
  {
    var m := LimitAfter(8, cm);
    LineOnBoard(s, f as int - 1, r as int + 1, -1, 1, m, false);
    LineOnBoard(s, f as int + 1, r as int + 1, 1, 1, m, false);
    LineOnBoard(s, f as int + 1, r as int - 1, 1, -1, m, false);
    LineOnBoard(s, f as int - 1, r as int - 1, -1, -1, m, false);
  }

  /** The eight walks from a square of the board stay on the board. */
  lemma EightWalksOnBoard(s: Cells, f: nat, r: nat, diag: nat, vert: nat, horiz: nat)
    requires f < 8 && r < 8
    ensures forall c | c in EightWalks(s, f, r, diag, vert, horiz) :: c.0 < 8 && c.1 < 8
  {
    LineOnBoard(s, f as int - 1, r as int + 1, -1, 1, diag, false);
    LineOnBoard(s, f, r as int + 1, 0, 1, vert, false);
    LineOnBoard(s, f as int + 1, r as int + 1, 1, 1, diag, false);
    LineOnBoard(s, f as int + 1, r, 1, 0, horiz, false);
    LineOnBoard(s, f as int + 1, r as int - 1, 1, -1, diag, false);
    LineOnBoard(s, f, r as int - 1, 0, -1, vert, false);
    LineOnBoard(s, f as int - 1, r as int - 1, -1, -1, diag, false);
    LineOnBoard(s, f as int - 1, r, -1, 0, horiz, false);
  }

  /** A walk with a budget of one looks at its first square only. */
  lemma LineOne(s: Cells, f: int, r: int, df: int, dr: int)
    ensures Line(s, f, r, df, dr, 1, false)
         == if Inside(f, r, df, dr) && PieceAt(s, f as nat, r as nat).None? then [(f as nat, r as nat)] else []
  {
  }

  /** A king's step: at most one square away on each axis, and not the
      square itself. */
  predicate IsKingStep(f: nat, r: nat, c: Square)
  {
    Abs(c.0 - f) <= 1 && Abs(c.1 - r) <= 1 && c != (f, r)
  }

  /** The walk of one step from a square of the board in direction
      (df, dr) holds the neighbour when it is on the board and empty. */
  lemma StepOnBoard(s: Cells, f: nat, r: nat, df: int, dr: int, c: Square)
    requires f < 8 && r < 8 && -1 <= df <= 1 && -1 <= dr <= 1
    ensures c in Line(s, f + df, r + dr, df, dr, 1, false) <==>
      c.0 == f + df && c.1 == r + dr && c.0 < 8 && c.1 < 8 && PieceAt(s, c.0, c.1).None?
  {
    LineOne(s, f + df, r + dr, df, dr);
  }

  /** For any move other than a king's, a king on the board reaches exactly
      the empty neighbouring squares of the board: nothing is captured. */
  lemma KingTargets(s: Cells, f: nat, r: nat, cm: Option<Move>, c: Square)
    requires HasPiece(cm) && LimitAfter(1, cm) == 1 && f < 8 && r < 8
    ensures c in KingCoords(s, f, r, cm) <==> IsKingStep(f, r, c) && c.0 < 8 && c.1 < 8 && PieceAt(s, c.0, c.1).None?
  {
    StepOnBoard(s, f, r, -1, 1, c);
    StepOnBoard(s, f, r, 0, 1, c);
    StepOnBoard(s, f, r, 1, 1, c);
    StepOnBoard(s, f, r, 1, 0, c);
    StepOnBoard(s, f, r, 1, -1, c);
    StepOnBoard(s, f, r, 0, -1, c);
    StepOnBoard(s, f, r, -1, -1, c);
    StepOnBoard(s, f, r, -1, 0, c);
  }

  /** During a king's move the sideways limit is 2, so a king on the board
      also reaches the square two files over when both squares between are
      empty, in either direction. */
  lemma KingSideways(s: Cells, f: nat, r: nat, cm: Option<Move>)
    requires HasPiece(cm) && cm.Some? && cm.value.piece.value.kind == P.King && r < 8
    ensures f + 2 < 8 && PieceAt(s, f + 1, r).None? && PieceAt(s, f + 2, r).None? ==>
      (f + 2, r) in KingCoords(s, f, r, cm)
    ensures 2 <= f < 8 && PieceAt(s, f - 1, r).None? && PieceAt(s, f - 2, r).None? ==>
      (f - 2, r) in KingCoords(s, f, r, cm)
  {
    var right := Line(s, f + 1, r, 1, 0, 2, false);
    if f + 2 < 8 && PieceAt(s, f + 1, r).None? && PieceAt(s, f + 2, r).None? {
      assert right == [(f + 1, r), (f + 2, r)];
    }
    var left := Line(s, f - 1, r, -1, 0, 2, false);
    if 2 <= f < 8 && PieceAt(s, f - 1, r).None? && PieceAt(s, f - 2, r).None? {
      assert left == [(f - 1, r), (f - 2, r)];
    }
  }

  /** The standard position through `get_piece`. */
  lemma StandardAt(s: Cells, f: nat, r: nat)
    requires IsStandard(s) && f < 8 && r < 8
    ensures PieceAt(s, f, r) == StandardCell(f, r)
  {
  }

  /** From the standard position the knight on b1 reaches c3 and a3, and the
      knight on g1 reaches h3 and f3, in the order of the blocks. */
  lemma StandardKnights(s: Cells)
    requires IsStandard(s)
    ensures KnightCoords(s, 1, 0) == [(2, 2), (0, 2)]
    ensures KnightCoords(s, 6, 0) == [(7, 2), (5, 2)]
  {
    StandardAt(s, 2, 2);
    StandardAt(s, 0, 2);
    StandardAt(s, 3, 1);
    StandardAt(s, 7, 2);
    StandardAt(s, 5, 2);
    StandardAt(s, 4, 1);
  }

  /** From the standard position a white pawn on a2 reaches a3 and a4 and a
      black pawn on a7 reaches a6 and a5. */
  lemma StandardPawns(s: Cells, f: nat)
    requires IsStandard(s) && f < 8
    ensures PawnCoords(s, f, 1, P.White) == [(f, 2), (f, 3)]
    ensures PawnCoords(s, f, 6, P.Black) == [(f, 5), (f, 4)]
  {
    StandardAt(s, f, 2);
    StandardAt(s, f, 3);
    StandardAt(s, f, 4);
    StandardAt(s, f, 5);
  }

  /** From the standard position the rooks in the corners have no move,
      whatever the move being applied. */
  lemma StandardRooksHemmed(s: Cells, cm: Option<Move>)
    requires IsStandard(s) && HasPiece(cm)
    ensures RookCoords(s, 0, 0, cm) == [] && RookCoords(s, 7, 0, cm) == []
    ensures RookCoords(s, 0, 7, cm) == [] && RookCoords(s, 7, 7, cm) == []
  {
    StandardAt(s, 0, 1);
    StandardAt(s, 1, 0);
    StandardAt(s, 7, 1);
    StandardAt(s, 6, 0);
    StandardAt(s, 0, 6);
    StandardAt(s, 1, 7);
    StandardAt(s, 7, 6);
    StandardAt(s, 6, 7);
  }

  // ---------------------------------------------------------------------
  // apply_move.
  // ---------------------------------------------------------------------

  /** `get_pieces` over the first `n` cells: the pieces of the given kind and
      colour, rank by rank and file by file. */
  function PiecesUpTo(s: Cells, kind: P.PieceKind, color: P.Color, n: nat): seq<Piece>
    requires n <= 64
  {
    if n == 0 then []
    else
      var c := s[n - 1];
      PiecesUpTo(s, kind, color, n - 1) + (if c.Some? && c.value.kind == kind && c.value.color == color then [c.value] else [])
  }

  /** `get_pieces` collects exactly the pieces of the board with the given
      kind and colour. */
  lemma {:induction false} PiecesMembers(s: Cells, kind: P.PieceKind, color: P.Color, n: nat, q: Piece)
    requires n <= 64
    ensures q in PiecesUpTo(s, kind, color, n) <==> exists i | 0 <= i < n :: s[i] == Some(q) && q.kind == kind && q.color == color
  {
    if n > 0 {
      PiecesMembers(s, kind, color, n - 1, q);
    }
  }

  /** The `pieces_can_move` loop: the pieces, in order, whose move
      coordinates contain `to`. */
  function CanMove(s: Cells, pieces: seq<Piece>, cm: Option<Move>, to: Square): seq<Piece>
    requires HasPiece(cm)
  {
    if pieces == [] then []
    else
      var last := pieces[|pieces| - 1];
      CanMove(s, pieces[..|pieces| - 1], cm, to) + (if to in MoveCoords(s, last, cm) then [last] else [])
  }

  /** The loop keeps exactly the pieces that reach `to`. */
  lemma {:induction false} CanMoveMembers(s: Cells, pieces: seq<Piece>, cm: Option<Move>, to: Square, q: Piece)
    requires HasPiece(cm)
    ensures q in CanMove(s, pieces, cm, to) <==> q in pieces && to in MoveCoords(s, q, cm)
  {
    if pieces != [] {
      var init := pieces[..|pieces| - 1];
      CanMoveMembers(s, init, cm, to, q);
      assert pieces == init + [pieces[|pieces| - 1]];
    }
  }

  /** The pieces `apply_move` may move for a move with a piece: those of the
      same kind and colour that reach the target. */
  function Candidates(s: Cells, m: Move): seq<Piece>
    requires m.piece.Some?
  {
    CanMove(s, PiecesUpTo(s, m.piece.value.kind, m.piece.value.color, 64), Some(m), m.Target())
  }

  /** A candidate is a piece of the board of the move's kind and colour
      whose move coordinates contain the target. */
  lemma CandidatesMembers(s: Cells, m: Move, q: Piece)
    requires m.piece.Some?
    ensures q in Candidates(s, m) <==>
      (exists i | 0 <= i < 64 :: s[i] == Some(q)) && q.kind == m.piece.value.kind
      && q.color == m.piece.value.color && m.Target() in MoveCoords(s, q, Some(m))
  {
    CanMoveMembers(s, PiecesUpTo(s, m.piece.value.kind, m.piece.value.color, 64), Some(m), m.Target(), q);
    PiecesMembers(s, m.piece.value.kind, m.piece.value.color, 64, q);
  }

  /** `replace_piece`: the piece's own cell is emptied, then the piece,
      carrying the target indices, is stored at the target. */
  function Relocated(s: Cells, p: Piece, to: Square): Cells
    requires p.file < 8 && p.rank < 8 && to.0 < 8 && to.1 < 8
  {
    s[8 * p.rank + p.file := None][8 * to.1 + to.0 := Some(Piece(p.kind, p.color, to.0, to.1))]
  }

  /** Relocating keeps every piece on its own indices. */
  lemma RelocatedPlaced(s: Cells, p: Piece, to: Square)
    requires Placed(s) && p.file < 8 && p.rank < 8 && to.0 < 8 && to.1 < 8
    ensures Placed(Relocated(s, p, to))
  {
  }

  /** A candidate of a placed board sits on the board, and so does the
      target it reaches. */
  lemma CandidateOnBoard(s: Cells, m: Move, q: Piece)
    requires m.piece.Some? && Placed(s) && q in Candidates(s, m)
    ensures q.file < 8 && q.rank < 8 && s[8 * q.rank + q.file] == Some(q)
    ensures m.Target().0 < 8 && m.Target().1 < 8
  {
    CandidatesMembers(s, m, q);
    var i :| 0 <= i < 64 && s[i] == Some(q);
    TargetsOnBoard(s, q, Some(m));
  }
}
