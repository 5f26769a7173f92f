// The move rules of the `Board` of lib/chui_core/src/modules/board.rs.
//
// The move generators only read the board; they are specified here on a
// snapshot (`State`) of the cells, the castling flags and the en passant
// square, and the `Board` class of modules_board.dfy is proved against them.
//
// King moves are recursive in the source: a king drops the steps and the
// castling squares that an enemy piece attacks, and to find the attackers it
// asks every enemy piece for its moves, the enemy king included, whose own
// castling test asks the first king again. Nothing bounds that recursion, so
// the model carries an explicit depth: at depth 0 a king reports no moves and
// marks its answer `exhausted`; every answer that consulted an exhausted one
// is exhausted too. An answer that is not exhausted is the one the source
// computes.

module BoardRules {
  import opened Errors
  import opened Coordinate
  import P = Piece
  import opened Geometry

  /** `ChessVariant`; `StandardChess` is the default. */
  datatype ChessVariant = StandardChess | Empty

  /** What the move generators read: the cells, the castling flags and the
      en passant target square. */
  datatype State = State(
    squares: Squares,
    whiteKingside: bool,
    whiteQueenside: bool,
    blackKingside: bool,
    blackQueenside: bool,
    enPassant: Option<Coord>)

  /** The move targets of a piece, and whether the depth ran out on the way. */
  datatype Eval = Eval(coords: seq<Coord>, exhausted: bool)

  /** The attackers of a square, and whether the depth ran out on the way. */
  datatype Found = Found(pieces: seq<P.Piece>, exhausted: bool)

  /** The cells of a freshly built board of a variant. */
  function InitialSquares(variant: ChessVariant): Squares
  {
    match variant
    case StandardChess => StandardSquares()
    case Empty => EmptySquares()
  }

  /** The state of `Board::new(variant)`: the setup of the variant, all four
      castling flags set, even on the empty board, and no en passant square. */
  function InitialState(variant: ChessVariant): (st: State)
    ensures st.whiteKingside && st.whiteQueenside && st.blackKingside && st.blackQueenside
    ensures st.enPassant.None?
    ensures variant == Empty ==> forall c :: At(st.squares, c).None?
  {
    State(InitialSquares(variant), true, true, true, true, None)
  }

  /** `get_pieces`: the pieces of the same kind and colour as `piece`, in
      board order (a1, b1, .., h8). */
  function Pieces(s: Squares, piece: P.Piece): (r: seq<P.Piece>)
    ensures forall q :: q in r <==> exists i :: 0 <= i < 64 && s[i] == Some(q) && q.IsSamePiece(piece)
  {
    PiecesFrom(s, (q: P.Piece) => q.IsSamePiece(piece), 0)
  }

  /** `Piece::get_move_coords` with this board: a dispatch on the kind. */
  function MoveCoords(st: State, p: P.Piece, depth: nat): (e: Eval)
    decreases depth, 1, 0
    ensures p.kind != P.King ==> !e.exhausted
  {
    match p.kind
    case King => KingCoords(st, p, depth)
    case Queen => Eval(QueenTargets(st.squares, p), false)
    case Rook => Eval(RookTargets(st.squares, p), false)
    case Bishop => Eval(BishopTargets(st.squares, p), false)
    case Knight => Eval(KnightTargets(st.squares, p), false)
    case Pawn => Eval(PawnTargets(st.squares, st.enPassant, p), false)
  }

  /** `get_king_move_coords`: the one-square rays whose square no enemy piece
      attacks, then the castling squares. */
  function KingCoords(st: State, p: P.Piece, depth: nat): (e: Eval)
    decreases depth, 0, 0
    ensures depth == 0 ==> e == Eval([], true)
  {
    if depth == 0 then Eval([], true)
    else
      var safe := Unattacked(st, p.color, Rays(st.squares, p, ALL_DIRECTIONS), depth - 1);
      var castle := Castling(st, p.color, depth - 1);
      Eval(safe.coords + castle.coords, safe.exhausted || castle.exhausted)
  }

  /** The squares of `cs`, in order, that no piece of the other colour
      attacks. */
  function Unattacked(st: State, color: P.Color, cs: seq<Coord>, depth: nat): (e: Eval)
    decreases depth, 3, |cs|
  {
    if cs == [] then Eval([], false)
    else
      var a := Attackers(st, color, cs[0], depth);
      var rest := Unattacked(st, color, cs[1..], depth);
      Eval((if a.pieces == [] then [cs[0]] else []) + rest.coords, a.exhausted || rest.exhausted)
  }

  /** The castling branch as written: the kingside flag tests d1 and c1 and
      adds c1, the queenside flag tests f1 and g1 and adds g1 (d8/c8 and
      f8/g8 for Black); only attacks are checked, not occupancy. */
  function Castling(st: State, color: P.Color, depth: nat): (e: Eval)
    decreases depth, 4, 0
  {
    var home := if color == P.White then 0 else 7;
    var kingside := if color == P.White then st.whiteKingside else st.blackKingside;
    var queenside := if color == P.White then st.whiteQueenside else st.blackQueenside;
    var k := CastleSide(st, color, kingside, Coord(3, home), Coord(2, home), depth);
    var q := CastleSide(st, color, queenside, Coord(5, home), Coord(6, home), depth);
    Eval(k.coords + q.coords, k.exhausted || q.exhausted)
  }

  /** One castling test: with the flag set, `target` is added when neither
      `via` nor `target` is attacked. */
  function CastleSide(st: State, color: P.Color, flag: bool, via: Coord, target: Coord, depth: nat): (e: Eval)
    decreases depth, 3, 0
    ensures !flag ==> e == Eval([], false)
    ensures e.coords == [target] || e.coords == []
    ensures e.coords == [target] <==>
      flag && Attackers(st, color, via, depth).pieces == [] && Attackers(st, color, target, depth).pieces == []
  {
    if !flag then Eval([], false)
    else
      var a := Attackers(st, color, via, depth);
      var b := Attackers(st, color, target, depth);
      Eval(if a.pieces == [] && b.pieces == [] then [target] else [], a.exhausted || b.exhausted)
  }

  /** `get_pieces_attacking_coord`: the pieces not of `color`, in board
      order, whose targets contain `c`. */
  function Attackers(st: State, color: P.Color, c: Coord, depth: nat): (f: Found)
    decreases depth, 2, 65
  {
    AttackersFrom(st, color, c, depth, 0)
  }

  /** `Attackers` over the cells from index `i` on. Only pieces of the other
      colour are asked for their targets. */
  function AttackersFrom(st: State, color: P.Color, c: Coord, depth: nat, i: nat): (f: Found)
    requires i <= 64
    decreases depth, 2, 64 - i
  {
    if i == 64 then Found([], false)
    else
      var rest := AttackersFrom(st, color, c, depth, i + 1);
      match st.squares[i]
      case None => rest
      case Some(q) =>
        if q.color == color then rest
        else
          var e := MoveCoords(st, q, depth);
          Found((if c in e.coords then [q] else []) + rest.pieces, e.exhausted || rest.exhausted)
  }

  /** The pieces among `qs` whose targets contain `to`, in order. */
  function Reaching(st: State, qs: seq<P.Piece>, to: Coord, depth: nat): (r: seq<P.Piece>)
  {
    if qs == [] then []
    else
      var last := qs[|qs| - 1];
      Reaching(st, qs[..|qs| - 1], to, depth) + (if to in MoveCoords(st, last, depth).coords then [last] else [])
  }

  /** The pieces `apply_move` may move: the same kind and colour as the
      move's piece, and able to reach the target square. */
  function Candidates(st: State, piece: P.Piece, to: Coord, depth: nat): seq<P.Piece>
  {
    Reaching(st, Pieces(st.squares, piece), to, depth)
  }

  /** The pieces among `qs` that reach `to` are kept, in order, and no
      others. */
  lemma {:induction false} ReachingMembers(st: State, qs: seq<P.Piece>, to: Coord, depth: nat)
    ensures forall q :: q in Reaching(st, qs, to, depth) <==> q in qs && to in MoveCoords(st, q, depth).coords
    ensures |Reaching(st, qs, to, depth)| <= |qs|
  {
    if qs != [] {
      ReachingMembers(st, qs[..|qs| - 1], to, depth);
      assert qs == qs[..|qs| - 1] + [qs[|qs| - 1]];
    }
  }

  /** The candidates of `apply_move` are exactly the pieces of the board of
      the same kind and colour as the move's piece that reach the target. */
  lemma CandidatesMembers(st: State, piece: P.Piece, to: Coord, depth: nat, q: P.Piece)
    ensures q in Candidates(st, piece, to, depth) <==>
      (exists i :: 0 <= i < 64 && st.squares[i] == Some(q) && q.IsSamePiece(piece)) && to in MoveCoords(st, q, depth).coords
  {
    ReachingMembers(st, Pieces(st.squares, piece), to, depth);
  }

  /** A square survives the attack filter exactly when it is one of `cs`
      and no enemy piece attacks it. */
  lemma {:induction false} UnattackedMembers(st: State, color: P.Color, cs: seq<Coord>, depth: nat, x: Coord)
    ensures x in Unattacked(st, color, cs, depth).coords <==> x in cs && Attackers(st, color, x, depth).pieces == []
  {
    if cs != [] {
      UnattackedMembers(st, color, cs[1..], depth, x);
      assert cs == [cs[0]] + cs[1..];
    }
  }

  /** The attackers found from cell `i` on are exactly the pieces of the
      other colour on those cells whose targets contain the square. */
  lemma {:induction false} AttackersFromMembers(st: State, color: P.Color, c: Coord, depth: nat, i: nat, q: P.Piece)
    requires i <= 64
    decreases 64 - i
    ensures q in AttackersFrom(st, color, c, depth, i).pieces <==>
      exists j :: i <= j < 64 && st.squares[j] == Some(q) && q.color != color && c in MoveCoords(st, q, depth).coords
  {
    if i < 64 {
      AttackersFromMembers(st, color, c, depth, i + 1, q);
      var rest := AttackersFrom(st, color, c, depth, i + 1);
      var here := st.squares[i] == Some(q) && q.color != color && c in MoveCoords(st, q, depth).coords;
      assert q in AttackersFrom(st, color, c, depth, i).pieces <==> here || q in rest.pieces by {
        match st.squares[i]
        case None =>
        case Some(o) =>
          if o.color != color {
            var e := MoveCoords(st, o, depth);
            assert AttackersFrom(st, color, c, depth, i).pieces == (if c in e.coords then [o] else []) + rest.pieces;
          }
      }
      if exists j :: i <= j < 64 && st.squares[j] == Some(q) && q.color != color && c in MoveCoords(st, q, depth).coords {
        var j :| i <= j < 64 && st.squares[j] == Some(q) && q.color != color && c in MoveCoords(st, q, depth).coords;
        assert j == i || i + 1 <= j;
      }
    }
  }

  /** `get_pieces_attacking_coord` returns exactly the pieces of the other
      colour whose targets contain the square. */
  lemma AttackersMembers(st: State, color: P.Color, c: Coord, depth: nat, q: P.Piece)
    ensures q in Attackers(st, color, c, depth).pieces <==>
      exists j :: 0 <= j < 64 && st.squares[j] == Some(q) && q.color != color && c in MoveCoords(st, q, depth).coords
  {
    AttackersFromMembers(st, color, c, depth, 0, q);
  }

  /** `replace_piece` on the cells: the piece's own square is emptied, then
      the piece, retagged with `to`, is put on `to`. */
  function Relocated(s: Squares, piece: P.Piece, to: Coord): Squares
  {
    s[ToIndex(piece.coord) := None][ToIndex(to) := Some(P.SetCoord(piece, to))]
  }

  /** What `replace_piece` returns: the occupant of `to` once the piece's own
      square has been emptied. */
  function Displaced(s: Squares, piece: P.Piece, to: Coord): Cell
  {
    s[ToIndex(piece.coord) := None][ToIndex(to)]
  }

  /** After `replace_piece` the target holds the piece tagged with the
      target square, its old square is empty unless it is the target, and
      every other square is as before; the displaced occupant is what stood
      on the target, or nothing when the piece stayed in place. */
  lemma RelocatedMovesOnePiece(s: Squares, piece: P.Piece, to: Coord, c: Coord)
    ensures At(Relocated(s, piece, to), to) == Some(P.SetCoord(piece, to))
    ensures c != to && c == piece.coord ==> At(Relocated(s, piece, to), c).None?
    ensures c != to && c != piece.coord ==> At(Relocated(s, piece, to), c) == At(s, c)
    ensures Displaced(s, piece, to) == if to == piece.coord then None else At(s, to)
  {
    ToIndexInjective(c, to);
    ToIndexInjective(c, piece.coord);
    ToIndexInjective(to, piece.coord);
  }

  lemma ToIndexInjective(a: Coord, b: Coord)
    ensures ToIndex(a) == ToIndex(b) ==> a == b
  {
  }

  /** A cell retagged with a square, as `set_coords` does. */
  function Retag(cell: Cell, c: Coord): Cell
  {
    match cell
    case None => None
    case Some(p) => Some(P.SetCoord(p, c))
  }

  /** The square of cell `i`, as `Coord::try_from(i)` computes it. */
  function SquareOf(i: nat): (c: Coord)
    requires i < 64
    ensures ToIndex(c) == i && TryFromIndex(i) == Ok(c)
  {
    Coord(i % 8, i / 8)
  }

  lemma SquareOfCell(r: nat, f: nat)
    requires r < 8 && f < 8
    ensures SquareOf(8 * r + f) == Coord(f, r)
  {
  }

  /** `set_coords` on the cells: every piece is tagged with its own square. */
  function Retagged(s: Squares): Squares
  {
    seq(64, (i: int) requires 0 <= i < 64 => Retag(s[i], SquareOf(i)))
  }

  /** After `set_coords` every piece carries the square it stands on, the
      kinds, colours and empty squares are as before, and doing it twice
      changes nothing more. */
  lemma RetaggedTagsEveryPiece(s: Squares, c: Coord)
    ensures At(Retagged(s), c).Some? <==> At(s, c).Some?
    ensures At(Retagged(s), c).Some? ==>
      At(Retagged(s), c).value.coord == c
      && At(Retagged(s), c).value.kind == At(s, c).value.kind
      && At(Retagged(s), c).value.color == At(s, c).value.color
    ensures Retagged(Retagged(s)) == Retagged(s)
  {
    CoordIndexRoundTrip(c);
    assert SquareOf(ToIndex(c)) == c;
  }

  /** Adding one direction at the end adds its ray at the end. */
  lemma {:induction false} RaysSnoc(s: Squares, p: P.Piece, ds: seq<Direction>, k: nat)
    requires k < |ds|
    ensures Rays(s, p, ds[..k + 1]) == Rays(s, p, ds[..k]) + Ray(s, p, ds[k])
  {
    if k > 0 {
      RaysSnoc(s, p, ds[1..], k - 1);
      assert ds[..k + 1][1..] == ds[1..][..k];
      assert ds[..k][1..] == ds[1..][..k - 1];
    } else {
      assert ds[..1][1..] == [];
    }
  }

  /** One step of a ray walk that has collected `walked` so far: off the
      board or out of budget the walk is over. */
  lemma WalkOff(s: Squares, color: P.Color, d: Direction, f: int, r: int, budget: nat,
                walked: seq<Coord>, whole: seq<Coord>)
    requires budget == 0 || !(0 <= f < 8 && 0 <= r < 8)
    requires walked + RayFrom(s, color, d, f, r, budget) == whole
    ensures walked == whole
  {
    assert walked + [] == walked;
  }

  /** An occupied square ends the walk and is kept for the other colour. */
  lemma WalkBlocked(s: Squares, color: P.Color, d: Direction, f: int, r: int, budget: nat,
                    walked: seq<Coord>, whole: seq<Coord>)
    requires budget > 0 && 0 <= f < 8 && 0 <= r < 8 && At(s, Coord(f, r)).Some?
    requires walked + RayFrom(s, color, d, f, r, budget) == whole
    ensures whole == walked + if At(s, Coord(f, r)).value.color != color then [Coord(f, r)] else []
  {
  }

  /** An empty square is kept and the walk goes on. */
  lemma WalkOpen(s: Squares, color: P.Color, d: Direction, f: int, r: int, budget: nat,
                 walked: seq<Coord>, whole: seq<Coord>)
    requires budget > 0 && 0 <= f < 8 && 0 <= r < 8 && At(s, Coord(f, r)).None?
    requires walked + RayFrom(s, color, d, f, r, budget) == whole
    ensures (walked + [Coord(f, r)]) + RayFrom(s, color, d, f + DF(d), r + DR(d), budget - 1) == whole
  {
    var rest := RayFrom(s, color, d, f + DF(d), r + DR(d), budget - 1);
    assert RayFrom(s, color, d, f, r, budget) == [Coord(f, r)] + rest;
    assert walked + ([Coord(f, r)] + rest) == (walked + [Coord(f, r)]) + rest;
  }

  /** A byte index a walk can hold: a square index, one past the edge, or
      the wrap-around of -1. */
  predicate Near(x: u8)
  {
    x <= 8 || x == 255
  }

  /** The signed value of a byte index near the board. */
  function Signed(x: u8): int
  {
    if x == 255 then -1 else x
  }

  /** A walk that has collected `walked` and stands at the byte indices
      `fileIdx` and `rankIdx` with `budget` steps left completes `whole`. */
  predicate Walking(s: Squares, color: P.Color, d: Direction, fileIdx: u8, rankIdx: u8, budget: nat,
                    walked: seq<Coord>, whole: seq<Coord>)
  {
    Near(fileIdx) && Near(rankIdx)
    && walked + RayFrom(s, color, d, Signed(fileIdx), Signed(rankIdx), budget) == whole
  }

  /** A walk starts one step from the piece with its whole move range. */
  lemma WalkingStart(s: Squares, p: P.Piece, d: Direction)
    ensures Walking(s, p.color, d, Step(p.coord.file, DF(d)), Step(p.coord.rank, DR(d)), P.MoveMax(p.kind), [], Ray(s, p, d))
  {
    StepSigned(p.coord.file, DF(d));
    StepSigned(p.coord.rank, DR(d));
    assert [] + Ray(s, p, d) == Ray(s, p, d);
  }

  /** Off the board, or out of budget, the walk has collected all of it. */
  lemma WalkingOff(s: Squares, color: P.Color, d: Direction, fileIdx: u8, rankIdx: u8, budget: nat,
                   walked: seq<Coord>, whole: seq<Coord>)
    requires Walking(s, color, d, fileIdx, rankIdx, budget, walked, whole)
    requires budget == 0 || New(fileIdx, rankIdx).Err?
    ensures walked == whole
  {
    WalkOff(s, color, d, Signed(fileIdx), Signed(rankIdx), budget, walked, whole);
  }

  /** An occupied square ends the walk, kept only when it holds the other
      colour. */
  lemma WalkingBlocked(s: Squares, color: P.Color, d: Direction, fileIdx: u8, rankIdx: u8, budget: nat,
                       walked: seq<Coord>, whole: seq<Coord>)
    requires Walking(s, color, d, fileIdx, rankIdx, budget, walked, whole)
    requires budget > 0 && New(fileIdx, rankIdx).Ok? && At(s, New(fileIdx, rankIdx).value).Some?
    ensures var c := New(fileIdx, rankIdx).value;
      whole == walked + if At(s, c).value.color != color then [c] else []
  {
    WalkBlocked(s, color, d, Signed(fileIdx), Signed(rankIdx), budget, walked, whole);
  }

  /** An empty square is kept and the walk steps on. */
  lemma WalkingOpen(s: Squares, color: P.Color, d: Direction, fileIdx: u8, rankIdx: u8, budget: nat,
                    walked: seq<Coord>, whole: seq<Coord>)
    requires Walking(s, color, d, fileIdx, rankIdx, budget, walked, whole)
    requires budget > 0 && New(fileIdx, rankIdx).Ok? && At(s, New(fileIdx, rankIdx).value).None?
    ensures Walking(s, color, d, Step(fileIdx, DF(d)), Step(rankIdx, DR(d)), budget - 1,
                    walked + [New(fileIdx, rankIdx).value], whole)
  {
    var f, r := Signed(fileIdx), Signed(rankIdx);
    assert New(fileIdx, rankIdx).value == Coord(f, r);
    StepSigned(fileIdx, DF(d));
    StepSigned(rankIdx, DR(d));
    OpenStep(s, color, d, f, r, Signed(Step(fileIdx, DF(d))), Signed(Step(rankIdx, DR(d))), budget, walked, whole);
  }

  /** `WalkOpen`, with the next square given by its indices. */
  lemma OpenStep(s: Squares, color: P.Color, d: Direction, f: int, r: int, nf: int, nr: int, budget: nat,
                 walked: seq<Coord>, whole: seq<Coord>)
    requires budget > 0 && 0 <= f < 8 && 0 <= r < 8 && At(s, Coord(f, r)).None?
    requires nf == f + DF(d) && nr == r + DR(d)
    requires walked + RayFrom(s, color, d, f, r, budget) == whole
    ensures (walked + [Coord(f, r)]) + RayFrom(s, color, d, nf, nr, budget - 1) == whole
  {
    WalkOpen(s, color, d, f, r, budget, walked, whole);
  }

  /** A step from a square index lands near the board, at the signed sum. */
  lemma StepSigned(x: u8, d: int)
    requires x < 8 && -1 <= d <= 1
    ensures Near(Step(x, d)) && Signed(Step(x, d)) == x + d
  {
  }
}
