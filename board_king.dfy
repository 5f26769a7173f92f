// The king of lib/chui_core/src/modules/board.rs: what `get_king_move_coords`
// computes, the three ways in which it departs from the rules of chess, and a
// corrected king move generator with the properties the source's own tests
// expect of it.

module BoardKing {
  import opened Errors
  import opened Coordinate
  import P = Piece
  import opened Geometry
  import opened BoardRules
  import opened BoardTargets

  /** The white king on e1 and the black king on e8 of the standard setup. */
  function WhiteKingE1(): P.Piece { P.New(P.King, P.White, Coord(4, 0)) }
  function BlackKingE8(): P.Piece { P.New(P.King, P.Black, Coord(4, 7)) }

  /** No cell holds a piece of another colour than `color`. */
  predicate NoEnemies(s: Squares, color: P.Color)
  {
    forall j | 0 <= j < 64 :: s[j].None? || s[j].value.color == color
  }

  /** One enemy piece whose own answer ran out of depth makes the whole
      search for attackers run out of depth. */
  lemma {:induction false} AttackersFromExhausted(st: State, color: P.Color, c: Coord, depth: nat, i: nat, j: nat, q: P.Piece)
    requires i <= j < 64 && st.squares[j] == Some(q) && q.color != color
    requires MoveCoords(st, q, depth).exhausted
    ensures AttackersFrom(st, color, c, depth, i).exhausted
    decreases j - i
  {
    if i < j {
      AttackersFromExhausted(st, color, c, depth, i + 1, j, q);
    }
  }

  /** Without enemy pieces nothing attacks a square, and the search does not
      run out of depth. */
  lemma {:induction false} NoEnemiesNoAttackers(st: State, color: P.Color, c: Coord, depth: nat, i: nat)
    requires i <= 64 && NoEnemies(st.squares, color)
    ensures AttackersFrom(st, color, c, depth, i) == Found([], false)
    decreases 64 - i
  {
    if i < 64 {
      NoEnemiesNoAttackers(st, color, c, depth, i + 1);
    }
  }

  /** Without enemy pieces the attack filter keeps every square. */
  lemma {:induction false} NoEnemiesKeepsAll(st: State, color: P.Color, cs: seq<Coord>, depth: nat)
    requires NoEnemies(st.squares, color)
    ensures Unattacked(st, color, cs, depth) == Eval(cs, false)
  {
    if cs != [] {
      NoEnemiesNoAttackers(st, color, cs[0], depth, 0);
      NoEnemiesKeepsAll(st, color, cs[1..], depth);
      assert [cs[0]] + cs[1..] == cs;
    }
  }

  /** As written, a king's targets are its one-square steps onto squares not
      held by its own colour and attacked by no enemy piece, plus the
      castling squares. */
  lemma KingTargetsAsWritten(st: State, p: P.Piece, depth: nat, x: Coord)
    requires p.kind == P.King && depth > 0
    ensures x in KingCoords(st, p, depth).coords <==>
      (IsKingStep(p.coord, x) && !HoldsColor(st.squares, x, p.color)
       && Attackers(st, p.color, x, depth - 1).pieces == [])
      || x in Castling(st, p.color, depth - 1).coords
  {
    KingCoordsParts(st, p, depth);
    SafeSteps(st, p, depth - 1, x);
  }

  /** A king's targets are its unattacked steps followed by its castling
      squares. */
  lemma KingCoordsParts(st: State, p: P.Piece, depth: nat)
    requires depth > 0
    ensures KingCoords(st, p, depth).coords
         == Unattacked(st, p.color, Rays(st.squares, p, ALL_DIRECTIONS), depth - 1).coords
          + Castling(st, p.color, depth - 1).coords
  {
  }

  /** The unattacked steps of a king are its neighbouring squares that are
      not held by its own colour and that no enemy attacks. */
  lemma SafeSteps(st: State, p: P.Piece, depth: nat, x: Coord)
    requires p.kind == P.King
    ensures x in Unattacked(st, p.color, Rays(st.squares, p, ALL_DIRECTIONS), depth).coords <==>
      IsKingStep(p.coord, x) && !HoldsColor(st.squares, x, p.color) && Attackers(st, p.color, x, depth).pieces == []
  {
    OneStepRays(st.squares, p, x);
    UnattackedMembers(st, p.color, Rays(st.squares, p, ALL_DIRECTIONS), depth, x);
  }

  /** Two kings that may both castle kingside, the white one on e1 and the
      black one on e8, ask each other for their moves without end: at every
      depth both answers run out of depth. */
  lemma {:induction false} FacingKingsExhausted(st: State, n: nat)
    requires st.whiteKingside && st.blackKingside
    requires st.squares[4] == Some(WhiteKingE1()) && st.squares[60] == Some(BlackKingE8())
    ensures KingCoords(st, WhiteKingE1(), n).exhausted
    ensures KingCoords(st, BlackKingE8(), n).exhausted
  {
    if n > 0 {
      FacingKingsExhausted(st, n - 1);
      assert MoveCoords(st, BlackKingE8(), n - 1) == KingCoords(st, BlackKingE8(), n - 1);
      assert MoveCoords(st, WhiteKingE1(), n - 1) == KingCoords(st, WhiteKingE1(), n - 1);
      AttackersFromExhausted(st, P.White, Coord(3, 0), n - 1, 0, 60, BlackKingE8());
      AttackersFromExhausted(st, P.Black, Coord(3, 7), n - 1, 0, 4, WhiteKingE1());
      assert CastleSide(st, P.White, true, Coord(3, 0), Coord(2, 0), n - 1).exhausted;
      assert CastleSide(st, P.Black, true, Coord(3, 7), Coord(2, 7), n - 1).exhausted;
      assert Castling(st, P.White, n - 1).exhausted;
      assert Castling(st, P.Black, n - 1).exhausted;
    }
  }

  /** The recursion never ends on the standard setup: the white king asks
      the black king for its moves, whose castling test asks the white king
      again. At every depth both answers run out of depth, where the source's
      test expects the white king on e1 to have no move. */
  lemma StandardKingsExhausted(n: nat)
    ensures KingCoords(InitialState(StandardChess), WhiteKingE1(), n).exhausted
    ensures KingCoords(InitialState(StandardChess), BlackKingE8(), n).exhausted
  {
    var st := InitialState(StandardChess);
    StandardLayout(Coord(4, 0));
    StandardLayout(Coord(4, 7));
    assert st.squares[4] == Some(WhiteKingE1());
    assert st.squares[60] == Some(BlackKingE8());
    FacingKingsExhausted(st, n);
  }

  /** The board of the source's tests: `Board::new(Empty)`, with all four
      castling flags set, and a white king put on `c`. */
  function LoneWhiteKing(c: Coord): (st: State)
    ensures NoEnemies(st.squares, P.White)
    ensures At(st.squares, c) == Some(P.New(P.King, P.White, c))
    ensures forall x :: x != c ==> At(st.squares, x).None?
  {
    InitialState(Empty).(squares := LoneBoard(P.New(P.King, P.White, c)))
  }

  /** The eight neighbours of e4 in the order the rays visit them:
      d5, e5, f5, f4, f3, e3, d3, d4. */
  const E4_NEIGHBOURS: seq<Coord> :=
    [Coord(3, 4), Coord(4, 4), Coord(5, 4), Coord(5, 3), Coord(5, 2), Coord(4, 2), Coord(3, 2), Coord(3, 3)]

  /** Rays of one square each, one per direction, add up to those squares. */
  lemma {:induction false} RaysOfSingles(s: Squares, p: P.Piece, ds: seq<Direction>, cs: seq<Coord>)
    requires |ds| == |cs|
    requires forall i | 0 <= i < |ds| :: Ray(s, p, ds[i]) == [cs[i]]
    ensures Rays(s, p, ds) == cs
  {
    if ds != [] {
      RaysOfSingles(s, p, ds[1..], cs[1..]);
      assert cs == [cs[0]] + cs[1..];
    }
  }

  /** On the empty board a king on e4 has all eight one-square rays. */
  lemma LoneKingE4Rays()
    ensures Rays(LoneWhiteKing(Coord(4, 3)).squares, P.New(P.King, P.White, Coord(4, 3)), ALL_DIRECTIONS) == E4_NEIGHBOURS
  {
    var s := LoneWhiteKing(Coord(4, 3)).squares;
    var k := P.New(P.King, P.White, Coord(4, 3));
    forall i | 0 <= i < 8
      ensures Ray(s, k, ALL_DIRECTIONS[i]) == [E4_NEIGHBOURS[i]]
    {
      var d := ALL_DIRECTIONS[i];
      RayOfOneStep(s, k, d);
      assert Shift(k.coord, DF(d), DR(d)) == Some(E4_NEIGHBOURS[i]);
    }
    RaysOfSingles(s, k, ALL_DIRECTIONS, E4_NEIGHBOURS);
  }

  /** The squares d1, c1, f1 and g1 of White's castling tests. */
  const D1: Coord := Coord(3, 0)
  const C1: Coord := Coord(2, 0)
  const F1: Coord := Coord(5, 0)
  const G1: Coord := Coord(6, 0)

  /** As written, a lone white king with all castling flags set is offered
      c1 and g1 wherever it stands: the source never asks where the king
      is. */
  lemma LoneKingCastlesAnywhere(c: Coord, depth: nat)
    ensures Castling(LoneWhiteKing(c), P.White, depth) == Eval([C1, G1], false)
  {
    var st := LoneWhiteKing(c);
    NoEnemiesNoAttackers(st, P.White, D1, depth, 0);
    NoEnemiesNoAttackers(st, P.White, C1, depth, 0);
    NoEnemiesNoAttackers(st, P.White, F1, depth, 0);
    NoEnemiesNoAttackers(st, P.White, G1, depth, 0);
  }

  /** As written, a lone king on e4 of the empty board, whose castling flags
      are all set, gets its eight neighbours and also c1 and g1, ten squares
      where the source's test expects the eight neighbours only. */
  lemma LoneKingE4AsWritten(depth: nat)
    ensures KingCoords(LoneWhiteKing(Coord(4, 3)), P.New(P.King, P.White, Coord(4, 3)), depth + 1)
      == Eval(E4_NEIGHBOURS + [C1, G1], false)
    ensures |KingCoords(LoneWhiteKing(Coord(4, 3)), P.New(P.King, P.White, Coord(4, 3)), depth + 1).coords| == 10
  {
    var st := LoneWhiteKing(Coord(4, 3));
    LoneKingE4Rays();
    NoEnemiesKeepsAll(st, P.White, E4_NEIGHBOURS, depth);
    LoneKingCastlesAnywhere(Coord(4, 3), depth);
  }

  /** As written, the kingside flag alone yields c1, the queenside target:
      a lone white king on e1 whose only castling right is kingside is
      offered c1, not g1. */
  lemma KingsideFlagGivesQueensideSquare(n: nat)
    ensures Castling(LoneWhiteKing(Coord(4, 0)).(whiteQueenside := false), P.White, n).coords == [C1]
  {
    var st := LoneWhiteKing(Coord(4, 0)).(whiteQueenside := false);
    NoEnemiesNoAttackers(st, P.White, D1, n, 0);
    NoEnemiesNoAttackers(st, P.White, C1, n, 0);
  }

  // The corrected king. Enemy kings attack the squares next to them, which
  // ends the recursion; the kingside flag leads to g1/g8 through f1/f8 and
  // the queenside flag to c1/c8 through d1/d8; castling needs the king on its
  // home square and, as in the later `Position` trait, empty squares between.

  /** The squares a piece attacks: a king its one-square rays, any other
      piece its move targets. */
  function AttackTargets(st: State, q: P.Piece): seq<Coord>
  {
    if q.kind == P.King then Rays(st.squares, q, ALL_DIRECTIONS) else MoveCoords(st, q, 0).coords
  }

  /** Some piece not of `color` attacks `c`. */
  predicate Attacked(st: State, color: P.Color, c: Coord)
  {
    exists j | 0 <= j < 64 :: st.squares[j].Some? && st.squares[j].value.color != color
      && c in AttackTargets(st, st.squares[j].value)
  }

  /** The squares of `cs`, in order, that no enemy piece attacks. */
  function SafeSquares(st: State, color: P.Color, cs: seq<Coord>): (r: seq<Coord>)
    ensures forall x :: x in r <==> x in cs && !Attacked(st, color, x)
    ensures |r| <= |cs|
  {
    if cs == [] then []
    else (if Attacked(st, color, cs[0]) then [] else [cs[0]]) + SafeSquares(st, color, cs[1..])
  }

  /** The home rank of a colour's king: 0 for White, 7 for Black. */
  function HomeRank(color: P.Color): Index
  {
    if color == P.White then 0 else 7
  }

  /** The castling squares of the corrected king. */
  function IntendedCastling(st: State, p: P.Piece): seq<Coord>
  {
    var home := HomeRank(p.color);
    var kingside := if p.color == P.White then st.whiteKingside else st.blackKingside;
    var queenside := if p.color == P.White then st.whiteQueenside else st.blackQueenside;
    var onHome := p.coord == Coord(4, home);
    var f, g, d, c := Coord(5, home), Coord(6, home), Coord(3, home), Coord(2, home);
    (if kingside && onHome && At(st.squares, f).None? && At(st.squares, g).None?
        && !Attacked(st, p.color, f) && !Attacked(st, p.color, g) then [g] else [])
    + (if queenside && onHome && At(st.squares, d).None? && At(st.squares, c).None?
        && !Attacked(st, p.color, d) && !Attacked(st, p.color, c) then [c] else [])
  }

  /** The corrected `get_king_move_coords`. */
  function IntendedKingCoords(st: State, p: P.Piece): seq<Coord>
  {
    SafeSquares(st, p.color, Rays(st.squares, p, ALL_DIRECTIONS)) + IntendedCastling(st, p)
  }

  /** The corrected king steps to neighbouring squares not held by its own
      colour and not attacked, and castles only to g or c of its home rank:
      to g only with the kingside right, to c only with the queenside right,
      only from e of its home rank, and only onto an empty square. */
  lemma IntendedKingTargets(st: State, p: P.Piece, x: Coord)
    requires p.kind == P.King
    ensures x in IntendedKingCoords(st, p) <==>
      (IsKingStep(p.coord, x) && !HoldsColor(st.squares, x, p.color) && !Attacked(st, p.color, x))
      || x in IntendedCastling(st, p)
    ensures x in IntendedCastling(st, p) ==>
      p.coord == Coord(4, HomeRank(p.color)) && At(st.squares, x).None? && !Attacked(st, p.color, x)
      && ((x == Coord(6, HomeRank(p.color)) && (if p.color == P.White then st.whiteKingside else st.blackKingside))
          || (x == Coord(2, HomeRank(p.color)) && (if p.color == P.White then st.whiteQueenside else st.blackQueenside)))
  {
    OneStepRays(st.squares, p, x);
  }

  /** The corrected king on e4 of the empty board gets exactly its eight
      neighbours, as the source's test expects. */
  lemma IntendedLoneKingE4()
    ensures IntendedKingCoords(LoneWhiteKing(Coord(4, 3)), P.New(P.King, P.White, Coord(4, 3))) == E4_NEIGHBOURS
  {
    var st := LoneWhiteKing(Coord(4, 3));
    LoneKingE4Rays();
    NoEnemiesSafe(st, P.White, E4_NEIGHBOURS);
  }

  /** Without enemy pieces no square is attacked. */
  lemma {:induction false} NoEnemiesSafe(st: State, color: P.Color, cs: seq<Coord>)
    requires NoEnemies(st.squares, color)
    ensures SafeSquares(st, color, cs) == cs
  {
    if cs != [] {
      NoEnemiesSafe(st, color, cs[1..]);
      assert [cs[0]] + cs[1..] == cs;
    }
  }

  /** On the standard setup every neighbour of e1 holds a white piece, so
      the king on e1 has no one-square ray. */
  lemma StandardKingE1Rays()
    ensures Rays(StandardSquares(), WhiteKingE1(), ALL_DIRECTIONS) == []
  {
    var rays := Rays(StandardSquares(), WhiteKingE1(), ALL_DIRECTIONS);
    if rays != [] {
      var x := rays[0];
      OneStepRays(StandardSquares(), WhiteKingE1(), x);
      StandardLayout(x);
    }
  }

  /** The corrected king on e1 of the standard setup has no move, as the
      source's test expects: its neighbours and the squares between it and
      the rooks are all occupied. */
  lemma IntendedStandardKingE1()
    ensures IntendedKingCoords(InitialState(StandardChess), WhiteKingE1()) == []
  {
    StandardKingE1Rays();
    StandardLayout(F1);
    StandardLayout(D1);
  }
}
