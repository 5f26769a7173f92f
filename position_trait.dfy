// The default methods of the `Position` trait of
// lib/chui_core/src/traits/position.rs, over the cells a store reports: the
// king generator with its castling squares, and the framed text of a
// position. The rays, the knight jumps and the pawn targets of the trait are
// the functions of `Geometry`, which the trait computes in the same order.

module PositionTrait {
  import opened Errors
  import opened Coordinate
  import P = Piece
  import opened Geometry
  import BR = BoardRules
  import G = Game
  import Text

  /** The rank index on which the king of `color` castles. */
  function HomeRank(color: P.Color): Index
  {
    match color
    case White => 0
    case Black => 7
  }

  /** The castling right the trait reads under the name "kingside". */
  function KingsideRight(st: BR.State, color: P.Color): bool
  {
    match color
    case White => st.whiteKingside
    case Black => st.blackKingside
  }

  /** The castling right the trait reads under the name "queenside". */
  function QueensideRight(st: BR.State, color: P.Color): bool
  {
    match color
    case White => st.whiteQueenside
    case Black => st.blackQueenside
  }

  /** Both squares empty on the home rank of `color`. */
  predicate BothEmpty(st: BR.State, color: P.Color, f1: Index, f2: Index)
  {
    At(st.squares, Coord(f1, HomeRank(color))).None? && At(st.squares, Coord(f2, HomeRank(color))).None?
  }

  /** The castling squares as written: the kingside right looks at the d and
      c files and adds c, the queenside right looks at the f and g files and
      adds g. The default attacker search finds nobody, so only emptiness is
      checked. */
  function CastlingAsWritten(st: BR.State, color: P.Color): seq<Coord>
  {
    (if KingsideRight(st, color) && BothEmpty(st, color, 3, 2) then [Coord(2, HomeRank(color))] else [])
    + (if QueensideRight(st, color) && BothEmpty(st, color, 5, 6) then [Coord(6, HomeRank(color))] else [])
  }

  /** `get_king_move_coords` as written: the eight one-square rays, all kept
      by the empty attacker filter, then the castling squares. */
  function KingTargetsAsWritten(st: BR.State, p: P.Piece): seq<Coord>
  {
    Rays(st.squares, p, ALL_DIRECTIONS) + CastlingAsWritten(st, p.color)
  }

  /** The castling squares with the rights the right way round: the
      queenside right gives c over empty d and c, the kingside right gives g
      over empty f and g. */
  function Castling(st: BR.State, color: P.Color): seq<Coord>
  {
    (if QueensideRight(st, color) && BothEmpty(st, color, 3, 2) then [Coord(2, HomeRank(color))] else [])
    + (if KingsideRight(st, color) && BothEmpty(st, color, 5, 6) then [Coord(6, HomeRank(color))] else [])
  }

  /** The corrected `get_king_move_coords`. */
  function KingTargets(st: BR.State, p: P.Piece): seq<Coord>
  {
    Rays(st.squares, p, ALL_DIRECTIONS) + Castling(st, p.color)
  }

  /** As written, a king reaches its neighbours not held by its own colour,
      c of its home rank under the kingside right and g under the queenside
      right, wherever the king stands. */
  lemma KingTargetsAsWrittenReach(st: BR.State, p: P.Piece, x: Coord)
    requires p.kind == P.King
    ensures x in KingTargetsAsWritten(st, p) <==>
      (IsKingStep(p.coord, x) && !HoldsColor(st.squares, x, p.color))
      || (x == Coord(2, HomeRank(p.color)) && KingsideRight(st, p.color) && BothEmpty(st, p.color, 3, 2))
      || (x == Coord(6, HomeRank(p.color)) && QueensideRight(st, p.color) && BothEmpty(st, p.color, 5, 6))
  {
    OneStepRays(st.squares, p, x);
  }

  /** The corrected king reaches its free neighbours, g of its home rank only
      under the kingside right and c only under the queenside right, each
      over two empty squares. */
  lemma KingTargetsReach(st: BR.State, p: P.Piece, x: Coord)
    requires p.kind == P.King
    ensures x in KingTargets(st, p) <==>
      (IsKingStep(p.coord, x) && !HoldsColor(st.squares, x, p.color))
      || (x == Coord(6, HomeRank(p.color)) && KingsideRight(st, p.color) && BothEmpty(st, p.color, 5, 6))
      || (x == Coord(2, HomeRank(p.color)) && QueensideRight(st, p.color) && BothEmpty(st, p.color, 3, 2))
  {
    OneStepRays(st.squares, p, x);
  }

  /** With only the kingside right and an empty back rank between the rooks,
      the trait as written offers the queenside square c and not g; the
      corrected castling offers g. */
  lemma KingsideRightGivesC(st: BR.State, color: P.Color)
    requires KingsideRight(st, color) && !QueensideRight(st, color)
    requires BothEmpty(st, color, 3, 2) && BothEmpty(st, color, 5, 6)
    ensures CastlingAsWritten(st, color) == [Coord(2, HomeRank(color))]
    ensures Castling(st, color) == [Coord(6, HomeRank(color))]
  {
  }

  // ----- put_piece -----

  /** The cells after `put_piece(piece, c)` of a store that keeps whole
      pieces: the square holds the piece retagged with `c`, or nothing. */
  function Placed(s: Squares, piece: Cell, c: Coord): Squares
  {
    s[ToIndex(c) := BR.Retag(piece, c)]
  }

  /** After a put the square holds the piece, now carrying that square, and
      every other square is as before. */
  lemma PlacedReadsBack(s: Squares, piece: Cell, c: Coord, d: Coord)
    ensures At(Placed(s, piece, c), c).Some? <==> piece.Some?
    ensures piece.Some? ==> At(Placed(s, piece, c), c) == Some(P.SetCoord(piece.value, c))
    ensures d != c ==> At(Placed(s, piece, c), d) == At(s, d)
  {
    BR.ToIndexInjective(c, d);
  }

  /** Putting back what a square held, retagged, is the same as retagging
      that square alone; on a retagged board it changes nothing. */
  lemma PlacedSameIsIdentity(s: Squares, c: Coord)
    requires s == BR.Retagged(s)
    ensures Placed(s, At(s, c), c) == s
  {
    BR.RetaggedTagsEveryPiece(s, c);
    if At(s, c).Some? {
      assert At(s, c).value == P.SetCoord(At(s, c).value, c);
    }
  }

  // ----- to_string -----

  /** The last line of the frame, after the files along the bottom. */
  const POSITION_BOTTOM: string := " " + "    ║\n╚═════════════════════════╝"

  /** The text above the rank lines: the heading and the top of the frame
      with the file letters. */
  function HeadText(color: P.Color): string
  {
    "Position:\n" + G.TOP + G.Spaced(G.FileOrder(color)) + G.TOP_RULE
  }

  /** The text below the rank lines: the bottom of the frame with the file
      letters and a final line break. */
  function FootText(color: P.Color): string
  {
    G.BOTTOM_RULE + G.Spaced(G.FileOrder(color)) + POSITION_BOTTOM + "\n"
  }

  /** The framed board seen by `color`: the file letters above and below
      and each rank numbered on both sides. */
  function FrameText(cells: Squares, color: P.Color): string
  {
    G.TOP + G.Spaced(G.FileOrder(color)) + G.TOP_RULE
    + G.RanksText(cells, G.RowOrder(color), G.ColOrder(color))
    + G.BOTTOM_RULE + G.Spaced(G.FileOrder(color)) + POSITION_BOTTOM
  }

  /** `to_string(color)`: "Position:", the framed board and a line break. */
  function PositionText(cells: Squares, color: P.Color): string
  {
    "Position:\n" + FrameText(cells, color) + "\n"
  }

  /** The text of a position cut at its rank lines. */
  lemma PositionTextParts(cells: Squares, color: P.Color)
    ensures PositionText(cells, color)
      == HeadText(color) + G.RanksText(cells, G.RowOrder(color), G.ColOrder(color)) + FootText(color)
  {
    var files := G.Spaced(G.FileOrder(color));
    Regroup("Position:\n", G.TOP, files, G.TOP_RULE, G.RanksText(cells, G.RowOrder(color), G.ColOrder(color)),
      G.BOTTOM_RULE, files, POSITION_BOTTOM, "\n");
  }

  lemma Regroup(a: string, b: string, c: string, d: string, e: string, f: string, g: string, h: string, i: string)
    ensures a + (b + c + d + e + f + g + h) + i == (a + b + c + d) + e + (f + g + h + i)
  {
  }

  /** Where the first rank line starts in the text of a position. */
  const RANKS_AT: nat := |"Position:\n"| + |G.TOP| + 16 + |G.TOP_RULE|

  lemma HeadLength(color: P.Color)
    ensures |HeadText(color)| == RANKS_AT
  {
  }

  /** Square by square: in line `k` of the ranks, the character for column
      `l` is the symbol of the cell on the rank and file that `color` sees
      there (ranks 8 to 1 and files a to h for White, the reverse for Black). */
  lemma PositionTextCell(cells: Squares, color: P.Color, k: nat, l: nat)
    requires k < 8 && l < 8
    ensures RANKS_AT + 28 * k + 6 + 2 * l < |PositionText(cells, color)|
    ensures var rank: Index := if color == P.White then 7 - k else k;
      var file: Index := if color == P.White then l else 7 - l;
      PositionText(cells, color)[RANKS_AT + 28 * k + 6 + 2 * l] == G.CellSymbol(At(cells, Coord(file, rank)))
  {
    var rank: Index := if color == P.White then 7 - k else k;
    var file: Index := if color == P.White then l else 7 - l;
    assert G.RowOrder(color)[k] == rank && G.ColOrder(color)[l] == file;
    PositionTextParts(cells, color);
    RanksCell(cells, color, G.RowOrder(color), G.ColOrder(color), k, l);
  }

  /** The same for any order of rows and columns. */
  lemma RanksCell(cells: Squares, color: P.Color, rows: seq<Index>, cols: seq<Index>, k: nat, l: nat)
    requires |cols| == 8 && k < |rows| && l < 8
    ensures var text := HeadText(color) + G.RanksText(cells, rows, cols) + FootText(color);
      RANKS_AT + 28 * k + 6 + 2 * l < |text|
      && text[RANKS_AT + 28 * k + 6 + 2 * l] == G.CellSymbol(At(cells, Coord(cols[l], rows[k])))
  {
    RanksTextCell(cells, rows, cols, k, l);
    HeadLength(color);
    CharAfter(HeadText(color), G.RanksText(cells, rows, cols), FootText(color), RANKS_AT, 28 * k + 6 + 2 * l,
      G.CellSymbol(At(cells, Coord(cols[l], rows[k]))));
  }

  /** Character `28 k + 6 + 2 l` of the rank lines is the symbol of cell
      `l` of line `k`. */
  lemma RanksTextCell(cells: Squares, rows: seq<Index>, cols: seq<Index>, k: nat, l: nat)
    requires |cols| == 8 && k < |rows| && l < 8
    ensures 28 * k + 6 + 2 * l < |G.RanksText(cells, rows, cols)|
    ensures G.RanksText(cells, rows, cols)[28 * k + 6 + 2 * l] == G.CellSymbol(At(cells, Coord(cols[l], rows[k])))
  {
    G.RanksTextLines(cells, rows, cols, k);
    RankLineCell(cells, rows[k], cols, l);
    Inside(G.RanksText(cells, rows, cols), 28 * k, 28 * k + 28, 6 + 2 * l);
  }

  /** A character of the middle part of a text, past a head of length `n`. */
  lemma CharAfter(head: string, mid: string, foot: string, n: nat, i: nat, ch: char)
    requires |head| == n && i < |mid| && mid[i] == ch
    ensures n + i < |head + mid + foot| && (head + mid + foot)[n + i] == ch
  {
    Middle(head, mid, foot, i);
  }

  /** Character `6 + 2 l` of a rank line is the symbol of its `l`-th cell. */
  lemma RankLineCell(cells: Squares, rank: Index, cols: seq<Index>, l: nat)
    requires l < |cols|
    ensures 6 + 2 * l < |G.RankLine(cells, rank, cols)|
    ensures G.RankLine(cells, rank, cols)[6 + 2 * l] == G.CellSymbol(At(cells, Coord(cols[l], rank)))
  {
    var head := "║ " + Text.NatToString(rank + 1) + " │";
    var cellsText := G.CellsText(cells, rank, cols);
    var tail := " │ " + Text.NatToString(rank + 1) + " ║\n";
    assert |Text.NatToString(rank + 1)| == 1;
    assert G.RankLine(cells, rank, cols) == head + cellsText + tail;
    G.CellsTextAt(cells, rank, cols, l);
    Middle(head, cellsText, tail, 2 * l + 1);
  }

  /** A character of the middle part of a text. */
  lemma Middle(pre: string, mid: string, post: string, i: nat)
    requires i < |mid|
    ensures (pre + mid + post)[|pre| + i] == mid[i]
  {
  }

  /** A character of a slice. */
  lemma Inside(s: string, from: nat, to: nat, i: nat)
    requires from <= to <= |s| && i < to - from
    ensures s[from + i] == s[from..to][i]
  {
  }

  /** The text of a position opens with "Position:" on a line of its own and
      ends with a line break. */
  lemma PositionTextEnds(cells: Squares, color: P.Color)
    ensures |PositionText(cells, color)| > 10
    ensures PositionText(cells, color)[..10] == "Position:\n"
    ensures PositionText(cells, color)[|PositionText(cells, color)| - 1] == '\n'
  {
    PositionTextParts(cells, color);
    HeadLength(color);
    HeadStarts(color);
    FootEnds(color);
    Ends(HeadText(color), G.RanksText(cells, G.RowOrder(color), G.ColOrder(color)), FootText(color));
  }

  lemma HeadStarts(color: P.Color)
    ensures |HeadText(color)| > 10 && HeadText(color)[..10] == "Position:\n"
  {
    var rest := G.TOP + G.Spaced(G.FileOrder(color)) + G.TOP_RULE;
    assert HeadText(color) == "Position:\n" + rest;
  }

  lemma FootEnds(color: P.Color)
    ensures |FootText(color)| > 0 && FootText(color)[|FootText(color)| - 1] == '\n'
  {
  }

  /** The first ten and the last character of a three-part text. */
  lemma Ends(head: string, mid: string, foot: string)
    requires |head| > 10 && |foot| > 0
    ensures (head + mid + foot)[..10] == head[..10]
    ensures (head + mid + foot)[|head + mid + foot| - 1] == foot[|foot| - 1]
  {
  }
}
