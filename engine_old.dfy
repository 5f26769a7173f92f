// The oldest `Engine`, src/modules/engine.rs: the starting state of a game
// with its 8x8 grid of squares, the letter each square prints as, and the
// text rendering of the position for either side. The grid is indexed
// [row][column], row 0 being rank 8 and column 0 file a.

module OldEngine {
  import opened Errors
  import opened Text
  import opened Coordinate
  import P = Piece
  import OP = OldPlayer
  import G = Geometry
  import Bitmask

  datatype SquareColor = Light | Dark

  /** The oldest `Piece`: a kind and a colour, or no piece. */
  type OldPiece = Option<(P.PieceKind, P.Color)>

  datatype Square = Square(coord: (char, nat), piece: OldPiece, color: SquareColor)

  /** The engine state (its move list is not part of this model). */
  datatype Engine = Engine(
    white: OP.Player,
    black: OP.Player,
    board: seq<seq<Square>>,
    toMove: P.Color,
    canWhiteCastleKingside: bool,
    canWhiteCastleQueenside: bool,
    canBlackCastleKingside: bool,
    canBlackCastleQueenside: bool,
    pawnMoveOrPieceCaptureHalfMoveCounter: nat,
    halfMoveCounter: nat,
    moveCounter: nat,
    enpassantTargetSquare: (char, nat))

  /** An 8x8 grid. */
  predicate IsGrid(board: seq<seq<Square>>)
  {
    |board| == 8 && forall i :: 0 <= i < 8 ==> |board[i]| == 8
  }

  /** The piece `new` puts in row `i`, column `j`. */
  function StartPiece(i: Index, j: Index): OldPiece
  {
    if i == 0 then Some((G.BackRank(j), P.Black))
    else if i == 1 then Some((P.Pawn, P.Black))
    else if i == 6 then Some((P.Pawn, P.White))
    else if i == 7 then Some((G.BackRank(j), P.White))
    else None
  }

  /** The square `new` puts in row `i`, column `j`: its name, its piece and
      its colour, light where row and column have the same parity. */
  function StartSquare(i: Index, j: Index): Square
  {
    Square((FileChar(j), 8 - i), StartPiece(i, j), if (i + j) % 2 == 0 then Light else Dark)
  }

  /** The grid `new` writes out square by square. */
  function StartGrid(): (board: seq<seq<Square>>)
    ensures IsGrid(board)
  {
    seq(8, (i: int) requires 0 <= i < 8 => seq(8, (j: int) requires 0 <= j < 8 => StartSquare(i, j)))
  }

  /** `Engine::new`: White to move, every castling right, the counters at
      zero, no en passant target, and the starting grid. */
  function New(white: OP.Player, black: OP.Player): (e: Engine)
    ensures IsGrid(e.board)
  {
    Engine(white, black, StartGrid(), P.White, true, true, true, true, 0, 0, 0, ('-', 0))
  }

  /** The grid's square names and colours: row `i` is rank 8 - i, column `j`
      is file `j`, and a square is light exactly when the bitmask of light
      squares holds it (so a1 is dark and h1 light). */
  lemma StartGridSquares(i: Index, j: Index)
    ensures StartGrid()[i][j].coord == (FileChar(j), 8 - i)
    ensures StartGrid()[i][j].color == Light <==> 8 * (7 - i) + j in Bitmask.LIGHT_SQUARES
    ensures StartGrid()[7][0].color == Dark && StartGrid()[7][7].color == Light
  {
    var b: Bitmask.Square := 8 * (7 - i) + j;
    Bitmask.LightSquareParity(b);
    assert b % 8 == j && b / 8 == 7 - i;
  }

  /** The grid holds the standard setup: the same kind and colour as the
      standard 64-square board on every square. */
  lemma StartGridIsStandard(i: Index, j: Index)
    ensures StartGrid()[i][j].piece.None? <==> G.StandardCell(8 * (7 - i) + j).None?
    ensures StartGrid()[i][j].piece.Some? ==>
      StartGrid()[i][j].piece.value ==
        (G.StandardCell(8 * (7 - i) + j).value.kind, G.StandardCell(8 * (7 - i) + j).value.color)
  {
    var k := 8 * (7 - i) + j;
    assert k % 8 == j && k / 8 == 7 - i;
  }

  const MIDDLE_DOT: char := '·'

  /** `match_for_piece`: the piece's letter, upper case for White and lower
      case for Black, or a middle dot for an empty square. */
  function MatchForPiece(sq: Square): (c: char)
    ensures c == MIDDLE_DOT <==> sq.piece.None?
    ensures sq.piece.Some? && sq.piece.value.1 == P.White ==> c == P.KindLetter(sq.piece.value.0)
    ensures sq.piece.Some? && sq.piece.value.1 == P.Black ==>
      c as int == P.KindLetter(sq.piece.value.0) as int + 32
  {
    match sq.piece
    case None => MIDDLE_DOT
    case Some((kind, color)) =>
      match (kind, color)
      case (Pawn, White) => 'P'
      case (Rook, White) => 'R'
      case (Knight, White) => 'N'
      case (Bishop, White) => 'B'
      case (Queen, White) => 'Q'
      case (King, White) => 'K'
      case (Pawn, Black) => 'p'
      case (Rook, Black) => 'r'
      case (Knight, Black) => 'n'
      case (Bishop, Black) => 'b'
      case (Queen, Black) => 'q'
      case (King, Black) => 'k'
  }

  // ----- display -----

  /** The row (and column) visited `k`-th: in order for White, in reverse
      for Black. */
  function Visit(color: P.Color, k: Index): Index
  {
    if color == P.White then k else 7 - k
  }

  /** The two player lines, the viewer's side first. */
  function Headers(e: Engine, color: P.Color): string
  {
    if color == P.White then OP.Display(e.white) + "\n" + OP.Display(e.black)
    else OP.Display(e.black) + "\n" + OP.Display(e.white)
  }

  function ToMoveText(c: P.Color): string
  {
    if c == P.White then "White to move." else "Black to move."
  }

  /** The first `m` cells of a row, visited in `color`'s order. */
  function Cells(row: seq<Square>, color: P.Color, m: nat): string
    requires |row| == 8 && m <= 8
  {
    if m == 0 then "" else Cells(row, color, m - 1) + " " + [MatchForPiece(row[Visit(color, m - 1)])] + " "
  }

  /** The line of the `k`-th row visited: its rank number, a bar, its cells. */
  function RankLine(e: Engine, color: P.Color, k: Index): string
    requires IsGrid(e.board)
  {
    var i := Visit(color, k);
    NatToString(8 - i) + " |" + Cells(e.board[i], color, 8)
  }

  /** The rank lines in visiting order. */
  function RankLines(e: Engine, color: P.Color): (r: seq<string>)
    requires IsGrid(e.board)
    ensures |r| == 8
  {
    seq(8, (k: int) requires 0 <= k < 8 => RankLine(e, color, k))
  }

  /** The first `m` file letters, visited in `color`'s order. */
  function Labels(color: P.Color, m: nat): string
    requires m <= 8
  {
    if m == 0 then "" else Labels(color, m - 1) + " " + [FileChar(Visit(color, m - 1))] + " "
  }

  const RULE := "  +-----------------------"
  const INDENT := "   "
  const FOOTER := RULE + "\n" + INDENT

  /** The board part of the display: the rank lines, each ended by a line
      break, the rule, the files. */
  function Output(e: Engine, color: P.Color): string
    requires IsGrid(e.board)
  {
    Terminated(RankLines(e, color), '\n') + FOOTER + Labels(color, 8)
  }

  lemma Regroup(a: string, b: string, c: string, d: string, f: string)
    ensures a + b + c + d + f == a + (b + c + d + f)
  {
  }

  /** What `display` returns. */
  function Rendered(e: Engine, color: P.Color): string
    requires IsGrid(e.board)
  {
    Headers(e, color) + "\nPosition:\n" + Output(e, color) + "\n" + ToMoveText(e.toMove)
  }

  /** `display`: the loop over rows (one pass writes one rank line), then
      the rule and the file letters. */
  method Display(e: Engine, color: P.Color) returns (s: string)
    requires IsGrid(e.board)
    ensures s == Rendered(e, color)
  {
    var output := "";
    ghost var lines := RankLines(e, color);
    for k := 0 to 8
      invariant output == Terminated(lines[..k], '\n')
    {
      output := WriteRankLine(output, e, color, k);
      assert lines[..k + 1][..k] == lines[..k];
    }
    assert lines[..8] == lines;
    output := output + FOOTER;
    ghost var ranks := output;
    for m := 0 to 8
      invariant output == ranks + Labels(color, m)
    {
      ghost var labels := Labels(color, m);
      var f := FileChar(Visit(color, m));
      output := output + " " + [f] + " ";
      Regroup(ranks, labels, " ", [f], " ");
    }
    s := Headers(e, color) + "\nPosition:\n" + output + "\n" + ToMoveText(e.toMove);
  }

  /** One pass of the row loop of `display`: the rank number, the bar, the
      loop over the row's cells, and a line break. */
  method WriteRankLine(start: string, e: Engine, color: P.Color, k: Index) returns (output: string)
    requires IsGrid(e.board)
    ensures output == start + RankLine(e, color, k) + "\n"
  {
    var i := Visit(color, k);
    var number := NatToString(8 - i as int);
    output := start + number + " |";
    ghost var lead := output;
    for m := 0 to 8
      invariant output == lead + Cells(e.board[i], color, m)
    {
      ghost var cells := Cells(e.board[i], color, m);
      var c := MatchForPiece(e.board[i][Visit(color, m)]);
      output := output + " " + [c] + " ";
      Regroup(lead, cells, " ", [c], " ");
    }
    Regroup(start, number, " |", Cells(e.board[i], color, 8), "");
    assert Cells(e.board[i], color, 8) + "" == Cells(e.board[i], color, 8);
    output := output + "\n";
  }

  // ----- the layout of the display -----

  /** The first two lines of the display: the viewer's player first. */
  function PlayerLines(e: Engine, color: P.Color): (r: seq<string>)
    ensures |r| == 2
  {
    if color == P.White then [OP.Display(e.white), OP.Display(e.black)]
    else [OP.Display(e.black), OP.Display(e.white)]
  }

  /** The last three lines: the rule, the file letters, the side to move. */
  function FooterLines(e: Engine, color: P.Color): (r: seq<string>)
    ensures |r| == 3
  {
    [RULE, INDENT + Labels(color, 8), ToMoveText(e.toMove)]
  }

  /** The display line by line: the two player lines, "Position:", the
      eight rank lines in visiting order, the rule, the file letters and the
      side to move. */
  function Lines(e: Engine, color: P.Color): (r: seq<string>)
    requires IsGrid(e.board)
    ensures |r| == 14
  {
    PlayerLines(e, color) + ["Position:"] + RankLines(e, color) + FooterLines(e, color)
  }

  /** The display is its lines joined by line breaks, so it splits back into
      them when no player line holds a line break. */
  lemma DisplayLines(e: Engine, color: P.Color)
    requires IsGrid(e.board)
    requires '\n' !in OP.Display(e.white) && '\n' !in OP.Display(e.black)
    ensures Split(Rendered(e, color), '\n') == Lines(e, color)
  {
    DisplayIsJoin(e, color);
    RankLinesBreakFree(e, color);
    FooterBreakFree(e, color);
    var players := PlayerLines(e, color);
    var head := players + ["Position:"];
    HeadBreakFree(players);
    NoneContainAppend(head, RankLines(e, color), '\n');
    NoneContainAppend(head + RankLines(e, color), FooterLines(e, color), '\n');
    SplitJoin(Lines(e, color), '\n');
  }

  lemma NoneContainAppend(a: seq<string>, b: seq<string>, c: char)
    requires NoneContain(a, c) && NoneContain(b, c)
    ensures NoneContain(a + b, c)
  {
    forall k | 0 <= k < |a + b| ensures c !in (a + b)[k] {
      if k >= |a| {
        assert (a + b)[k] == b[k - |a|];
      }
    }
  }

  lemma HeadBreakFree(players: seq<string>)
    requires |players| == 2 && '\n' !in players[0] && '\n' !in players[1]
    ensures NoneContain(players + ["Position:"], '\n')
  {
    assert '\n' !in "Position:";
  }

  lemma RankLinesBreakFree(e: Engine, color: P.Color)
    requires IsGrid(e.board)
    ensures NoneContain(RankLines(e, color), '\n')
  {
    forall k | 0 <= k < 8 ensures '\n' !in RankLines(e, color)[k] {
      RankLineBreakFree(e, color, k);
    }
  }

  lemma FooterBreakFree(e: Engine, color: P.Color)
    ensures NoneContain(FooterLines(e, color), '\n')
  {
    LabelsLayout(color, 8);
    ToMoveBreakFree(e.toMove);
    RuleBreakFree();
    ThreeBreakFree(RULE, INDENT + Labels(color, 8), ToMoveText(e.toMove));
  }

  lemma ToMoveBreakFree(c: P.Color)
    ensures '\n' !in ToMoveText(c)
  {
  }

  lemma RuleBreakFree()
    ensures '\n' !in RULE
  {
  }

  lemma ThreeBreakFree(a: string, b: string, c: string)
    requires '\n' !in a && '\n' !in b && '\n' !in c
    ensures NoneContain([a, b, c], '\n')
  {
  }

  lemma DisplayIsJoin(e: Engine, color: P.Color)
    requires IsGrid(e.board)
    ensures Rendered(e, color) == Join(Lines(e, color), '\n')
  {
    var players, ranks, footer := PlayerLines(e, color), RankLines(e, color), FooterLines(e, color);
    JoinParts(players, "Position:", ranks, footer, '\n');
    PlayersJoin(e, color);
    FooterJoin(e, color);
    TerminatedIsJoin(ranks, '\n');
    JoinShape(players[0], players[1], Join(ranks, '\n'), Labels(color, 8), ToMoveText(e.toMove));
  }

  lemma JoinParts(a: seq<string>, x: string, r: seq<string>, f: seq<string>, d: char)
    requires |a| >= 1 && |r| >= 1 && |f| >= 1
    ensures Join(a + [x] + r + f, d) == Join(a, d) + [d] + x + [d] + Join(r, d) + [d] + Join(f, d)
  {
    JoinSnoc(a, x, d);
    JoinAppend(a + [x], r, d);
    JoinAppend(a + [x] + r, f, d);
  }

  lemma PlayersJoin(e: Engine, color: P.Color)
    ensures Join(PlayerLines(e, color), '\n') == Headers(e, color)
  {
    var players := PlayerLines(e, color);
    JoinSnoc([players[0]], players[1], '\n');
    assert [players[0]] + [players[1]] == players;
  }

  lemma FooterJoin(e: Engine, color: P.Color)
    ensures Join(FooterLines(e, color), '\n') == RULE + "\n" + (INDENT + Labels(color, 8)) + "\n" + ToMoveText(e.toMove)
  {
    var footer := FooterLines(e, color);
    JoinSnoc([footer[0]], footer[1], '\n');
    assert [footer[0]] + [footer[1]] == footer[..2];
    JoinSnoc(footer[..2], footer[2], '\n');
    assert footer[..2] + [footer[2]] == footer;
  }

  lemma JoinShape(h1: string, h2: string, ranks: string, labels: string, toMove: string)
    ensures (h1 + "\n" + h2) + "\n" + "Position:" + "\n" + ranks + "\n"
        + (RULE + "\n" + (INDENT + labels) + "\n" + toMove)
      == (h1 + "\n" + h2) + "\nPosition:\n" + (ranks + "\n" + FOOTER + labels) + "\n" + toMove
  {
    assert "\nPosition:\n" == "\n" + "Position:" + "\n";
  }

  /** A row's cells: three characters each, the cell's letter between two
      spaces, in visiting order. */
  lemma {:induction false} CellsLayout(row: seq<Square>, color: P.Color, m: nat)
    requires |row| == 8 && m <= 8
    ensures |Cells(row, color, m)| == 3 * m
    ensures forall t :: 0 <= t < m ==> Cells(row, color, m)[3 * t + 1] == MatchForPiece(row[Visit(color, t)])
    ensures '\n' !in Cells(row, color, m)
  {
    if m > 0 {
      CellsLayout(row, color, m - 1);
      var prev := Cells(row, color, m - 1);
      assert Cells(row, color, m) == prev + [' ', MatchForPiece(row[Visit(color, m - 1)]), ' '];
    }
  }

  /** A rank line: the rank number, " |", then the cells, 27 characters;
      the letter of the `m`-th visited square is at position 4 + 3m. White
      sees rank 8 first and files a to h; Black sees rank 1 first and files
      h to a. */
  lemma RankLineLayout(e: Engine, color: P.Color, k: Index)
    requires IsGrid(e.board)
    ensures |RankLine(e, color, k)| == 27
    ensures RankLine(e, color, k)[0] == DigitChar(if color == P.White then 8 - k else k + 1)
    ensures forall m :: 0 <= m < 8 ==>
      RankLine(e, color, k)[4 + 3 * m] == MatchForPiece(e.board[Visit(color, k)][Visit(color, m)])
  {
    var i := Visit(color, k);
    var row := e.board[i];
    CellsLayout(row, color, 8);
    var cells := Cells(row, color, 8);
    assert NatToString(8 - i as int) == [DigitChar(8 - i as int)];
    var line := RankLine(e, color, k);
    assert line == [DigitChar(8 - i as int), ' ', '|'] + cells;
    forall m | 0 <= m < 8 ensures line[4 + 3 * m] == MatchForPiece(row[Visit(color, m)]) {
      assert line[4 + 3 * m] == cells[3 * m + 1];
    }
  }

  lemma RankLineBreakFree(e: Engine, color: P.Color, k: Index)
    requires IsGrid(e.board)
    ensures '\n' !in RankLine(e, color, k)
  {
    var i := Visit(color, k);
    CellsLayout(e.board[i], color, 8);
    assert NatToString(8 - i as int) == [DigitChar(8 - i as int)];
  }

  /** The file letters: three characters each, the letter between two
      spaces; a to h for White, h to a for Black. */
  lemma {:induction false} LabelsLayout(color: P.Color, m: nat)
    requires m <= 8
    ensures |Labels(color, m)| == 3 * m
    ensures forall t :: 0 <= t < m ==> Labels(color, m)[3 * t + 1] == FileChar(Visit(color, t))
    ensures '\n' !in INDENT + Labels(color, m)
  {
    if m > 0 {
      LabelsLayout(color, m - 1);
      var prev := Labels(color, m - 1);
      assert Labels(color, m) == prev + [' ', FileChar(Visit(color, m - 1)), ' '];
    }
  }

  // ----- the starting position -----

  /** The letters of the starting grid: Black's back rank "rnbqkbnr" and
      pawns in rows 0 and 1, White's pawns and back rank "RNBQKBNR" in rows
      6 and 7, dots between. With `RankLineLayout` this places each letter
      of the starting display. */
  lemma StartLetters(i: Index, j: Index)
    ensures MatchForPiece(StartGrid()[i][j]) ==
      if i == 0 then "rnbqkbnr"[j]
      else if i == 1 then 'p'
      else if i == 6 then 'P'
      else if i == 7 then "RNBQKBNR"[j]
      else MIDDLE_DOT
  {
  }

  /** `display_board_colors_by_index`: the colour id it prints for square
      index `idx` of the grid read row by row. */
  function ColorId(idx: nat): (id: nat)
    ensures id < 2
  {
    ((idx / 8) % 2 + idx % 2) % 2
  }

  /** The printed id is 0 exactly on the squares `new` makes light. */
  lemma ColorIdIsLight(i: Index, j: Index)
    ensures ColorId(8 * i + j) == 0 <==> StartGrid()[i][j].color == Light
  {
    assert (8 * i + j) / 8 == i && (8 * i + j) % 8 == j;
  }
}
