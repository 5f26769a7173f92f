// `Game` of lib/chui_core/src/modules/game.rs: the two players, the board of
// lib/chui_core/src/modules/board.rs, the captured pieces, the side to move,
// the counters and the current move. `new` sorts the players by colour,
// `apply_move` hands the current move to the board and flips the turn when
// the board accepts it, and `to_string` draws the position from one side.
//
// The move parser the game holds is an opaque trait object and is not part
// of this model; nor is the console input of `get_input`.

module Game {
  import opened Errors
  import opened Text
  import opened Coordinate
  import opened Geometry
  import P = Piece
  import PL = Player
  import CM = ChessMove
  import BR = BoardRules
  import MB = ModulesBoard

  datatype WinCondition = Checkmate | WhiteResigns | BlackResigns

  datatype DrawCondition =
    | AgreeToDraw
    | Stalemate
    | ThirdRepitition
    | FifthRepetition
    | FiftyMoveRule
    | InsufficientMaterial
    | PerpetualCheck

  /** Everything a `Game` holds except the board. */
  datatype GameState = GameState(
    white: PL.Player,
    black: PL.Player,
    capturedPieces: seq<P.Piece>,
    toMove: P.Color,
    positionRecord: map<string, u8>,
    whiteWins: bool,
    blackWins: bool,
    isDraw: bool,
    halfMoveCounter: nat,
    halfMoveClock: nat,
    moveCounter: nat,
    moveList: seq<CM.MoveState>,
    currentMove: Option<CM.MoveState>,
    winCondition: Option<WinCondition>,
    drawCondition: Option<DrawCondition>,
    displayFor: Option<P.Color>)

  // ----- new -----

  /** The first half of `Game::new`: the players as (white, black), whatever
      order they come in, or `IncompatibleSides` when their colours agree. */
  function Sides(p1: PL.Player, p2: PL.Player): (r: Result<(PL.Player, PL.Player)>)
    ensures r.Err? <==> p1.color == p2.color
    ensures r.Err? ==> r.error == IncompatibleSides
    ensures r.Ok? ==> r.value.0.color == P.White && r.value.1.color == P.Black
    ensures r.Ok? ==> multiset{r.value.0, r.value.1} == multiset{p1, p2}
  {
    match (p1.color, p2.color)
    case (White, Black) => Ok((p1, p2))
    case (Black, White) => Ok((p2, p1))
    case _ => Err(IncompatibleSides)
  }

  /** The state `Game::new` starts from. */
  function Initial(white: PL.Player, black: PL.Player): GameState
  {
    GameState(white, black, [], P.White, map[], false, false, false, 0, 0, 1, [], None, None, None, None)
  }

  /** No side has won and the game is not drawn. */
  predicate Undecided(g: GameState)
  {
    !g.whiteWins && !g.blackWins && !g.isDraw && g.winCondition.None? && g.drawCondition.None?
  }

  /** A new game: White to move, the full-move counter at 1, nothing
      captured, no move played or pending, and no result. */
  lemma InitialState(white: PL.Player, black: PL.Player)
    ensures var g := Initial(white, black);
      g.toMove == P.White && g.halfMoveCounter == 0 && g.halfMoveClock == 0 && g.moveCounter == 1
      && g.capturedPieces == [] && g.moveList == [] && g.currentMove.None? && Undecided(g)
  {
  }

  /** The players `Default` builds the game from. */
  const DEFAULT_WHITE: PL.Player := PL.Player(P.White, Some("Camina Drummer"), Some(37), None)
  const DEFAULT_BLACK: PL.Player := PL.Player(P.Black, Some("Klaes Ashford"), Some(72), Some(1500))

  /** `Default` never reaches its `expect`: its players have different colours. */
  lemma DefaultSidesCompatible()
    ensures Sides(DEFAULT_WHITE, DEFAULT_BLACK) == Ok((DEFAULT_WHITE, DEFAULT_BLACK))
  {
  }

  // ----- turns and moves -----

  /** `toggle_to_move`. */
  function Toggled(g: GameState): (h: GameState)
    ensures h.toMove != g.toMove
  {
    g.(toMove := g.toMove.Opposite())
  }

  /** Toggling twice gives the turn back. */
  lemma ToggleTwice(g: GameState)
    ensures Toggled(Toggled(g)) == g
  {
  }

  /** `process_move`: the current move, recoloured for the side to move, or
      `InvalidMove` when there is none. The game itself is not changed. */
  function Processed(g: GameState): (r: Result<CM.MoveState>)
    ensures r.Err? <==> g.currentMove.None?
    ensures r.Err? ==> r.error == InvalidMove
  {
    if g.currentMove.None? then Err(InvalidMove)
    else Ok(CM.Recolor(g.currentMove.value, g.toMove))
  }

  /** The board's answer to `apply_move` for a processed move: the piece
      that stood on the target, or `InvalidMove` when the move has no piece
      or target or when not exactly one piece of its kind reaches the
      target. A move without a target square is refused like one without a
      piece. */
  function BoardAnswer(st: BR.State, m: CM.MoveState, depth: nat): Result<Cell>
  {
    if m.fromPiece.None? || m.toCoord.None? then Err(InvalidMove)
    else
      var cs := BR.Candidates(st, m.fromPiece.value, m.toCoord.value, depth);
      if |cs| == 1 then Ok(BR.Displaced(st.squares, cs[0], m.toCoord.value)) else Err(InvalidMove)
  }

  /** The board's cells after `apply_move` for a processed move. */
  function BoardAfter(st: BR.State, m: CM.MoveState, depth: nat): Squares
  {
    if m.fromPiece.None? || m.toCoord.None? then st.squares
    else
      var cs := BR.Candidates(st, m.fromPiece.value, m.toCoord.value, depth);
      if |cs| == 1 then BR.Relocated(st.squares, cs[0], m.toCoord.value) else st.squares
  }

  /** What `apply_move` does to the game once the board has answered. */
  function AfterBoard(g: GameState, answer: Result<Cell>): GameState
  {
    if answer.Err? then g
    else if answer.value.Some? then Toggled(g.(capturedPieces := g.capturedPieces + [answer.value.value]))
    else Toggled(g)
  }

  /** When the board accepts the move the turn passes and the displaced
      piece, if any, joins the captured pieces; when it refuses, the game is
      left exactly as it was. */
  lemma AfterBoardOutcome(g: GameState, answer: Result<Cell>)
    ensures answer.Err? ==> AfterBoard(g, answer) == g
    ensures answer.Ok? ==> AfterBoard(g, answer).toMove == g.toMove.Opposite()
    ensures answer.Ok? ==>
      (AfterBoard(g, answer).capturedPieces ==
       g.capturedPieces + (if answer.value.Some? then [answer.value.value] else []))
    ensures answer.Ok? ==>
      AfterBoard(g, answer).(toMove := g.toMove, capturedPieces := g.capturedPieces) == g
  {
  }

  /** A captured piece is the one that stood on the target square before the
      move. */
  lemma CapturedStoodOnTarget(st: BR.State, m: CM.MoveState, depth: nat, q: P.Piece)
    requires BoardAnswer(st, m, depth) == Ok(Some(q))
    ensures m.toCoord.Some? && At(st.squares, m.toCoord.value) == Some(q)
  {
    var cs := BR.Candidates(st, m.fromPiece.value, m.toCoord.value, depth);
    var to := m.toCoord.value;
    assert BR.Displaced(st.squares, cs[0], to) == Some(q);
    assert ToIndex(cs[0].coord) != ToIndex(to);
  }

  // ----- to_string -----

  /** The glyph `Display` gives a colour. */
  function Glyph(c: P.Color): char
  {
    if c == P.White then '♔' else '♚'
  }

  /** How an empty cell and a piece are drawn: a middle dot, or the piece's
      letter. */
  function CellSymbol(cell: Cell): char
  {
    if cell.None? then '·' else P.Repr(cell.value).0
  }

  lemma CellSymbolVisible(cell: Cell)
    ensures !IsWhitespace(CellSymbol(cell))
  {
  }

  /** The file letters along the top and bottom edges. */
  function FileOrder(color: P.Color): seq<char>
  {
    if color == P.White then "abcdefgh" else "hgfedcba"
  }

  /** The ranks, top row first. */
  function RowOrder(color: P.Color): seq<Index>
  {
    if color == P.White then [7, 6, 5, 4, 3, 2, 1, 0] else [0, 1, 2, 3, 4, 5, 6, 7]
  }

  /** The files, left column first. */
  function ColOrder(color: P.Color): seq<Index>
  {
    if color == P.White then [0, 1, 2, 3, 4, 5, 6, 7] else [7, 6, 5, 4, 3, 2, 1, 0]
  }

  const TOP: string := "╔═════════════════════════╗\n║    "
  const TOP_RULE: string := "     ║\n║   ┌─────────────────┐   ║\n"
  const BOTTOM_RULE: string := "║   └─────────────────┘   ║\n║    "
  const BOTTOM: string := " ║\n╚═════════════════════════╝"

  /** Each character preceded by a space. */
  function Spaced(cs: seq<char>): (r: string)
    ensures |r| == 2 * |cs|
  {
    if cs == [] then [] else Spaced(cs[..|cs| - 1]) + [' ', cs[|cs| - 1]]
  }

  /** The cells of one rank, in column order, each preceded by a space. */
  function CellsText(cells: Squares, rank: Index, cols: seq<Index>): (r: string)
    ensures |r| == 2 * |cols|
  {
    if cols == [] then []
    else CellsText(cells, rank, cols[..|cols| - 1]) + [' ', CellSymbol(At(cells, Coord(cols[|cols| - 1], rank)))]
  }

  /** One rank of the board: its number, its cells and its number again. */
  function RankLine(cells: Squares, rank: Index, cols: seq<Index>): string
  {
    "║ " + NatToString(rank + 1) + " │" + CellsText(cells, rank, cols) + " │ " + NatToString(rank + 1) + " ║\n"
  }

  /** The last character of a rank's cells is a visible symbol. */
  lemma CellsTextLast(cells: Squares, rank: Index, cols: seq<Index>)
    requires |cols| == 8
    ensures !IsWhitespace(CellsText(cells, rank, cols)[15])
  {
    CellSymbolVisible(At(cells, Coord(cols[7], rank)));
  }

  /** The text before a rank's closing number has nothing to trim. */
  lemma TrimmedHead(output: string, num: string, cells: string)
    requires output != [] && !IsWhitespace(output[0])
    requires |cells| == 16 && !IsWhitespace(cells[15])
    ensures Trim(output + "║ " + num + " │" + cells) == output + "║ " + num + " │" + cells
  {
    var t := output + "║ " + num + " │" + cells;
    assert t[0] == output[0] && t[|t| - 1] == cells[15];
    TrimKeeps(t);
  }

  /** A rank line appended in two parts. */
  lemma RankLineJoin(output: string, num: string, cells: string)
    ensures (output + "║ " + num + " │" + cells) + " │ " + num + " ║\n"
         == output + ("║ " + num + " │" + cells + " │ " + num + " ║\n")
  {
  }

  /** The rank lines in row order. */
  function RanksText(cells: Squares, rows: seq<Index>, cols: seq<Index>): string
  {
    if rows == [] then []
    else RanksText(cells, rows[..|rows| - 1], cols) + RankLine(cells, rows[|rows| - 1], cols)
  }

  /** The framed board as seen by `color`, with `toMove`'s glyph at the foot. */
  function BoardText(cells: Squares, color: P.Color, toMove: P.Color): string
  {
    TOP + Spaced(FileOrder(color)) + TOP_RULE + RanksText(cells, RowOrder(color), ColOrder(color))
    + BOTTOM_RULE + Spaced(FileOrder(color)) + " " + "  " + [Glyph(toMove)] + BOTTOM
  }

  /** `headers_for_white` / `headers_for_black`: the viewer's player first. */
  function Headers(g: GameState, color: P.Color): string
  {
    if color == P.White then PL.Display(g.white) + "\n" + PL.Display(g.black)
    else PL.Display(g.black) + "\n" + PL.Display(g.white)
  }

  /** `to_string(color)`. */
  function Render(g: GameState, cells: Squares, color: P.Color): string
  {
    Headers(g, color) + "\nPosition:\n" + BoardText(cells, color, g.toMove) + "\n" + g.toMove.Name() + " to move."
  }

  /** The colour `to_move_to_string` draws for. */
  function Viewer(g: GameState): (c: P.Color)
    ensures g.displayFor.Some? ==> c == g.displayFor.value
    ensures g.displayFor.None? ==> c == g.toMove
  {
    if g.displayFor.Some? then g.displayFor.value
    else match g.toMove
      case White => P.White
      case Black => P.Black
  }

  /** The `k`-th cell of a rank line's cells is a space followed by the
      symbol of the piece on the `k`-th column of that rank. */
  lemma {:induction false} CellsTextAt(cells: Squares, rank: Index, cols: seq<Index>, k: nat)
    requires k < |cols|
    ensures CellsText(cells, rank, cols)[2 * k] == ' '
    ensures CellsText(cells, rank, cols)[2 * k + 1] == CellSymbol(At(cells, Coord(cols[k], rank)))
  {
    var n := |cols| - 1;
    if k < n {
      CellsTextAt(cells, rank, cols[..n], k);
      assert cols[..n][k] == cols[k];
    }
  }

  /** Every rank line is 28 characters long. */
  lemma RankLineLength(cells: Squares, rank: Index, cols: seq<Index>)
    requires |cols| == 8
    ensures |RankLine(cells, rank, cols)| == 28
  {
    assert |NatToString(rank + 1)| == 1;
  }

  lemma {:induction false} RanksTextLength(cells: Squares, rows: seq<Index>, cols: seq<Index>)
    requires |cols| == 8
    ensures |RanksText(cells, rows, cols)| == 28 * |rows|
  {
    if rows != [] {
      RanksTextLength(cells, rows[..|rows| - 1], cols);
      RankLineLength(cells, rows[|rows| - 1], cols);
    }
  }

  /** A 28-character window of a text made of `n` lines and one more. */
  lemma Window(whole: string, front: string, line: string, k: nat, n: nat)
    requires whole == front + line && |front| == 28 * n && |line| == 28 && k <= n
    ensures k < n ==> whole[28 * k .. 28 * k + 28] == front[28 * k .. 28 * k + 28]
    ensures k == n ==> whole[28 * k .. 28 * k + 28] == line
  {
  }

  /** Line `k` of the rank lines is the line of the `k`-th rank in row order. */
  lemma {:induction false} RanksTextLines(cells: Squares, rows: seq<Index>, cols: seq<Index>, k: nat)
    requires |cols| == 8 && k < |rows|
    ensures |RanksText(cells, rows, cols)| == 28 * |rows|
    ensures RanksText(cells, rows, cols)[28 * k .. 28 * k + 28] == RankLine(cells, rows[k], cols)
  {
    var n := |rows| - 1;
    var front := RanksText(cells, rows[..n], cols);
    var line := RankLine(cells, rows[n], cols);
    RanksTextLength(cells, rows, cols);
    RanksTextLength(cells, rows[..n], cols);
    RankLineLength(cells, rows[n], cols);
    Window(RanksText(cells, rows, cols), front, line, k, n);
    if k < n {
      RanksTextLines(cells, rows[..n], cols, k);
      assert rows[..n][k] == rows[k];
    }
  }

  /** Seen by White the board shows rank 8 down to rank 1 with files a to h
      left to right; seen by Black, rank 1 up to rank 8 with files h to a. */
  lemma BoardOrientation(cells: Squares, color: P.Color, k: nat, l: nat)
    requires k < 8 && l < 8
    ensures |RanksText(cells, RowOrder(color), ColOrder(color))| == 28 * 8
    ensures var rows := RanksText(cells, RowOrder(color), ColOrder(color));
      var line := rows[28 * k .. 28 * k + 28];
      var rank: Index := if color == P.White then 7 - k else k;
      var file: Index := if color == P.White then l else 7 - l;
      line == RankLine(cells, rank, ColOrder(color))
      && CellsText(cells, rank, ColOrder(color))[2 * l + 1] == CellSymbol(At(cells, Coord(file, rank)))
  {
    var rank: Index := if color == P.White then 7 - k else k;
    var file: Index := if color == P.White then l else 7 - l;
    assert RowOrder(color)[k] == rank && ColOrder(color)[l] == file;
    RanksTextLines(cells, RowOrder(color), ColOrder(color), k);
    CellsTextAt(cells, rank, ColOrder(color), l);
  }

  // ----- the game object -----

  class Game {
    var white: PL.Player
    var black: PL.Player
    var board: MB.Board
    var capturedPieces: seq<P.Piece>
    var toMove: P.Color
    var positionRecord: map<string, u8>
    var whiteWins: bool
    var blackWins: bool
    var isDraw: bool
    var halfMoveCounter: nat
    var halfMoveClock: nat
    var moveCounter: nat
    var moveList: seq<CM.MoveState>
    var currentMove: Option<CM.MoveState>
    var winCondition: Option<WinCondition>
    var drawCondition: Option<DrawCondition>
    var displayFor: Option<P.Color>

    function State(): GameState
      reads this
    {
      GameState(white, black, capturedPieces, toMove, positionRecord, whiteWins, blackWins, isDraw,
                halfMoveCounter, halfMoveClock, moveCounter, moveList, currentMove,
                winCondition, drawCondition, displayFor)
    }

    ghost predicate Valid()
      reads this, board, board.board
    {
      board.Valid()
    }

    /** The second half of `Game::new`, for players already sorted by colour:
        a standard board and the initial state. */
    constructor (white: PL.Player, black: PL.Player)
      ensures Valid() && fresh(board) && fresh(board.board)
      ensures State() == Initial(white, black)
      ensures board.Snapshot() == BR.InitialState(BR.StandardChess)
    {
      this.white := white;
      this.black := black;
      board := new MB.Board(BR.StandardChess);
      capturedPieces := [];
      toMove := P.White;
      positionRecord := map[];
      whiteWins := false;
      blackWins := false;
      isDraw := false;
      halfMoveCounter := 0;
      halfMoveClock := 0;
      moveCounter := 1;
      moveList := [];
      currentMove := None;
      winCondition := None;
      drawCondition := None;
      displayFor := None;
    }

    /** `toggle_to_move`. */
    method ToggleToMove()
      modifies this
      ensures board == old(board)
      ensures State() == Toggled(old(State()))
    {
      if toMove == P.White {
        toMove := P.Black;
      } else {
        toMove := P.White;
      }
    }

    /** `set_current_move`. */
    method SetCurrentMove(m: Option<CM.MoveState>)
      modifies this
      ensures board == old(board)
      ensures State() == old(State()).(currentMove := m)
    {
      currentMove := m;
    }

    /** `process_move`: works on a copy of the current move, so the game is
        unchanged. */
    method ProcessMove() returns (r: Result<Option<CM.MoveState>>)
      ensures r.Err? <==> currentMove.None?
      ensures r.Err? ==> r.error == InvalidMove
      ensures r.Ok? ==> r.value == Some(CM.Recolor(currentMove.value, toMove))
    {
      if currentMove.Some? {
        return Ok(Some(CM.Recolor(currentMove.value, toMove)));
      }
      return Err(InvalidMove);
    }

    /** `apply_move`: without a current move, `InvalidMove` and nothing
        changes. Otherwise the processed move goes to the board; if the
        board accepts it the displaced piece, if any, is captured and the
        turn passes, and if the board refuses it nothing changes, but either
        way the answer is `Ok`. `depth` bounds the king recursion of the
        board's move generators. */
    method ApplyMove(depth: nat) returns (r: Result<()>)
      requires Valid()
      modifies this, board, board.board
      ensures Valid() && board == old(board)
      ensures old(currentMove).None? ==>
        r == Err(InvalidMove) && State() == old(State()) && board.cells == old(board.cells)
      ensures old(currentMove).Some? ==>
        var m := Processed(old(State())).value;
        r == Ok(())
        && State() == AfterBoard(old(State()), BoardAnswer(old(board.Snapshot()), m, depth))
        && board.cells == BoardAfter(old(board.Snapshot()), m, depth)
    {
      var p := ProcessMove();
      if p.Err? {
        return Err(InvalidMove);
      }
      var answer := Submit(p.value.value, depth);
      Absorb(answer);
      r := Ok(());
    }

    /** The board's part of `apply_move`. */
    method Submit(m: CM.MoveState, depth: nat) returns (answer: Result<Cell>)
      requires Valid()
      modifies board, board.board
      ensures Valid() && board == old(board)
      ensures answer == BoardAnswer(old(board.Snapshot()), m, depth)
      ensures board.cells == BoardAfter(old(board.Snapshot()), m, depth)
    {
      // The game's move keeps its target as an `Option`, but the board's
      // `apply_move` takes a `Move` whose target is always set: a move
      // without a target cannot reach the board, and is refused here like
      // one without a piece.
      if m.toCoord.None? {
        return Err(InvalidMove);
      }
      answer := board.ApplyMove(m.fromPiece, m.toCoord.value, depth);
    }

    /** The part of `apply_move` after the board has answered. */
    method Absorb(answer: Result<Cell>)
      modifies this
      ensures board == old(board)
      ensures State() == AfterBoard(old(State()), answer)
    {
      if answer.Ok? {
        if answer.value.Some? {
          capturedPieces := capturedPieces + [answer.value.value];
        }
        ToggleToMove();
      }
    }

    /** `to_string(color)`: headers, the framed board and the side to move. */
    method ToString(color: P.Color) returns (s: string)
      requires Valid()
      ensures s == Render(State(), board.cells, color)
    {
      var headers := if color == P.White then PL.Display(white) + "\n" + PL.Display(black)
                     else PL.Display(black) + "\n" + PL.Display(white);
      var output := Framed(color);
      s := headers + "\nPosition:\n" + output + "\n" + toMove.Name() + " to move.";
    }

    /** The framed board of `to_string`, built up line by line and trimmed. */
    method Framed(color: P.Color) returns (output: string)
      requires Valid()
      ensures output == BoardText(board.cells, color, toMove)
    {
      var files := FileOrder(color);
      output := AppendSpaced(TOP, files);
      output := output + TOP_RULE;
      assert output[0] == TOP[0];
      output := AppendRanks(output, RowOrder(color), ColOrder(color));
      output := output + BOTTOM_RULE;
      output := AppendSpaced(output, files);
      output := output + " " + "  " + [Glyph(toMove)] + BOTTOM;
      assert output[0] == TOP[0] && output[|output| - 1] == BOTTOM[|BOTTOM| - 1];
      TrimKeeps(output);
      output := Trim(output);
    }

    /** The row loop of `to_string`. */
    method AppendRanks(output: string, rows: seq<Index>, cols: seq<Index>) returns (r: string)
      requires Valid()
      requires output != [] && !IsWhitespace(output[0]) && |cols| == 8
      ensures r == output + RanksText(board.cells, rows, cols)
    {
      r := output;
      for k := 0 to |rows|
        invariant r == output + RanksText(board.cells, rows[..k], cols)
        invariant r != [] && r[0] == output[0]
      {
        ghost var front := RanksText(board.cells, rows[..k], cols);
        ghost var line := RankLine(board.cells, rows[k], cols);
        assert r[0] == output[0];
        r := AppendRank(r, rows[k], cols);
        assert rows[..k + 1][..k] == rows[..k];
        assert RanksText(board.cells, rows[..k + 1], cols) == front + line;
        Associate(output, front, line);
      }
      assert rows[..|rows|] == rows;
    }

    /** One pass of the row loop of `to_string`: the rank number, the cells
        and, once the whole text so far is trimmed, the rank number again. */
    method AppendRank(output: string, rank: Index, cols: seq<Index>) returns (r: string)
      requires Valid()
      requires output != [] && !IsWhitespace(output[0]) && |cols| == 8
      ensures r == output + RankLine(board.cells, rank, cols)
    {
      var num := NatToString(rank + 1);
      r := AppendCells(output + "║ " + num + " │", rank, cols);
      ghost var cells := CellsText(board.cells, rank, cols);
      CellsTextLast(board.cells, rank, cols);
      TrimmedHead(output, num, cells);
      r := Trim(r) + " │ " + num + " ║\n";
      RankLineJoin(output, num, cells);
    }

    /** The column loop of `to_string`: a space and each cell's symbol. */
    method AppendCells(output: string, rank: Index, cols: seq<Index>) returns (r: string)
      requires Valid()
      ensures r == output + CellsText(board.cells, rank, cols)
    {
      r := output;
      for l := 0 to |cols|
        invariant r == output + CellsText(board.cells, rank, cols[..l])
      {
        var cell := board.GetPiece(Coord(cols[l], rank));
        assert cols[..l + 1][..l] == cols[..l];
        r := r + " " + [CellSymbol(cell)];
      }
      assert cols[..|cols|] == cols;
    }

    /** `white_to_string`. */
    method WhiteToString() returns (s: string)
      requires Valid()
      ensures s == Render(State(), board.cells, P.White)
    {
      s := ToString(P.White);
    }

    /** `black_to_string`. */
    method BlackToString() returns (s: string)
      requires Valid()
      ensures s == Render(State(), board.cells, P.Black)
    {
      s := ToString(P.Black);
    }

    /** `to_move_to_string`: drawn for `display_for` when it is set, and
        otherwise for the side to move. */
    method ToMoveToString() returns (s: string)
      requires Valid()
      ensures s == Render(State(), board.cells, Viewer(State()))
    {
      if displayFor.Some? {
        s := ToString(displayFor.value);
      } else if toMove == P.White {
        s := ToString(P.White);
      } else {
        s := ToString(P.Black);
      }
    }
  }

  lemma Associate(a: string, b: string, c: string)
    ensures (a + b) + c == a + (b + c)
  {
  }

  /** The files loop of `to_string`: a space and each letter appended. */
  method AppendSpaced(output: string, files: seq<char>) returns (r: string)
    ensures r == output + Spaced(files)
  {
    r := output;
    for k := 0 to |files|
      invariant r == output + Spaced(files[..k])
    {
      assert files[..k + 1][..k] == files[..k];
      r := r + " " + [files[k]];
    }
    assert files[..|files|] == files;
  }

  /** `new`: the players sorted by colour and a fresh game, or
      `IncompatibleSides`. */
  method New(p1: PL.Player, p2: PL.Player) returns (r: Result<Game>)
    ensures r.Err? <==> p1.color == p2.color
    ensures r.Err? ==> r.error == IncompatibleSides
    ensures r.Ok? ==> var sides := Sides(p1, p2).value;
      fresh(r.value) && r.value.Valid() && r.value.State() == Initial(sides.0, sides.1)
  {
    var sides := Sides(p1, p2);
    if sides.Err? {
      return Err(IncompatibleSides);
    }
    var g := new Game(sides.value.0, sides.value.1);
    return Ok(g);
  }
}
