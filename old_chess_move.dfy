// The oldest `Move`, src/modules/chess_move.rs: a placeholder parser that
// recognises square-to-square moves "e2-e4", refuses every capture, and
// answers anything else with a fixed rook move; and `Engine::make_move`
// of src/modules/engine.rs, which hands the text to it.

module OldChessMove {
  import opened Errors
  import opened Text
  import P = Piece
  import OE = OldEngine

  /** `MoveState`: whether the move is valid. */
  datatype Validity = Valid | Invalid

  /** `MoveType`: `Simple` stands for the source's `Move` variant. */
  datatype MoveType = Simple | Capture | Unparsed

  datatype Move = Move(
    fromCoord: (char, nat),
    toCoord: (char, nat),
    fromIndex: (nat, nat),
    toIndex: (nat, nat),
    piece: OE.OldPiece,
    moveText: string,
    inputMove: string,
    moveState: Validity,
    moveType: MoveType,
    reason: string)

  /** `Move::invalid`: no squares, no piece, the given input and reason. */
  function InvalidMove(theMove: string, reason: string): (m: Move)
    ensures m.moveState == Invalid && m.moveType == Unparsed && m.piece.None?
    ensures m.inputMove == theMove && m.reason == reason
  {
    Move(('-', 0), ('-', 0), (8, 8), (8, 8), None, "invalid move", theMove, Invalid, Unparsed, reason)
  }

  /** A square's name: a file letter and a rank digit. */
  predicate IsSquareName(part: string)
  {
    |part| == 2 && 'a' <= part[0] <= 'h' && '1' <= part[1] <= '8'
  }

  /** Whether the character at index `i` of a part passes the check of its
      round: the first must be a file letter, the second a rank digit, and
      later ones are not looked at. */
  predicate PassesRound(part: string, i: nat)
    requires i < |part|
  {
    (i == 0 ==> 'a' <= part[0] <= 'h') && (i == 1 ==> '1' <= part[1] <= '8')
  }

  /** The reason the per-character check gives for a part, if any. */
  function PartError(part: string): Option<string>
  {
    if |part| >= 1 && !('a' <= part[0] <= 'h') then
      Some("first part, " + [part[0]] + ", not in [a, b, c, d, e, f, g, h]")
    else if |part| >= 2 && !('1' <= part[1] <= '8') then
      Some("second part, " + [part[1]] + ", not in [1, 2, 3, 4, 5, 6, 7, 8]")
    else None
  }

  /** The character loop over a part, with its round counter. */
  method CheckPart(part: string) returns (r: Option<string>)
    ensures r == PartError(part)
  {
    var round := 1;
    var i := 0;
    while i < |part|
      invariant 0 <= i <= |part| && round == i + 1
      invariant forall j :: 0 <= j < i ==> PassesRound(part, j)
    {
      var c := part[i];
      if round == 1 && !('a' <= c <= 'h') {
        return Some("first part, " + [c] + ", not in [a, b, c, d, e, f, g, h]");
      } else if round == 2 && !('1' <= c <= '8') {
        assert PassesRound(part, 0);
        return Some("second part, " + [c] + ", not in [1, 2, 3, 4, 5, 6, 7, 8]");
      }
      round := round + 1;
      i := i + 1;
    }
    if |part| >= 1 {
      assert PassesRound(part, 0);
    }
    if |part| >= 2 {
      assert PassesRound(part, 1);
    }
    return None;
  }

  /** A part of two bytes passes the character check exactly when it is a
      square's name: a single two-byte character is not a file letter. */
  lemma PartIsSquare(part: string)
    requires Utf8Len(part) == 2
    ensures PartError(part).None? <==> IsSquareName(part)
  {
    if |part| == 1 {
      assert Utf8Len(part) == Utf8Width(part[0]) + Utf8Len(part[1..]);
      assert (part[0] as int) >= 0x80;
    } else {
      assert |part| == 2 by {
        assert Utf8Len(part) == Utf8Width(part[0]) + Utf8Len(part[1..]);
      }
    }
  }

  /** `parse_square_to_square_move` as a function of the text. */
  function SquareToSquare(theMove: string): (m: Move)
  {
    var tokens := Split(theMove, '-');
    if |tokens| != 2 then InvalidMove(theMove, "num tokens != 2 [split on '-']")
    else if Utf8Len(tokens[0]) != 2 then InvalidMove(theMove, "len of first part != 2 [" + tokens[0] + "]")
    else if PartError(tokens[0]).Some? then InvalidMove(theMove, PartError(tokens[0]).value)
    else if Utf8Len(tokens[1]) != 2 then InvalidMove(theMove, "len of second part != 2 [" + tokens[1] + "]")
    else if PartError(tokens[1]).Some? then InvalidMove(theMove, PartError(tokens[1]).value)
    else
      PartIsSquare(tokens[0]);
      PartIsSquare(tokens[1]);
      Move((tokens[0][0], DigitValue(tokens[0][1])), (tokens[1][0], DigitValue(tokens[1][1])),
           (0, 0), (0, 0), Some((P.Pawn, P.White)), theMove, theMove, Valid, Simple, "foo")
  }

  /** `parse_square_to_square_move`. */
  method ParseSquareToSquareMove(theMove: string) returns (m: Move)
    ensures m == SquareToSquare(theMove)
  {
    var tokens := Split(theMove, '-');
    if |tokens| != 2 {
      return InvalidMove(theMove, "num tokens != 2 [split on '-']");
    }
    var partOne := tokens[0];
    if Utf8Len(partOne) != 2 {
      return InvalidMove(theMove, "len of first part != 2 [" + partOne + "]");
    }
    var e1 := CheckPart(partOne);
    if e1.Some? {
      return InvalidMove(theMove, e1.value);
    }
    var partTwo := tokens[1];
    if Utf8Len(partTwo) != 2 {
      return InvalidMove(theMove, "len of second part != 2 [" + partTwo + "]");
    }
    var e2 := CheckPart(partTwo);
    if e2.Some? {
      return InvalidMove(theMove, e2.value);
    }
    PartIsSquare(partOne);
    PartIsSquare(partTwo);
    m := Move((partOne[0], DigitValue(partOne[1])), (partTwo[0], DigitValue(partTwo[1])),
              (0, 0), (0, 0), Some((P.Pawn, P.White)), theMove, theMove, Valid, Simple, "foo");
  }

  /** `parse_piece_capture_move`: never implemented, so always invalid. */
  function PieceCapture(theMove: string): (m: Move)
    ensures m.moveState == Invalid && m.inputMove == theMove
    ensures m.piece.None? && m.moveType == Unparsed
    ensures m.reason == (if |Split(theMove, 'x')| != 2 then "num tokens != 2 [split on 'x']" else "not implemented")
  {
    if |Split(theMove, 'x')| != 2 then InvalidMove(theMove, "num tokens != 2 [split on 'x']")
    else InvalidMove(theMove, "not implemented")
  }

  /** `parse_move` as a function: trim, refuse inner whitespace, then a
      square-to-square move if there is a '-', a capture if there is an
      'x', and otherwise the fixed rook move of the side to move. */
  function Parse(theMove: string, toMove: P.Color): (m: Move)
  {
    var t := Trim(theMove);
    if HasWhitespace(t) then InvalidMove(t, "contains whitespace")
    else if '-' in t then SquareToSquare(t)
    else if 'x' in t then PieceCapture(t)
    else Move(('a', 1), ('a', 8), (7, 0), (0, 0), Some((P.Rook, toMove)), "Pawn from e2 to e4",
              t, Valid, Simple, "")
  }

  /** `parse_move`. */
  method ParseMove(theMove: string, toMove: P.Color) returns (m: Move)
    ensures m == Parse(theMove, toMove)
  {
    var t := Trim(theMove);
    if HasWhitespace(t) {
      return InvalidMove(t, "contains whitespace");
    }
    if '-' in t {
      m := ParseSquareToSquareMove(t);
    } else if 'x' in t {
      m := PieceCapture(t);
    } else {
      m := Move(('a', 1), ('a', 8), (7, 0), (0, 0), Some((P.Rook, toMove)), "Pawn from e2 to e4",
                t, Valid, Simple, "");
    }
  }

  /** `Engine::make_move`: the engine's side to move parses the text. */
  method MakeMove(e: OE.Engine, theMove: string) returns (m: Move)
    ensures m == Parse(theMove, e.toMove)
  {
    m := ParseMove(theMove, e.toMove);
  }

  // ----- properties -----

  /** A square-to-square move is valid exactly when the text is two square
      names around one '-'; then it moves a white pawn between them. */
  lemma SquareToSquareValid(theMove: string)
    ensures SquareToSquare(theMove).moveState == Valid <==>
            |Split(theMove, '-')| == 2 && IsSquareName(Split(theMove, '-')[0]) && IsSquareName(Split(theMove, '-')[1])
    ensures SquareToSquare(theMove).moveState == Valid ==>
            SquareToSquare(theMove).piece == Some((P.Pawn, P.White))
            && SquareToSquare(theMove).inputMove == theMove && SquareToSquare(theMove).moveType == Simple
    ensures SquareToSquare(theMove).moveState == Invalid ==>
            SquareToSquare(theMove).piece.None? && SquareToSquare(theMove).moveType == Unparsed
  {
    var tokens := Split(theMove, '-');
    if |tokens| == 2 {
      if Utf8Len(tokens[0]) == 2 {
        PartIsSquare(tokens[0]);
      }
      if Utf8Len(tokens[1]) == 2 {
        PartIsSquare(tokens[1]);
      }
      if IsSquareName(tokens[0]) {
        assert Utf8Len(tokens[0]) == 2 by { AsciiLen(tokens[0]); }
      }
      if IsSquareName(tokens[1]) {
        assert Utf8Len(tokens[1]) == 2 by { AsciiLen(tokens[1]); }
      }
    }
  }

  lemma AsciiLen(part: string)
    requires IsSquareName(part)
    ensures Utf8Len(part) == 2
  {
    assert part[1..][1..] == [];
  }

  /** Two square names joined by '-' parse back to the same squares, with
      the rank digits read as numbers. */
  lemma SquaresRoundTrip(a: string, b: string, toMove: P.Color)
    requires IsSquareName(a) && IsSquareName(b)
    ensures Parse(a + "-" + b, toMove).moveState == Valid
    ensures Parse(a + "-" + b, toMove).fromCoord == (a[0], DigitValue(a[1]))
    ensures Parse(a + "-" + b, toMove).toCoord == (b[0], DigitValue(b[1]))
  {
    var s := a + "-" + b;
    SquaresSplit(a, b);
    SquaresPlain(a, b);
    assert Parse(s, toMove) == SquareToSquare(s);
    SquareToSquareValid(s);
  }

  lemma SquaresSplit(a: string, b: string)
    requires IsSquareName(a) && IsSquareName(b)
    ensures Split(a + "-" + b, '-') == [a, b]
  {
    assert Join([a, b], '-') == Join([a], '-') + ['-'] + b;
    assert a + "-" + b == Join([a, b], '-');
    assert '-' !in a && '-' !in b;
    SplitJoin([a, b], '-');
  }

  lemma SquaresPlain(a: string, b: string)
    requires IsSquareName(a) && IsSquareName(b)
    ensures Trim(a + "-" + b) == a + "-" + b
    ensures !HasWhitespace(a + "-" + b) && '-' in a + "-" + b
  {
    var s := a + "-" + b;
    assert s == [a[0], a[1], '-', b[0], b[1]];
    TrimKeeps(s);
    assert s[2] == '-';
  }

  /** Text with an 'x' and no '-' is always refused. */
  lemma CapturesRefused(theMove: string, toMove: P.Color)
    requires 'x' in Trim(theMove) && '-' !in Trim(theMove)
    ensures Parse(theMove, toMove).moveState == Invalid
  {
  }

  /** Every refusal has no piece and the `Invalid` type; every acceptance
      keeps the trimmed input. */
  lemma ParseOutcome(theMove: string, toMove: P.Color)
    ensures Parse(theMove, toMove).moveState == Invalid ==>
              Parse(theMove, toMove).piece.None? && Parse(theMove, toMove).moveType == Unparsed
    ensures Parse(theMove, toMove).moveState == Valid ==>
              Parse(theMove, toMove).inputMove == Trim(theMove) && Parse(theMove, toMove).moveType == Simple
  {
    var t := Trim(theMove);
    if HasWhitespace(t) {
      assert Parse(theMove, toMove) == InvalidMove(t, "contains whitespace");
    } else if '-' in t {
      assert Parse(theMove, toMove) == SquareToSquare(t);
      SquareToSquareValid(t);
    } else if 'x' in t {
      assert Parse(theMove, toMove) == PieceCapture(t);
    }
  }
}
