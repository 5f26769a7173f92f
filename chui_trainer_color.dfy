// The square-colour trainer of bin/chui-trainer/src/color.rs: a square is
// drawn, the user answers light ('1') or dark ('2'), and the answer is
// recorded as correct or incorrect. The random draw is a parameter. The
// quiz's functions are shared with crates/coordinate-trainer/src/color.rs
// (coordinate_trainer_color.dfy).

module ChuiTrainerColor {
  import opened Text
  import opened ChuiTrainer
  import Bitmask

  /** Whether the square of 1-based `file` and `rank` is dark: the two
      have the same parity. */
  predicate DarkSquare(file: nat, rank: nat)
  {
    file % 2 == rank % 2
  }

  /** An answer meaning light: "1", or "light" in any ASCII case. */
  predicate LightAnswer(input: string)
  {
    input == "1" || AsciiLowercase(input) == "light"
  }

  /** An answer meaning dark: "2", or "dark" in any ASCII case. */
  predicate DarkAnswer(input: string)
  {
    input == "2" || AsciiLowercase(input) == "dark"
  }

  function ColorName(dark: bool): string
  {
    if dark then "Dark" else "Light"
  }

  /** `solve_answer`'s judgement of the input against the square's colour. */
  predicate Judged(dark: bool, input: string)
  {
    (!dark && LightAnswer(input)) || (dark && DarkAnswer(input))
  }

  /** The answer `add_correct`/`add_incorrect` record: the colour's name when
      the input is recognised, the input itself otherwise. */
  function Recorded(input: string): string
  {
    if LightAnswer(input) then "Light" else if DarkAnswer(input) then "Dark" else input
  }

  /** `get_algebraic_coordinate`: the square's name, or "(0, 0)" when no
      square is drawn. */
  function AlgebraicCoordinate(c: (nat, nat)): string
    requires c.0 <= 8 && c.1 <= 8
  {
    if c.0 != 0 && c.1 != 0 then [('a' as int + c.0 - 1) as char, DigitChar(c.1)] else "(0, 0)"
  }

  // ----- properties of the quiz -----

  /** The parity rule agrees with the board's dark-square mask, whose
      square index is 8 * rank + file counted from 0. */
  lemma DarkSquareMask(file: nat, rank: nat)
    requires 1 <= file <= 8 && 1 <= rank <= 8
    ensures DarkSquare(file, rank) <==> 8 * (rank - 1) + (file - 1) in Bitmask.DARK_SQUARES
  {
    var b: Bitmask.Square := 8 * (rank - 1) + (file - 1);
    SquareIndexParts(file - 1, rank - 1);
    Bitmask.LightSquareParity(b);
    SumParity(file - 1, rank - 1);
  }

  lemma SquareIndexParts(f: nat, r: nat)
    requires f < 8
    ensures (8 * r + f) % 8 == f && (8 * r + f) / 8 == r
  {
  }

  lemma SumParity(x: nat, y: nat)
    ensures (x + y) % 2 == 0 <==> (x + 1) % 2 == (y + 1) % 2
  {
  }

  /** a1 is dark, and stepping one file or one rank changes the colour. */
  lemma DarkSquareAlternates(file: nat, rank: nat)
    ensures DarkSquare(1, 1)
    ensures DarkSquare(file, rank) != DarkSquare(file + 1, rank)
    ensures DarkSquare(file, rank) != DarkSquare(file, rank + 1)
  {
  }

  lemma LowercaseNames()
    ensures AsciiLowercase("Light") == "light" && AsciiLowercase("Dark") == "dark"
  {
    assert AsciiLowercase("Light")[0] == 'l';
    assert AsciiLowercase("Dark")[0] == 'd';
  }

  /** The colour names and the digits are answers, in any case for names. */
  lemma AnswerSpellings()
    ensures LightAnswer("1") && LightAnswer("light") && LightAnswer("Light") && LightAnswer("LIGHT")
    ensures DarkAnswer("2") && DarkAnswer("dark") && DarkAnswer("Dark") && DarkAnswer("DARK")
    ensures !LightAnswer("2") && !DarkAnswer("1") && !LightAnswer("l") && !DarkAnswer("d")
  {
    LowercaseNames();
    assert AsciiLowercase("light") == "light";
    assert AsciiLowercase("dark") == "dark";
    assert AsciiLowercase("LIGHT") == "light";
    assert AsciiLowercase("DARK") == "dark";
  }

  /** No input means both colours. */
  lemma AnswersExclusive(input: string)
    ensures !(LightAnswer(input) && DarkAnswer(input))
  {
    if AsciiLowercase(input) == "light" {
      assert |input| == 5;
    }
    if AsciiLowercase(input) == "dark" {
      assert |input| == 4;
    }
  }

  /** The recorded answer is the square's colour name exactly when the
      answer is judged correct. */
  lemma RecordedNamesJudgement(dark: bool, input: string)
    ensures Judged(dark, input) <==> Recorded(input) == ColorName(dark)
  {
    AnswersExclusive(input);
    LowercaseNames();
  }

  /** A drawn square's name is its file letter and rank digit. */
  lemma AlgebraicCoordinateNames(c: (nat, nat))
    requires c.0 <= 8 && c.1 <= 8
    ensures c.0 == 0 || c.1 == 0 <==> AlgebraicCoordinate(c) == "(0, 0)"
    ensures c.0 != 0 && c.1 != 0 ==>
              |AlgebraicCoordinate(c)| == 2 && 'a' <= AlgebraicCoordinate(c)[0] <= 'h'
              && AlgebraicCoordinate(c)[0] as int - 'a' as int + 1 == c.0
              && IsDigit(AlgebraicCoordinate(c)[1]) && DigitValue(AlgebraicCoordinate(c)[1]) == c.1
  {
  }

  // ----- the trainer -----

  /** The fields the model keeps of `ColorTrainer`. */
  datatype ColorState = ColorState(
    nameVerbose: string,
    namesVerbose: seq<string>,
    vecCorrect: seq<(string, string)>,
    vecIncorrect: seq<(string, string)>,
    commandType: CommandType,
    input: string,
    colorCoordinate: (nat, nat),
    answerColor: bool)

  predicate InRange(c: (nat, nat))
  {
    c.0 <= 8 && c.1 <= 8
  }

  /** `ColorTrainer::default`. */
  function ColorInitial(): ColorState
  {
    ColorState("Coordinate Square Colors", [], [], [], Help, "", (0, 0), false)
  }

  /** `generate_problem` with the drawn square. */
  function Generated(st: ColorState, file: nat, rank: nat): ColorState
  {
    st.(colorCoordinate := (file, rank), answerColor := false)
  }

  /** `solve_answer`: the answer is judged against the square's colour and
      recorded in one of the two lists, then the square is cleared. */
  function Solved(st: ColorState): ColorState
    requires InRange(st.colorCoordinate)
  {
    var dark := DarkSquare(st.colorCoordinate.0, st.colorCoordinate.1);
    var element := (AlgebraicCoordinate(st.colorCoordinate), Recorded(st.input));
    var judged :=
      if Judged(dark, st.input) then st.(vecCorrect := st.vecCorrect + [element])
      else st.(vecIncorrect := st.vecIncorrect + [element]);
    judged.(colorCoordinate := (0, 0), answerColor := false)
  }

  /** Solving records exactly one answer, in the correct list exactly when
      the recorded colour is the square's, and clears the square. */
  lemma SolvedRecordsOne(st: ColorState)
    requires InRange(st.colorCoordinate)
    ensures |Solved(st).vecCorrect| + |Solved(st).vecIncorrect| == |st.vecCorrect| + |st.vecIncorrect| + 1
    ensures |Solved(st).vecCorrect| == |st.vecCorrect| + 1 <==>
            Recorded(st.input) == ColorName(DarkSquare(st.colorCoordinate.0, st.colorCoordinate.1))
    ensures Solved(st).vecCorrect[..|st.vecCorrect|] == st.vecCorrect
    ensures Solved(st).vecIncorrect[..|st.vecIncorrect|] == st.vecIncorrect
    ensures Solved(st).colorCoordinate == (0, 0) && !Solved(st).answerColor
    ensures Solved(st).input == st.input && Solved(st).commandType == st.commandType
  {
    RecordedNamesJudgement(DarkSquare(st.colorCoordinate.0, st.colorCoordinate.1), st.input);
  }

  class ColorTrainer {
    var nameVerbose: string
    var namesVerbose: seq<string>
    var vecCorrect: seq<(string, string)>
    var vecIncorrect: seq<(string, string)>
    var commandType: CommandType
    var input: string
    var colorCoordinate: (nat, nat)
    var answerColor: bool

    function State(): ColorState
      reads this
    {
      ColorState(nameVerbose, namesVerbose, vecCorrect, vecIncorrect, commandType, input, colorCoordinate, answerColor)
    }

    /** `ColorTrainer::default`. */
    constructor ()
      ensures State() == ColorInitial()
    {
      nameVerbose := "Coordinate Square Colors";
      namesVerbose := [];
      vecCorrect := [];
      vecIncorrect := [];
      commandType := Help;
      input := "";
      colorCoordinate := (0, 0);
      answerColor := false;
    }

    /** `generate_problem`, with the two draws from 1..8 as parameters. */
    method GenerateProblem(file: nat, rank: nat)
      requires 1 <= file <= 8 && 1 <= rank <= 8
      modifies this
      ensures State() == Generated(old(State()), file, rank)
    {
      ClearSavedColorCoordinate();
      SetColorCoordinate(file, rank);
    }

    /** `set_color_coordinate`. */
    method SetColorCoordinate(file: nat, rank: nat)
      modifies this
      ensures State() == old(State()).(colorCoordinate := (file, rank))
    {
      colorCoordinate := (file, rank);
    }

    /** `evaluate_answer`: the four parity cases. */
    method EvaluateAnswer()
      modifies this
      ensures State() == old(State()).(answerColor := DarkSquare(colorCoordinate.0, colorCoordinate.1))
    {
      var (file, rank) := colorCoordinate;
      if file % 2 == 0 {
        if rank % 2 == 0 {
          answerColor := true;
        } else {
          answerColor := false;
        }
      } else {
        if rank % 2 == 0 {
          answerColor := false;
        } else {
          answerColor := true;
        }
      }
    }

    /** `solve_answer`. */
    method SolveAnswer()
      requires InRange(colorCoordinate)
      modifies this
      ensures State() == Solved(old(State()))
    {
      EvaluateAnswer();
      if (!answerColor && LightAnswer(input)) || (answerColor && DarkAnswer(input)) {
        AddCorrect();
      } else {
        AddIncorrect();
      }
      ClearSavedColorCoordinate();
    }

    /** `get_algebraic_coordinate`. */
    method GetAlgebraicCoordinate() returns (s: string)
      requires InRange(colorCoordinate)
      ensures s == AlgebraicCoordinate(colorCoordinate)
    {
      if colorCoordinate.0 != 0 && colorCoordinate.1 != 0 {
        s := [('a' as int + colorCoordinate.0 - 1) as char] + [DigitChar(colorCoordinate.1)];
      } else {
        s := "(0, 0)";
      }
    }

    /** `clear_saved_color_coordinate`. */
    method ClearSavedColorCoordinate()
      modifies this
      ensures State() == old(State()).(colorCoordinate := (0, 0), answerColor := false)
    {
      colorCoordinate := (0, 0);
      answerColor := false;
    }

    /** `add_correct`. */
    method AddCorrect()
      requires InRange(colorCoordinate)
      modifies this
      ensures State() == old(State()).(vecCorrect := old(vecCorrect) + [old((AlgebraicCoordinate(colorCoordinate), Recorded(input)))])
    {
      var color := if LightAnswer(input) then "Light" else if DarkAnswer(input) then "Dark" else input;
      var square := GetAlgebraicCoordinate();
      vecCorrect := vecCorrect + [(square, color)];
    }

    /** `add_incorrect`. */
    method AddIncorrect()
      requires InRange(colorCoordinate)
      modifies this
      ensures State() == old(State()).(vecIncorrect := old(vecIncorrect) + [old((AlgebraicCoordinate(colorCoordinate), Recorded(input)))])
    {
      var color := if LightAnswer(input) then "Light" else if DarkAnswer(input) then "Dark" else input;
      var square := GetAlgebraicCoordinate();
      vecIncorrect := vecIncorrect + [(square, color)];
    }
  }
}
