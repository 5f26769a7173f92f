// The square-colour session of crates/coordinate-trainer/src/color.rs. It
// asks the same quiz as the trainer in chui_trainer_color.dfy, whose
// functions it reuses, and adds the session loop `train` and `quit`. The
// random draws and the user's lines are parameters.

module CoordinateTrainerColor {
  import opened ChuiTrainer
  import opened ChuiTrainerColor
  import opened Text

  /** `process_command`: the session knows only help and quit; every other
      line is an answer. */
  function ColorCommandFor(input: string): CommandType
  {
    if input == "?" || input == "help" then Help
    else if input == "q" || input == "quit" || input == "exit" then Quit
    else Input
  }

  /** The session's help and quit words are the top-level trainer's; the
      top-level commands that select a training session are answers here. */
  lemma ColorCommandNarrows(input: string)
    ensures ColorCommandFor(input) ==
            (if CommandFor(input) == Help || CommandFor(input) == Quit then CommandFor(input) else Input)
  {
    CommandWords(Help, input);
    CommandWords(Quit, input);
  }

  predicate ValidDraws(draws: seq<(nat, nat)>)
  {
    forall i :: 0 <= i < |draws| ==> 1 <= draws[i].0 <= 8 && 1 <= draws[i].1 <= 8
  }

  /** One round of `train` that does not quit: a square is drawn, the line
      is read, and an answer is solved. */
  function Round(st: ColorState, draw: (nat, nat), line: string): (next: ColorState)
    requires 1 <= draw.0 <= 8 && 1 <= draw.1 <= 8
    ensures ColorCommandFor(line) == Input ==>
              |next.vecCorrect| + |next.vecIncorrect| == |st.vecCorrect| + |st.vecIncorrect| + 1
              && (|next.vecCorrect| == |st.vecCorrect| + 1 <==> Recorded(line) == ColorName(DarkSquare(draw.0, draw.1)))
              && next.colorCoordinate == (0, 0)
    ensures ColorCommandFor(line) != Input ==>
              next.vecCorrect == st.vecCorrect && next.vecIncorrect == st.vecIncorrect && next.colorCoordinate == draw
    ensures |st.vecCorrect| <= |next.vecCorrect| && |st.vecIncorrect| <= |next.vecIncorrect|
    ensures next.vecCorrect[..|st.vecCorrect|] == st.vecCorrect
    ensures next.vecIncorrect[..|st.vecIncorrect|] == st.vecIncorrect
    ensures next.input == line && next.commandType == st.commandType
  {
    var asked := Generated(st, draw.0, draw.1).(input := line);
    if ColorCommandFor(line) == Input then
      SolvedRecordsOne(asked);
      Solved(asked)
    else asked
  }

  /** The state after `train` has read `lines`, with `draws` as the squares
      drawn for them; a quit line resets the session. */
  function Trained(st: ColorState, draws: seq<(nat, nat)>, lines: seq<string>): ColorState
    requires ValidDraws(draws) && |lines| <= |draws|
    decreases |lines|
  {
    if |lines| == 0 then st
    else if ColorCommandFor(lines[0]) == Quit then ColorInitial()
    else Trained(Round(st, draws[0], lines[0]), draws[1..], lines[1..])
  }

  /** The number of answer lines. */
  function AnswerCount(lines: seq<string>): (n: nat)
    ensures n <= |lines|
  {
    if |lines| == 0 then 0
    else (if ColorCommandFor(lines[0]) == Input then 1 else 0) + AnswerCount(lines[1..])
  }

  /** A session that reads a quit line ends in the default state. */
  lemma {:induction false} TrainedQuitResets(st: ColorState, draws: seq<(nat, nat)>, lines: seq<string>, q: nat)
    requires ValidDraws(draws) && |lines| <= |draws|
    requires q < |lines| && ColorCommandFor(lines[q]) == Quit
    ensures Trained(st, draws, lines) == ColorInitial()
    decreases q
  {
    if ColorCommandFor(lines[0]) != Quit {
      assert q != 0;
      assert lines[1..][q - 1] == lines[q];
      TrainedQuitResets(Round(st, draws[0], lines[0]), draws[1..], lines[1..], q - 1);
    }
  }

  /** Without a quit line, every answer line records one answer, the
      earlier records are kept and the session's type is unchanged. */
  lemma {:induction false} TrainedCounts(st: ColorState, draws: seq<(nat, nat)>, lines: seq<string>)
    requires ValidDraws(draws) && |lines| <= |draws|
    requires forall i :: 0 <= i < |lines| ==> ColorCommandFor(lines[i]) != Quit
    ensures |Trained(st, draws, lines).vecCorrect| + |Trained(st, draws, lines).vecIncorrect|
            == |st.vecCorrect| + |st.vecIncorrect| + AnswerCount(lines)
    ensures |st.vecCorrect| <= |Trained(st, draws, lines).vecCorrect|
    ensures |st.vecIncorrect| <= |Trained(st, draws, lines).vecIncorrect|
    ensures Trained(st, draws, lines).vecCorrect[..|st.vecCorrect|] == st.vecCorrect
    ensures Trained(st, draws, lines).vecIncorrect[..|st.vecIncorrect|] == st.vecIncorrect
    ensures Trained(st, draws, lines).commandType == st.commandType
    decreases |lines|
  {
    if |lines| > 0 {
      var next := Round(st, draws[0], lines[0]);
      var asked := Generated(st, draws[0].0, draws[0].1).(input := lines[0]);
      if ColorCommandFor(lines[0]) == Input {
        SolvedRecordsOne(asked);
      }
      assert |next.vecCorrect| + |next.vecIncorrect|
             == |st.vecCorrect| + |st.vecIncorrect| + (if ColorCommandFor(lines[0]) == Input then 1 else 0);
      assert next.vecCorrect[..|st.vecCorrect|] == st.vecCorrect;
      assert next.vecIncorrect[..|st.vecIncorrect|] == st.vecIncorrect;
      forall i | 0 <= i < |lines[1..]|
        ensures ColorCommandFor(lines[1..][i]) != Quit
      {
        assert lines[1..][i] == lines[i + 1];
      }
      TrainedCounts(next, draws[1..], lines[1..]);
      var last := Trained(next, draws[1..], lines[1..]);
      assert last.vecCorrect[..|st.vecCorrect|] == last.vecCorrect[..|next.vecCorrect|][..|st.vecCorrect|];
      assert last.vecIncorrect[..|st.vecIncorrect|] == last.vecIncorrect[..|next.vecIncorrect|][..|st.vecIncorrect|];
    }
  }

  /** The crate's `ColorTrainer`; it has no list of names, which the shared
      state shows as empty. The answers' durations are not modelled. */
  class ColorTrainer {
    var nameVerbose: string
    var vecCorrect: seq<(string, string)>
    var vecIncorrect: seq<(string, string)>
    var commandType: CommandType
    var input: string
    var colorCoordinate: (nat, nat)
    var answerColor: bool

    function State(): ColorState
      reads this
    {
      ColorState(nameVerbose, [], vecCorrect, vecIncorrect, commandType, input, colorCoordinate, answerColor)
    }

    /** `ColorTrainer::new`, which is the default. */
    constructor ()
      ensures State() == ColorInitial()
    {
      nameVerbose := "Coordinate Square Colors";
      vecCorrect := [];
      vecIncorrect := [];
      commandType := Help;
      input := "";
      colorCoordinate := (0, 0);
      answerColor := false;
    }

    /** `train`: the loop over the user's lines, which ends at a quit line
        or when the lines run out. */
    method Train(sessionType: CommandType, draws: seq<(nat, nat)>, lines: seq<string>)
      requires ValidDraws(draws) && |lines| <= |draws|
      modifies this
      ensures State() == Trained(old(State()).(commandType := sessionType), draws, lines)
    {
      commandType := sessionType;
      var i := 0;
      while i < |lines|
        invariant 0 <= i <= |lines|
        invariant Trained(State(), draws[i..], lines[i..]) == Trained(old(State()).(commandType := sessionType), draws, lines)
      {
        assert draws[i..][0] == draws[i] && draws[i..][1..] == draws[i + 1..];
        assert lines[i..][0] == lines[i] && lines[i..][1..] == lines[i + 1..];
        GenerateProblem(draws[i].0, draws[i].1);
        input := lines[i];
        var t := ProcessCommand(false);
        if t == Input {
          SolveAnswer();
        } else if t == CommandType.Quit {
          Quit();
          return;
        }
        i := i + 1;
      }
    }

    /** `quit`: the session is reset to the default. */
    method Quit()
      modifies this
      ensures State() == ColorInitial()
    {
      nameVerbose := "Coordinate Square Colors";
      vecCorrect := [];
      vecIncorrect := [];
      commandType := Help;
      input := "";
      colorCoordinate := (0, 0);
      answerColor := false;
    }

    /** `process_command`: classifies the input, storing the result only
        when `store` is set. */
    method ProcessCommand(store: bool) returns (t: CommandType)
      modifies this
      ensures t == ColorCommandFor(old(input))
      ensures State() == if store then old(State()).(commandType := t) else old(State())
    {
      if input == "?" || input == "help" {
        t := Help;
      } else if input == "q" || input == "quit" || input == "exit" {
        t := CommandType.Quit;
      } else {
        t := Input;
      }
      if store {
        commandType := t;
      }
    }

    /** `generate_problem`, with the two draws from 1..8 as parameters. */
    method GenerateProblem(file: nat, rank: nat)
      requires 1 <= file <= 8 && 1 <= rank <= 8
      modifies this
      ensures State() == Generated(old(State()), file, rank)
    {
      ClearSavedColorCoordinate();
      SetColorCoordinate(file, rank);
    }

    /** `set_color_coordinate`. */
    method SetColorCoordinate(file: nat, rank: nat)
      modifies this
      ensures State() == old(State()).(colorCoordinate := (file, rank))
    {
      colorCoordinate := (file, rank);
    }

    /** `evaluate_answer`: the four parity cases. */
    method EvaluateAnswer()
      modifies this
      ensures State() == old(State()).(answerColor := DarkSquare(colorCoordinate.0, colorCoordinate.1))
    {
      var (file, rank) := colorCoordinate;
      if file % 2 == 0 {
        answerColor := rank % 2 == 0;
      } else {
        answerColor := rank % 2 != 0;
      }
    }

    /** `solve_answer`. */
    method SolveAnswer()
      requires InRange(colorCoordinate)
      modifies this
      ensures State() == Solved(old(State()))
    {
      EvaluateAnswer();
      if !answerColor && LightAnswer(input) {
        AddCorrect();
      } else if answerColor && DarkAnswer(input) {
        AddCorrect();
      } else {
        AddIncorrect();
      }
      ClearSavedColorCoordinate();
    }

    /** `get_algebraic_coordinate`. */
    method GetAlgebraicCoordinate() returns (s: string)
      requires InRange(colorCoordinate)
      ensures s == AlgebraicCoordinate(colorCoordinate)
    {
      if colorCoordinate.0 != 0 && colorCoordinate.1 != 0 {
        s := [('a' as int + colorCoordinate.0 - 1) as char] + [DigitChar(colorCoordinate.1)];
      } else {
        s := "(0, 0)";
      }
    }

    /** `clear_saved_color_coordinate`. */
    method ClearSavedColorCoordinate()
      modifies this
      ensures State() == old(State()).(colorCoordinate := (0, 0), answerColor := false)
    {
      colorCoordinate := (0, 0);
      answerColor := false;
    }

    /** `add_correct`. */
    method AddCorrect()
      requires InRange(colorCoordinate)
      modifies this
      ensures State() == old(State()).(vecCorrect := old(vecCorrect) + [old((AlgebraicCoordinate(colorCoordinate), Recorded(input)))])
    {
      var color := if LightAnswer(input) then "Light" else if DarkAnswer(input) then "Dark" else input;
      var square := GetAlgebraicCoordinate();
      vecCorrect := vecCorrect + [(square, color)];
    }

    /** `add_incorrect`. */
    method AddIncorrect()
      requires InRange(colorCoordinate)
      modifies this
      ensures State() == old(State()).(vecIncorrect := old(vecIncorrect) + [old((AlgebraicCoordinate(colorCoordinate), Recorded(input)))])
    {
      var color := if LightAnswer(input) then "Light" else if DarkAnswer(input) then "Dark" else input;
      var square := GetAlgebraicCoordinate();
      vecIncorrect := vecIncorrect + [(square, color)];
    }
  }
}
