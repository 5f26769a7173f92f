// The alphanumeric coordinate trainer of bin/chui-trainer/src/coord.rs: it
// asks for the sum or difference of two board coordinates shown as numbers
// or file letters, and records each answer as correct or incorrect. The
// random draws are parameters.

module ChuiTrainerCoord {
  import opened Errors
  import opened Text
  import opened ChuiTrainer

  /** `STR_FILES` of lib/chui_core/src/constants.rs: the file letters. */
  const STR_FILES: seq<string> := ["a", "b", "c", "d", "e", "f", "g", "h"]

  /** Values of `usize` are below this bound. */
  const USIZE_LIMIT: nat := 0x1_0000_0000_0000_0000

  /** The name of file `n`, counted from 1: `STR_FILES[n - 1]`. */
  function FileLetter(n: nat): (s: string)
    requires 1 <= n <= 8
    ensures s == STR_FILES[n - 1]
  {
    [('a' as int + n - 1) as char]
  }

  /** `str::parse::<usize>`: an optional '+' followed by one or more
      decimal digits whose value fits in a `usize`. */
  function ParseUsize(s: string): Option<nat>
  {
    var digits := Unsigned(s);
    if AllDigits(digits) && DigitsValue(digits) < USIZE_LIMIT then Some(DigitsValue(digits)) else None
  }

  /** The digits after an optional leading '+'. */
  function Unsigned(s: string): string
  {
    if |s| > 0 && s[0] == '+' then s[1..] else s
  }

  predicate AllDigits(s: string)
  {
    |s| > 0 && forall i :: 0 <= i < |s| ==> IsDigit(s[i])
  }

  /** The file whose letter is the input, counted from 1. */
  function FileOf(input: string): Option<nat>
  {
    if |input| == 1 && 'a' <= input[0] <= 'h' then Some(input[0] as int - 'a' as int + 1) else None
  }

  /** `solve_answer`'s judgement: a number is compared with the answer; any
      other input counts only as a file letter standing for its index. */
  predicate Judged(input: string, answer: nat)
  {
    match ParseUsize(input)
    case Some(v) => v == answer
    case None => FileOf(input) == Some(answer)
  }

  // ----- the judgement -----

  /** The answer written in decimal is judged correct, and so is any other
      number's decimal judged against that number only. */
  lemma JudgedDecimal(n: nat, answer: nat)
    requires n < USIZE_LIMIT
    ensures ParseUsize(NatToString(n)) == Some(n)
    ensures Judged(NatToString(n), answer) <==> n == answer
  {
    ParseDecimal(NatToString(n));
  }

  /** Digits without a sign parse to their value when it fits. */
  lemma ParseDecimal(s: string)
    requires |s| >= 1 && (forall i :: 0 <= i < |s| ==> IsDigit(s[i])) && DigitsValue(s) < USIZE_LIMIT
    ensures ParseUsize(s) == Some(DigitsValue(s))
  {
    assert Unsigned(s) == s;
  }

  /** A file letter is judged correct exactly for its file's number. */
  lemma JudgedFileLetter(n: nat, answer: nat)
    requires 1 <= n <= 8
    ensures ParseUsize(FileLetter(n)) == None
    ensures Judged(FileLetter(n), answer) <==> n == answer
  {
    var s := FileLetter(n);
    assert s[0] != '+' && !IsDigit(s[0]);
  }

  /** An input that is neither a number nor a file letter is incorrect. */
  lemma JudgedOther(input: string, answer: nat)
    requires ParseUsize(input) == None && FileOf(input) == None
    ensures !Judged(input, answer)
  {
  }

  /** The file letters are exactly the inputs `FileOf` reads. */
  lemma FileOfLetters(input: string)
    ensures FileOf(input).Some? <==> input in STR_FILES
    ensures forall i :: 0 <= i < 8 && input == STR_FILES[i] ==> FileOf(input) == Some(i + 1)
  {
    if FileOf(input).Some? {
      assert input == FileLetter(FileOf(input).value);
    }
  }

  // ----- problem generation -----

  /** One draw of `generate_problem`'s loop: two sides in 1..8, the
      operation (true for +), and for + whether the lesser side comes first. */
  datatype Draw = Draw(lhs: nat, rhs: nat, operation: bool, lesserFirst: bool)

  predicate ValidDraws(draws: seq<Draw>)
  {
    forall i :: 0 <= i < |draws| ==> 1 <= draws[i].lhs <= 8 && 1 <= draws[i].rhs <= 8
  }

  function Lesser(d: Draw): nat { if d.lhs < d.rhs then d.lhs else d.rhs }

  function Greater(d: Draw): nat { if d.lhs < d.rhs then d.rhs else d.lhs }

  /** A sum is accepted when it is at most 8, a difference when it is not 0. */
  predicate Accepts(d: Draw)
  {
    if d.operation then Lesser(d) + Greater(d) < 9 else Greater(d) != Lesser(d)
  }

  /** The sides an accepted draw leaves: the greater one first, except for
      a sum whose lesser side is drawn to come first. */
  function Sides(d: Draw): (nat, nat)
  {
    if d.operation && d.lesserFirst then (Lesser(d), Greater(d)) else (Greater(d), Lesser(d))
  }

  /** `evaluate_answer`; a difference needs `lhs >= rhs`, as `usize`
      subtraction panics below 0. */
  function AnswerOf(lhs: nat, rhs: nat, operation: bool): nat
    requires operation || rhs <= lhs
  {
    if operation then lhs + rhs else lhs - rhs
  }

  /** An accepted draw gives a problem whose answer is a coordinate 1..8,
      with the sides in 1..8 and no subtraction below 0. */
  lemma AcceptedAnswerInRange(d: Draw)
    requires 1 <= d.lhs <= 8 && 1 <= d.rhs <= 8 && Accepts(d)
    ensures 1 <= Sides(d).0 <= 8 && 1 <= Sides(d).1 <= 8
    ensures d.operation || Sides(d).1 < Sides(d).0
    ensures 1 <= AnswerOf(Sides(d).0, Sides(d).1, d.operation) <= 8
  {
  }

  /** The draws `generate_problem` rejects are exactly the sums above 8 and
      the differences of equal sides. */
  lemma RejectedDraws(d: Draw)
    requires 1 <= d.lhs <= 8 && 1 <= d.rhs <= 8
    ensures !Accepts(d) <==> (d.operation && d.lhs + d.rhs > 8) || (!d.operation && d.lhs == d.rhs)
  {
  }

  // ----- rendering -----

  /** `get_lhs`/`get_rhs`: a file letter in Alpha sessions, a letter or a
      digit by `coin` in Both sessions, the decimal number otherwise. */
  predicate Shown(t: CommandType, n: nat)
  {
    t == Alpha || t == Both ==> 1 <= n <= 8
  }

  function OperandText(t: CommandType, n: nat, coin: bool): string
    requires Shown(t, n)
  {
    match t
    case Alpha => FileLetter(n)
    case Both => if coin then FileLetter(n) else [DigitChar(n)]
    case _ => NatToString(n)
  }

  /** `get_operation`. */
  function OperationText(operation: bool): string
  {
    if operation then "+" else "-"
  }

  /** Every rendering of an operand is non-empty and names `n`. */
  lemma OperandTextNames(t: CommandType, n: nat, coin: bool)
    requires Shown(t, n) && n < USIZE_LIMIT
    ensures FileOf(OperandText(t, n, coin)) == Some(n) || ParseUsize(OperandText(t, n, coin)) == Some(n)
  {
    match t
    case Alpha =>
    case Both =>
      if !coin {
        var s := [DigitChar(n)];
        assert s[..0] == [];
        assert DigitsValue(s) == n;
        ParseDecimal(s);
      }
    case _ => JudgedDecimal(n, n);
  }

  // ----- the trainer -----

  /** The fields the model keeps of `AlphaNumericTrainer`. */
  datatype CoordState = CoordState(
    nameVerbose: string,
    namesVerbose: seq<string>,
    vecCorrect: seq<(string, string)>,
    vecIncorrect: seq<(string, string)>,
    commandType: CommandType,
    input: string,
    answer: nat,
    lhs: nat,
    rhs: nat,
    operation: bool,
    savedLhs: string,
    savedRhs: string,
    savedOperation: string)

  /** `AlphaNumericTrainer::default`. */
  function CoordInitial(): CoordState
  {
    CoordState("AlphaNumeric Coordinates",
      ["Numeric Coordinates", "Alpha Coordinates", "AlphaNumeric Coordinates"],
      [], [], Help, "", 0, 0, 0, false, "", "", "")
  }

  /** `get_name_verbose`. */
  function SessionName(t: CommandType, names: seq<string>): string
    requires |names| >= 3
  {
    match t
    case Numeric => names[0]
    case Alpha => names[1]
    case Both => names[2]
    case _ => " ??? Unknown Training Session ???"
  }

  /** In the default state the three sessions have their own names and
      every other command type has the unknown name. */
  lemma DefaultSessionNames(t: CommandType)
    ensures SessionName(Numeric, CoordInitial().namesVerbose) == "Numeric Coordinates"
    ensures SessionName(Alpha, CoordInitial().namesVerbose) == "Alpha Coordinates"
    ensures SessionName(Both, CoordInitial().namesVerbose) == "AlphaNumeric Coordinates"
    ensures t != Numeric && t != Alpha && t != Both ==>
              SessionName(t, CoordInitial().namesVerbose) == " ??? Unknown Training Session ???"
  {
  }

  function Cleared(st: CoordState): CoordState
  {
    st.(savedLhs := "", savedRhs := "", savedOperation := "")
  }

  /** `generate_problem` ending on the accepted draw `d`. */
  function Generated(st: CoordState, d: Draw): CoordState
  {
    Cleared(st).(lhs := Sides(d).0, rhs := Sides(d).1, operation := d.operation)
  }

  /** The saved expression can be rendered: it is cached, or both sides
      can be shown in the session's notation. */
  predicate Renderable(st: CoordState)
  {
    (st.savedLhs != "" && st.savedOperation != "" && st.savedRhs != "")
    || (Shown(st.commandType, st.lhs) && Shown(st.commandType, st.rhs))
  }

  /** `get_expression`'s new state: the parts are rendered again only when
      one of them is empty. */
  function Refilled(st: CoordState, coinL: bool, coinR: bool): CoordState
    requires Renderable(st)
  {
    if st.savedLhs == "" || st.savedOperation == "" || st.savedRhs == "" then
      st.(savedLhs := OperandText(st.commandType, st.lhs, coinL),
          savedOperation := OperationText(st.operation),
          savedRhs := OperandText(st.commandType, st.rhs, coinR))
    else st
  }

  function ExpressionText(st: CoordState): string
  {
    st.savedLhs + " " + st.savedOperation + " " + st.savedRhs
  }

  /** The expression is cached: rendering again, whatever the coins,
      changes nothing, so the same text is shown and recorded. */
  lemma RefilledCached(st: CoordState, coinL: bool, coinR: bool, coinL': bool, coinR': bool)
    requires Renderable(st)
    ensures Renderable(Refilled(st, coinL, coinR))
    ensures Refilled(Refilled(st, coinL, coinR), coinL', coinR') == Refilled(st, coinL, coinR)
  {
    if st.savedLhs == "" || st.savedOperation == "" || st.savedRhs == "" {
      assert |OperandText(st.commandType, st.lhs, coinL)| >= 1 && |OperandText(st.commandType, st.rhs, coinR)| >= 1;
    }
  }

  /** A freshly generated problem can be rendered in every session. */
  lemma GeneratedRenderable(st: CoordState, d: Draw)
    requires 1 <= d.lhs <= 8 && 1 <= d.rhs <= 8 && Accepts(d)
    ensures Renderable(Generated(st, d))
    ensures Generated(st, d).operation || Generated(st, d).rhs <= Generated(st, d).lhs
  {
    AcceptedAnswerInRange(d);
  }

  predicate Solvable(st: CoordState)
  {
    (st.operation || st.rhs <= st.lhs) && Renderable(st)
  }

  /** `add_correct` (`correct`) or `add_incorrect`: the expression is
      rendered if needed and recorded with the input. */
  function Added(st: CoordState, coinL: bool, coinR: bool, correct: bool): CoordState
    requires Renderable(st)
  {
    var shown := Refilled(st, coinL, coinR);
    var element := (ExpressionText(shown), st.input);
    if correct then shown.(vecCorrect := st.vecCorrect + [element])
    else shown.(vecIncorrect := st.vecIncorrect + [element])
  }

  /** `solve_answer`: the answer is evaluated, the input judged, and the
      expression with the input recorded in one of the two lists. */
  function Solved(st: CoordState, coinL: bool, coinR: bool): CoordState
    requires Solvable(st)
  {
    var evaluated := st.(answer := AnswerOf(st.lhs, st.rhs, st.operation));
    Added(evaluated, coinL, coinR, Judged(st.input, evaluated.answer))
  }

  /** Solving records exactly one answer, in the correct list exactly when
      the input names the answer, and keeps the earlier records. */
  lemma SolvedRecordsOne(st: CoordState, coinL: bool, coinR: bool)
    requires Solvable(st)
    ensures |Solved(st, coinL, coinR).vecCorrect| + |Solved(st, coinL, coinR).vecIncorrect|
            == |st.vecCorrect| + |st.vecIncorrect| + 1
    ensures |Solved(st, coinL, coinR).vecCorrect| == |st.vecCorrect| + 1
            <==> Judged(st.input, AnswerOf(st.lhs, st.rhs, st.operation))
    ensures Solved(st, coinL, coinR).vecCorrect[..|st.vecCorrect|] == st.vecCorrect
    ensures Solved(st, coinL, coinR).vecIncorrect[..|st.vecIncorrect|] == st.vecIncorrect
  {
  }

  class AlphaNumericTrainer {
    var nameVerbose: string
    var namesVerbose: seq<string>
    var vecCorrect: seq<(string, string)>
    var vecIncorrect: seq<(string, string)>
    var commandType: CommandType
    var input: string
    var answer: nat
    var lhs: nat
    var rhs: nat
    var operation: bool
    var savedLhs: string
    var savedRhs: string
    var savedOperation: string

    function State(): CoordState
      reads this
    {
      CoordState(nameVerbose, namesVerbose, vecCorrect, vecIncorrect, commandType, input,
        answer, lhs, rhs, operation, savedLhs, savedRhs, savedOperation)
    }

    /** `AlphaNumericTrainer::default`. */
    constructor ()
      ensures State() == CoordInitial()
    {
      nameVerbose := "AlphaNumeric Coordinates";
      namesVerbose := ["Numeric Coordinates", "Alpha Coordinates", "AlphaNumeric Coordinates"];
      vecCorrect := [];
      vecIncorrect := [];
      commandType := Help;
      input := "";
      answer := 0;
      lhs := 0;
      rhs := 0;
      operation := false;
      savedLhs := "";
      savedRhs := "";
      savedOperation := "";
    }

    /** `get_name_verbose`; the names list is indexed up to 2. */
    method GetNameVerbose() returns (s: string)
      requires |namesVerbose| >= 3
      ensures s == SessionName(commandType, namesVerbose)
    {
      match commandType {
        case Numeric => s := namesVerbose[0];
        case Alpha => s := namesVerbose[1];
        case Both => s := namesVerbose[2];
        case _ => s := " ??? Unknown Training Session ???";
      }
    }

    /** `generate_problem`: draws until one is accepted. The random draws
        are given, and the generator is assumed to produce an accepted one
        eventually. */
    method GenerateProblem(draws: seq<Draw>) returns (used: nat)
      requires ValidDraws(draws)
      requires exists i :: 0 <= i < |draws| && Accepts(draws[i])
      modifies this
      ensures used < |draws| && Accepts(draws[used])
      ensures forall j :: 0 <= j < used ==> !Accepts(draws[j])
      ensures State() == Generated(old(State()), draws[used])
    {
      ClearSavedExpression();
      var i := 0;
      while i < |draws|
        invariant 0 <= i <= |draws|
        invariant forall j :: 0 <= j < i ==> !Accepts(draws[j])
        invariant State().(lhs := 0, rhs := 0, operation := false) == Cleared(old(State())).(lhs := 0, rhs := 0, operation := false)
      {
        var d := draws[i];
        lhs, rhs, operation := d.lhs, d.rhs, d.operation;
        var lesser, greater := if lhs < rhs then lhs else rhs, if lhs < rhs then rhs else lhs;
        if operation {
          if lesser + greater < 9 {
            if d.lesserFirst {
              lhs, rhs := lesser, greater;
            } else {
              rhs, lhs := lesser, greater;
            }
            return i;
          }
          i := i + 1;
          continue;
        }
        lhs, rhs := greater, lesser;
        if lhs == rhs {
          i := i + 1;
          continue;
        }
        return i;
      }
      assert false;
    }

    /** `evaluate_answer`. */
    method EvaluateAnswer()
      requires operation || rhs <= lhs
      modifies this
      ensures State() == old(State()).(answer := old(AnswerOf(lhs, rhs, operation)))
    {
      if operation {
        answer := lhs + rhs;
      } else {
        answer := lhs - rhs;
      }
    }

    /** `solve_answer`: a number is compared with the answer; otherwise
        the input is looked up among the file letters. */
    method SolveAnswer(coinL: bool, coinR: bool)
      requires Solvable(State())
      modifies this
      ensures State() == Solved(old(State()), coinL, coinR)
    {
      EvaluateAnswer();
      match ParseUsize(input) {
        case Some(v) =>
          if answer == v {
            AddCorrect(coinL, coinR);
          } else {
            AddIncorrect(coinL, coinR);
          }
        case None =>
          var isEvaluated := SolveFileLetter(coinL, coinR);
          if !isEvaluated {
            AddIncorrect(coinL, coinR);
          }
      }
    }

    /** The loop of `solve_answer` over `STR_FILES`: an input that is a
        file letter is judged against the letter's file number. */
    method SolveFileLetter(coinL: bool, coinR: bool) returns (isEvaluated: bool)
      requires Renderable(State())
      modifies this
      ensures isEvaluated <==> FileOf(old(input)).Some?
      ensures isEvaluated ==> State() == Added(old(State()), coinL, coinR, FileOf(old(input)) == Some(old(answer)))
      ensures !isEvaluated ==> State() == old(State())
    {
      isEvaluated := false;
      FileOfLetters(input);
      for idx := 0 to 8
        invariant isEvaluated <==> exists j :: 0 <= j < idx && input == STR_FILES[j]
        invariant input == old(input) && answer == old(answer)
        invariant isEvaluated ==> State() == Added(old(State()), coinL, coinR, FileOf(input) == Some(answer))
        invariant !isEvaluated ==> State() == old(State())
      {
        if input == STR_FILES[idx] {
          if answer == idx + 1 {
            AddCorrect(coinL, coinR);
          } else {
            AddIncorrect(coinL, coinR);
          }
          isEvaluated := true;
        }
      }
    }

    /** `get_lhs`. */
    method GetLhs(coin: bool) returns (s: string)
      requires Shown(commandType, lhs)
      ensures s == OperandText(commandType, lhs, coin)
    {
      match commandType {
        case Alpha => s := STR_FILES[lhs - 1];
        case Both => s := if coin then STR_FILES[lhs - 1] else [DigitChar(lhs)];
        case _ => s := NatToString(lhs);
      }
    }

    /** `get_rhs`. */
    method GetRhs(coin: bool) returns (s: string)
      requires Shown(commandType, rhs)
      ensures s == OperandText(commandType, rhs, coin)
    {
      match commandType {
        case Alpha => s := STR_FILES[rhs - 1];
        case Both => s := if coin then STR_FILES[rhs - 1] else [DigitChar(rhs)];
        case _ => s := NatToString(rhs);
      }
    }

    /** `get_operation`. */
    method GetOperation() returns (s: string)
      ensures s == OperationText(operation)
    {
      if operation {
        s := "+";
      } else {
        s := "-";
      }
    }

    /** `get_expression`: renders and caches the parts when one is empty. */
    method GetExpression(coinL: bool, coinR: bool) returns (s: string)
      requires Renderable(State())
      modifies this
      ensures State() == Refilled(old(State()), coinL, coinR)
      ensures s == ExpressionText(State())
    {
      if savedLhs == "" || savedOperation == "" || savedRhs == "" {
        var l := GetLhs(coinL);
        var o := GetOperation();
        var r := GetRhs(coinR);
        savedLhs, savedOperation, savedRhs := l, o, r;
      }
      s := savedLhs + " " + savedOperation + " " + savedRhs;
    }

    /** `clear_saved_expression`. */
    method ClearSavedExpression()
      modifies this
      ensures State() == Cleared(old(State()))
    {
      savedLhs := "";
      savedOperation := "";
      savedRhs := "";
    }

    /** `add_correct`. */
    method AddCorrect(coinL: bool, coinR: bool)
      requires Renderable(State())
      modifies this
      ensures State() == Added(old(State()), coinL, coinR, true)
    {
      var expression := GetExpression(coinL, coinR);
      vecCorrect := vecCorrect + [(expression, input)];
    }

    /** `add_incorrect`. */
    method AddIncorrect(coinL: bool, coinR: bool)
      requires Renderable(State())
      modifies this
      ensures State() == Added(old(State()), coinL, coinR, false)
    {
      var expression := GetExpression(coinL, coinR);
      vecIncorrect := vecIncorrect + [(expression, input)];
    }
  }
}
