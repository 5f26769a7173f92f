// The top level of the trainer of bin/chui-trainer/src/lib.rs: the command
// words a trimmed input line may be, and the dispatch loop that reads lines
// until one of them is a quit command. Reading and trimming a line
// (`get_input`) is console input: the loop is given the trimmed lines. The command words are shared with
// crates/coordinate-trainer/src/lib.rs (coordinate_trainer.dfy).

module ChuiTrainer {
  /** `CommandType`; `Help` is the default. */
  datatype CommandType = Help | Numeric | Alpha | Both | Color | Grid | Quit | Input

  /** `process_command`'s classification of the input line. */
  function CommandFor(input: string): CommandType
  {
    if input == "numeric" then Numeric
    else if input == "alpha" then Alpha
    else if input == "both" then Both
    else if input == "color" then Color
    else if input == "grid" then Grid
    else if input == "?" || input == "help" then Help
    else if input == "q" || input == "quit" || input == "exit" then Quit
    else Input
  }

  /** The words of each command, as the help message lists them; `Input`
      is whatever is none of them. */
  function Words(t: CommandType): seq<string>
  {
    match t
    case Numeric => ["numeric"]
    case Alpha => ["alpha"]
    case Both => ["both"]
    case Color => ["color"]
    case Grid => ["grid"]
    case Help => ["?", "help"]
    case Quit => ["q", "quit", "exit"]
    case Input => []
  }

  /** Each command is selected by exactly its words, matched exactly. */
  lemma CommandWords(t: CommandType, input: string)
    requires t != Input
    ensures CommandFor(input) == t <==> input in Words(t)
  {
  }

  /** Any other line is an answer. */
  lemma OtherIsInput(input: string)
    ensures CommandFor(input) == Input <==> forall t: CommandType :: input !in Words(t)
  {
    if CommandFor(input) != Input {
      CommandWords(CommandFor(input), input);
    }
    forall t: CommandType | t != Input && input in Words(t)
      ensures CommandFor(input) != Input
    {
      CommandWords(t, input);
    }
  }

  /** Whether an input line is a quit command. */
  predicate IsQuitLine(line: string)
  {
    line in Words(Quit)
  }

  /** The index of the first line that is a quit command, or the number of
      lines when none is. */
  function QuitAt(lines: seq<string>): (n: nat)
    ensures n <= |lines|
    ensures forall j | 0 <= j < n :: !IsQuitLine(lines[j])
    ensures n < |lines| ==> IsQuitLine(lines[n])
  {
    if lines == [] then 0
    else if IsQuitLine(lines[0]) then 0
    else 1 + QuitAt(lines[1..])
  }

  /** The fields the model keeps of `CoordinateTrainer`. */
  datatype TrainerState = TrainerState(
    nameVerbose: string,
    namesVerbose: seq<string>,
    vecCorrect: seq<(string, string)>,
    vecIncorrect: seq<(string, string)>,
    commandType: CommandType,
    input: string)

  /** `CoordinateTrainer::default`. */
  function Initial(): TrainerState
  {
    TrainerState("CoordinateTrainer", [], [], [], Help, "")
  }

  /** `process_command(store)`: the new state; the returned command is
      `CommandFor(st.input)`. */
  function Processed(st: TrainerState, store: bool): (r: TrainerState)
    ensures r.commandType == (if store then CommandFor(st.input) else st.commandType)
    ensures r.(commandType := st.commandType) == st
  {
    if store then st.(commandType := CommandFor(st.input)) else st
  }

  class CoordinateTrainer {
    var nameVerbose: string
    var namesVerbose: seq<string>
    var vecCorrect: seq<(string, string)>
    var vecIncorrect: seq<(string, string)>
    var commandType: CommandType
    var input: string

    function State(): TrainerState
      reads this
    {
      TrainerState(nameVerbose, namesVerbose, vecCorrect, vecIncorrect, commandType, input)
    }

    /** `CoordinateTrainer::default`. */
    constructor ()
      ensures State() == Initial()
    {
      nameVerbose := "CoordinateTrainer";
      namesVerbose := [];
      vecCorrect := [];
      vecIncorrect := [];
      commandType := Help;
      input := "";
    }

    /** `process_command`: the command is stored only when `store` (the source's `set`) is true,
        and returned either way. */
    method ProcessCommand(store: bool) returns (t: CommandType)
      modifies this
      ensures t == CommandFor(old(input))
      ensures State() == Processed(old(State()), store)
    {
      t := CommandFor(input);
      if store {
        commandType := t;
      }
    }

    /** `run`: each line `get_input` stores in `input` (already trimmed)
        is processed with `store` true; the loop stops right after the
        first quit command. */
    method Run(lines: seq<string>) returns (consumed: nat)
      modifies this
      ensures consumed == (if QuitAt(lines) < |lines| then QuitAt(lines) + 1 else |lines|)
      ensures QuitAt(lines) < |lines| ==> commandType == Quit
      ensures 0 < consumed ==> input == lines[consumed - 1] && commandType == CommandFor(input)
      ensures consumed == 0 ==> input == old(input) && commandType == old(commandType)
      ensures vecCorrect == old(vecCorrect) && vecIncorrect == old(vecIncorrect)
      ensures nameVerbose == old(nameVerbose) && namesVerbose == old(namesVerbose)
    {
      consumed := 0;
      while consumed < |lines|
        invariant consumed <= QuitAt(lines)
        invariant 0 < consumed ==> input == lines[consumed - 1] && commandType == CommandFor(input)
        invariant consumed == 0 ==> input == old(input) && commandType == old(commandType)
        invariant vecCorrect == old(vecCorrect) && vecIncorrect == old(vecIncorrect)
        invariant nameVerbose == old(nameVerbose) && namesVerbose == old(namesVerbose)
      {
        input := lines[consumed];
        var t := ProcessCommand(true);
        CommandWords(Quit, input);
        if t == Quit {
          assert IsQuitLine(lines[consumed]);
          consumed := consumed + 1;
          return;
        }
        assert !IsQuitLine(lines[consumed]);
        consumed := consumed + 1;
      }
    }
  }
}
