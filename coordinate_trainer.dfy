// The top level of crates/coordinate-trainer/src/lib.rs, a copy of the
// trainer of bin/chui-trainer/src/lib.rs without the names: the same
// `CommandType`, the same command words (`ChuiTrainer.CommandFor`) and the
// same dispatch loop over the trimmed input lines.

module CoordinateTrainerCrate {
  import opened T = ChuiTrainer

  /** The fields the model keeps of `CoordinateTrainer`. */
  datatype CrateState = CrateState(
    vecCorrect: seq<(string, string)>,
    vecIncorrect: seq<(string, string)>,
    commandType: CommandType,
    input: string)

  /** `CoordinateTrainer::default`, which `new` returns. */
  function CrateInitial(): CrateState
  {
    CrateState([], [], Help, "")
  }

  /** `process_command(store)`: the new state. */
  function ProcessedState(st: CrateState, store: bool): (r: CrateState)
    ensures r.commandType == (if store then CommandFor(st.input) else st.commandType)
    ensures r.(commandType := st.commandType) == st
  {
    if store then st.(commandType := CommandFor(st.input)) else st
  }

  class CoordinateTrainer {
    var vecCorrect: seq<(string, string)>
    var vecIncorrect: seq<(string, string)>
    var commandType: CommandType
    var input: string

    function State(): CrateState
      reads this
    {
      CrateState(vecCorrect, vecIncorrect, commandType, input)
    }

    /** `CoordinateTrainer::new`: the default trainer. */
    constructor ()
      ensures State() == CrateInitial()
    {
      vecCorrect := [];
      vecIncorrect := [];
      commandType := Help;
      input := "";
    }

    /** `process_command`: the command is stored only when `store` (the
        source's `set`) is true, and returned either way. */
    method ProcessCommand(store: bool) returns (t: CommandType)
      modifies this
      ensures t == CommandFor(old(input))
      ensures State() == ProcessedState(old(State()), store)
    {
      t := CommandFor(input);
      if store {
        commandType := t;
      }
    }

    /** `run`: each line `get_input` stores in `input` (already trimmed)
        is processed with `store` true; the loop stops right after the
        first quit command. */
    method Run(lines: seq<string>) returns (consumed: nat)
      modifies this
      ensures consumed == (if QuitAt(lines) < |lines| then QuitAt(lines) + 1 else |lines|)
      ensures QuitAt(lines) < |lines| ==> commandType == Quit
      ensures 0 < consumed ==> input == lines[consumed - 1] && commandType == CommandFor(input)
      ensures consumed == 0 ==> input == old(input) && commandType == old(commandType)
      ensures vecCorrect == old(vecCorrect) && vecIncorrect == old(vecIncorrect)
    {
      consumed := 0;
      while consumed < |lines|
        invariant consumed <= QuitAt(lines)
        invariant 0 < consumed ==> input == lines[consumed - 1] && commandType == CommandFor(input)
        invariant consumed == 0 ==> input == old(input) && commandType == old(commandType)
        invariant vecCorrect == old(vecCorrect) && vecIncorrect == old(vecIncorrect)
      {
        input := lines[consumed];
        var t := ProcessCommand(true);
        CommandWords(Quit, input);
        if t == Quit {
          assert IsQuitLine(lines[consumed]);
          consumed := consumed + 1;
          return;
        }
        assert !IsQuitLine(lines[consumed]);
        consumed := consumed + 1;
      }
    }
  }
}
