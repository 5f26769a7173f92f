// The older `Command` of src/modules/command.rs: the same first-match
// lookup over per-context command parts as lib/chui_core/src/command.rs
// (command.dfy, whose `CommandPart`, `Lookup` and loop are reused here),
// with fewer kinds and one or two aliases per part.

module OldCommand {
  import opened Errors
  import C = Command

  datatype CommandKind =
    | Move
    | SwitchParser
    | DisplayForWhite
    | DisplayForBlack
    | Help
    | Back
    | Quit
    | SwitchToAlgebraicParser
    | SwitchToConciseReversibleParser
    | SwitchToCoordinateParser
    | SwitchToDescriptiveParser
    | SwitchToICCFParser
    | SwitchToLongAlgebraicParser
    | SwitchToReversibleAlgebraicParser
    | SwitchToSmithParser

  datatype CommandContext = MainContext | SwitchParserContext

  /** The aliases of the part of each kind. */
  function KindAliases(k: CommandKind): seq<string>
  {
    match k
    case Move => ["MOVE"]
    case SwitchParser => ["sw"]
    case DisplayForWhite => ["dw"]
    case DisplayForBlack => ["db"]
    case Help => ["h", "help"]
    case Quit => ["q", "quit"]
    case SwitchToAlgebraicParser => ["1"]
    case SwitchToConciseReversibleParser => ["2"]
    case SwitchToCoordinateParser => ["3"]
    case SwitchToDescriptiveParser => ["4"]
    case SwitchToICCFParser => ["5"]
    case SwitchToLongAlgebraicParser => ["6"]
    case SwitchToReversibleAlgebraicParser => ["7"]
    case SwitchToSmithParser => ["8"]
    case Back => ["b", "back"]
  }

  /** The description of the part of each kind; `example` is the current
      parser's example move. */
  function Description(k: CommandKind, example: string): string
  {
    match k
    case Move => "E.g., " + example
    case SwitchParser => "Switch the current parser engine"
    case DisplayForWhite => "Display board for White"
    case DisplayForBlack => "Display board for Black"
    case Help => "Display this help message"
    case Quit => "Quit the application"
    case SwitchToAlgebraicParser => "Algebraic Parser"
    case SwitchToConciseReversibleParser => "Concise Reversible Parser (Not Implemented)"
    case SwitchToCoordinateParser => "Coordinate Parser (Not Implemented)"
    case SwitchToDescriptiveParser => "Descriptive Parser (Not Implemented)"
    case SwitchToICCFParser => "ICCF Parser (Not Implemented)"
    case SwitchToLongAlgebraicParser => "Long Algebraic Parser (Not Implemented)"
    case SwitchToReversibleAlgebraicParser => "Reversible Algebraic Parser (Not Implemented)"
    case SwitchToSmithParser => "Smith Parser (Not Implemented)"
    case Back => "Go back"
  }

  function Part(k: CommandKind, example: string): C.CommandPart<CommandKind>
  {
    C.CommandPart(KindAliases(k), Description(k, example), k)
  }

  /** The parts of the given kinds, in order. */
  function Parts(kinds: seq<CommandKind>, example: string): (parts: seq<C.CommandPart<CommandKind>>)
    ensures |parts| == |kinds|
    ensures forall i | 0 <= i < |kinds| :: parts[i] == Part(kinds[i], example)
  {
    seq(|kinds|, i requires 0 <= i < |kinds| => Part(kinds[i], example))
  }

  function MainKinds(): seq<CommandKind>
  {
    [Move, SwitchParser, DisplayForWhite, DisplayForBlack, Help, Quit]
  }

  function SwitchParserKinds(): seq<CommandKind>
  {
    [SwitchToAlgebraicParser, SwitchToConciseReversibleParser, SwitchToCoordinateParser,
     SwitchToDescriptiveParser, SwitchToICCFParser, SwitchToLongAlgebraicParser,
     SwitchToReversibleAlgebraicParser, SwitchToSmithParser, Help, Back]
  }

  /** `build_commands`: both contexts and nothing else. */
  function BuildCommands(example: string): (m: map<CommandContext, seq<C.CommandPart<CommandKind>>>)
    ensures m.Keys == {MainContext, SwitchParserContext}
  {
    map[MainContext := Parts(MainKinds(), example), SwitchParserContext := Parts(SwitchParserKinds(), example)]
  }

  class Command {
    var commands: map<CommandContext, seq<C.CommandPart<CommandKind>>>

    /** `Command::new`. */
    constructor (example: string)
      ensures commands == BuildCommands(example)
    {
      commands := BuildCommands(example);
    }

    /** `process_command`. */
    method ProcessCommand(context: CommandContext, command: string) returns (r: Option<CommandKind>)
      ensures context !in commands ==> r.None?
      ensures context in commands ==> r == C.Lookup(commands[context], command)
    {
      if context in commands {
        r := C.FindCommand(commands[context], command);
      } else {
        r := None;
      }
    }

    /** `set_commands`: the whole table is replaced. */
    method SetCommands(example: string)
      modifies this
      ensures commands == BuildCommands(example)
    {
      commands := BuildCommands(example);
    }
  }

  // ----- properties of the tables -----

  /** The kind each alias stands for, grouped by the alias's length. */
  function KindOf(a: string): Option<CommandKind>
  {
    if |a| == 1 then
      if a == "h" then Some(Help)
      else if a == "q" then Some(Quit)
      else if a == "1" then Some(SwitchToAlgebraicParser)
      else if a == "2" then Some(SwitchToConciseReversibleParser)
      else if a == "3" then Some(SwitchToCoordinateParser)
      else if a == "4" then Some(SwitchToDescriptiveParser)
      else if a == "5" then Some(SwitchToICCFParser)
      else if a == "6" then Some(SwitchToLongAlgebraicParser)
      else if a == "7" then Some(SwitchToReversibleAlgebraicParser)
      else if a == "8" then Some(SwitchToSmithParser)
      else if a == "b" then Some(Back)
      else None
    else if |a| == 2 then
      if a == "sw" then Some(SwitchParser)
      else if a == "dw" then Some(DisplayForWhite)
      else if a == "db" then Some(DisplayForBlack)
      else None
    else if |a| == 4 then
      if a == "MOVE" then Some(Move)
      else if a == "help" then Some(Help)
      else if a == "quit" then Some(Quit)
      else if a == "back" then Some(Back)
      else None
    else None
  }

  /** Every alias of a kind's part stands for that kind. */
  lemma AliasOwner(k: CommandKind, a: string)
    requires a in KindAliases(k)
    ensures KindOf(a) == Some(k)
  {
  }

  lemma PartsOwned(kinds: seq<CommandKind>, example: string)
    ensures forall i, a | 0 <= i < |Parts(kinds, example)| && a in Parts(kinds, example)[i].commands ::
              KindOf(a) == Some(Parts(kinds, example)[i].kind)
  {
    forall i, a | 0 <= i < |Parts(kinds, example)| && a in Parts(kinds, example)[i].commands
      ensures KindOf(a) == Some(Parts(kinds, example)[i].kind)
    {
      AliasOwner(kinds[i], a);
    }
  }

  /** An alias selects kind `k` exactly when it is one of `k`'s aliases and
      `k` is in the context. */
  lemma ContextLookup(kinds: seq<CommandKind>, example: string, a: string, k: CommandKind)
    ensures C.Lookup(Parts(kinds, example), a) == Some(k) <==> a in KindAliases(k) && k in kinds
  {
    PartsOwned(kinds, example);
    C.OwnedLookup(Parts(kinds, example), KindOf, a, k);
  }

  /** Within each context no alias belongs to two parts. */
  lemma ContextsDistinct(example: string)
    ensures C.AliasesDistinct(Parts(MainKinds(), example))
    ensures C.AliasesDistinct(Parts(SwitchParserKinds(), example))
  {
    PartsOwned(MainKinds(), example);
    PartsOwned(SwitchParserKinds(), example);
    C.OwnedDistinct(Parts(MainKinds(), example), KindOf);
    C.OwnedDistinct(Parts(SwitchParserKinds(), example), KindOf);
  }

  /** `Main` answers exactly MOVE, sw, dw, db, h, help, q and quit. */
  lemma MainAliasesExactly(example: string, a: string)
    ensures C.Lookup(Parts(MainKinds(), example), a).Some? <==>
            a in ["MOVE", "sw", "dw", "db", "h", "help", "q", "quit"]
  {
    var found := C.Lookup(Parts(MainKinds(), example), a);
    if found.Some? {
      ContextLookup(MainKinds(), example, a, found.value);
    }
    if KindOf(a).Some? {
      ContextLookup(MainKinds(), example, a, KindOf(a).value);
    }
  }

  /** `SwitchParser` answers h and help with help, b and back with back. */
  lemma SwitchParserHelpBack(example: string)
    ensures C.Lookup(Parts(SwitchParserKinds(), example), "h") == Some(Help)
    ensures C.Lookup(Parts(SwitchParserKinds(), example), "help") == Some(Help)
    ensures C.Lookup(Parts(SwitchParserKinds(), example), "b") == Some(Back)
    ensures C.Lookup(Parts(SwitchParserKinds(), example), "back") == Some(Back)
  {
    ContextLookup(SwitchParserKinds(), example, "h", Help);
    ContextLookup(SwitchParserKinds(), example, "help", Help);
    ContextLookup(SwitchParserKinds(), example, "b", Back);
    ContextLookup(SwitchParserKinds(), example, "back", Back);
  }

  /** The digit n of `SwitchParser` picks its n-th parser. */
  lemma SwitchParserDigit(example: string, n: nat)
    requires 1 <= n <= 8
    ensures C.Lookup(Parts(SwitchParserKinds(), example), [('0' as int + n) as char]) == Some(SwitchParserKinds()[n - 1])
  {
    var k := SwitchParserKinds()[n - 1];
    assert [('0' as int + n) as char] in KindAliases(k) by {
      if n == 1 { assert k == SwitchToAlgebraicParser; }
      else if n == 2 { assert k == SwitchToConciseReversibleParser; }
      else if n == 3 { assert k == SwitchToCoordinateParser; }
      else if n == 4 { assert k == SwitchToDescriptiveParser; }
      else if n == 5 { assert k == SwitchToICCFParser; }
      else if n == 6 { assert k == SwitchToLongAlgebraicParser; }
      else if n == 7 { assert k == SwitchToReversibleAlgebraicParser; }
      else { assert k == SwitchToSmithParser; }
    }
    ContextLookup(SwitchParserKinds(), example, [('0' as int + n) as char], k);
  }
}
