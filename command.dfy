// `Command` of lib/chui_core/src/command.rs: for each context, a list of
// command parts, each a list of aliases with a description and the kind of
// command they stand for. `process_command` returns the kind of the first
// part that has an alias equal to the input.
//
// The part list and the first-match lookup are shared with the older
// src/modules/command.rs (old_command.dfy), whose kinds differ.

module Command {
  import opened Errors

  datatype CommandKind =
    | Move
    | SwitchParser
    | DisplayToMove
    | DisplayForWhite
    | DisplayForBlack
    | Help
    | Back
    | Quit
    | SwitchToAlgebraicParser
    | SwitchToConciseReversibleParser
    | SwitchToCoordinateParser
    | SwitchToDescriptiveParser
    | SwitchToICCFParser
    | SwitchToLongAlgebraicParser
    | SwitchToReversibleAlgebraicParser
    | SwitchToSmithParser
    | DisplayFEN
    | DisplayMoveList
    | DisplayCaptures
    | WhiteResigns
    | BlackResigns
    | DisplayForWhiteEachMove
    | DisplayForBlackEachMove

  datatype CommandContext = MainContext | SwitchParserContext

  /** `CommandPart`: the aliases that select a command of kind `kind`. */
  datatype CommandPart<K> = CommandPart(commands: seq<string>, description: string, kind: K)

  /** The kind of the first part having `command` among its aliases. */
  function Lookup<K>(parts: seq<CommandPart<K>>, command: string): Option<K>
  {
    if parts == [] then None
    else if command in parts[0].commands then Some(parts[0].kind)
    else Lookup(parts[1..], command)
  }

  /** Every alias of the list. */
  function Aliases<K>(parts: seq<CommandPart<K>>): set<string>
  {
    if parts == [] then {} else (set a | a in parts[0].commands) + Aliases(parts[1..])
  }

  /** No alias belongs to two parts. */
  predicate AliasesDistinct<K>(parts: seq<CommandPart<K>>)
  {
    forall i, j, a :: 0 <= i < j < |parts| && a in parts[i].commands ==> a !in parts[j].commands
  }

  /** `Lookup` finds the first part that has the alias, and finds nothing
      exactly when no part has it. */
  lemma {:induction false} LookupFirst<K>(parts: seq<CommandPart<K>>, command: string)
    ensures Lookup(parts, command).None? <==> command !in Aliases(parts)
    ensures Lookup(parts, command).Some? ==>
      exists i :: 0 <= i < |parts| && command in parts[i].commands && parts[i].kind == Lookup(parts, command).value
        && forall j :: 0 <= j < i ==> command !in parts[j].commands
  {
    if parts != [] {
      LookupFirst(parts[1..], command);
      if command !in parts[0].commands && Lookup(parts, command).Some? {
        var i :| 0 <= i < |parts[1..]| && command in parts[1..][i].commands
          && parts[1..][i].kind == Lookup(parts, command).value
          && forall j :: 0 <= j < i ==> command !in parts[1..][j].commands;
        assert forall j :: 0 <= j < i + 1 ==> command !in parts[j].commands by {
          forall j | 0 <= j < i + 1
            ensures command !in parts[j].commands
          {
            if j > 0 {
              assert parts[j] == parts[1..][j - 1];
            }
          }
        }
        assert parts[i + 1] == parts[1..][i];
      }
    }
  }

  /** `Aliases` holds exactly the aliases of the parts. */
  lemma {:induction false} AliasesOf<K>(parts: seq<CommandPart<K>>, a: string)
    ensures a in Aliases(parts) <==> exists i :: 0 <= i < |parts| && a in parts[i].commands
  {
    if parts != [] {
      AliasesOf(parts[1..], a);
      if a in Aliases(parts[1..]) {
        var i :| 0 <= i < |parts[1..]| && a in parts[1..][i].commands;
        assert parts[i + 1] == parts[1..][i];
      }
      if exists i :: 0 <= i < |parts| && a in parts[i].commands {
        var i :| 0 <= i < |parts| && a in parts[i].commands;
        if i > 0 {
          assert parts[1..][i - 1] == parts[i];
        }
      }
    }
  }

  /** When an `owner` map gives every alias of every part that part's
      kind, an alias selects exactly the kinds of the parts having it: the
      order of the parts does not matter. */
  lemma OwnedLookup<K>(parts: seq<CommandPart<K>>, owner: string -> Option<K>, command: string, kind: K)
    requires forall i, a | 0 <= i < |parts| && a in parts[i].commands :: owner(a) == Some(parts[i].kind)
    ensures Lookup(parts, command) == Some(kind) <==>
            exists i :: 0 <= i < |parts| && command in parts[i].commands && parts[i].kind == kind
  {
    LookupFirst(parts, command);
    if i :| 0 <= i < |parts| && command in parts[i].commands && parts[i].kind == kind {
      AliasesOf(parts, command);
      var first :| 0 <= first < |parts| && command in parts[first].commands
        && parts[first].kind == Lookup(parts, command).value;
      assert owner(command) == Some(parts[first].kind) == Some(parts[i].kind);
    }
  }

  /** With an owner map, no alias belongs to two parts of different kinds. */
  lemma OwnedDistinct<K>(parts: seq<CommandPart<K>>, owner: string -> Option<K>)
    requires forall i, a | 0 <= i < |parts| && a in parts[i].commands :: owner(a) == Some(parts[i].kind)
    requires forall i, j | 0 <= i < j < |parts| :: parts[i].kind != parts[j].kind
    ensures AliasesDistinct(parts)
  {
    forall i, j, a | 0 <= i < j < |parts| && a in parts[i].commands
      ensures a !in parts[j].commands
    {
      assert owner(a) == Some(parts[i].kind);
    }
  }

  /** The nested loops of `process_command` over one context's parts. */
  method FindCommand<K>(parts: seq<CommandPart<K>>, command: string) returns (r: Option<K>)
    ensures r == Lookup(parts, command)
  {
    for i := 0 to |parts|
      invariant Lookup(parts, command) == Lookup(parts[i..], command)
    {
      assert parts[i..][1..] == parts[i + 1..];
      var cmds := parts[i].commands;
      for j := 0 to |cmds|
        invariant command !in cmds[..j]
      {
        if cmds[j] == command {
          return Some(parts[i].kind);
        }
      }
      assert cmds[..|cmds|] == cmds;
    }
    return None;
  }

  // ----- the command tables -----

  /** The aliases of the part of each kind; a kind's part is the same in
      every context that has it. */
  function KindAliases(k: CommandKind): seq<string>
  {
    match k
    case Move => ["MOVE"]
    case WhiteResigns => ["wr", "white resigns"]
    case BlackResigns => ["br", "black resigns"]
    case SwitchParser => ["sw", "switch parser"]
    case DisplayToMove => ["d", "dtm", "display to move"]
    case DisplayForWhite => ["dw", "display white"]
    case DisplayForBlack => ["db", "display black"]
    case DisplayForWhiteEachMove => ["dfw", "display for white"]
    case DisplayForBlackEachMove => ["dfb", "display for black"]
    case DisplayMoveList => ["ml", "move list"]
    case DisplayCaptures => ["c", "captures"]
    case DisplayFEN => ["fen"]
    case Help => ["h", "dh", "help", "display help"]
    case Quit => ["q", "quit"]
    case SwitchToAlgebraicParser => ["1", "algebraic"]
    case SwitchToConciseReversibleParser => ["2", "concise reversible"]
    case SwitchToCoordinateParser => ["3", "Coordinate"]
    case SwitchToDescriptiveParser => ["4", "descriptive"]
    case SwitchToICCFParser => ["5", "iccf"]
    case SwitchToLongAlgebraicParser => ["6", "long algebraic"]
    case SwitchToReversibleAlgebraicParser => ["7", "reversible algebraic"]
    case SwitchToSmithParser => ["8", "smith"]
    case Back => ["b", "gb", "back", "go back"]
  }

  /** The description of the part of each kind; `example` is the current
      parser's example move. */
  function Description(k: CommandKind, example: string): string
  {
    match k
    case Move => "E.g., " + example
    case WhiteResigns => "White resigns"
    case BlackResigns => "Black resigns"
    case SwitchParser => "Switch the current parser engine"
    case DisplayToMove => "Display board for the color that is to move"
    case DisplayForWhite => "Display board for White"
    case DisplayForBlack => "Display board for Black"
    case DisplayForWhiteEachMove => "Display board for White after each move"
    case DisplayForBlackEachMove => "Display board for Black after each move"
    case DisplayMoveList => "Display the move list notation"
    case DisplayCaptures => "Display captures for both players."
    case DisplayFEN => "Display the FEN layout of the board"
    case Help => "Display this help message"
    case Quit => "Quit the application"
    case SwitchToAlgebraicParser => "Algebraic Parser (Not Implemented)"
    case SwitchToConciseReversibleParser => "Concise Reversible Parser (Not Implemented)"
    case SwitchToCoordinateParser => "Coordinate Parser (Not Implemented)"
    case SwitchToDescriptiveParser => "Descriptive Parser (Not Implemented)"
    case SwitchToICCFParser => "ICCF Parser"
    case SwitchToLongAlgebraicParser => "Long Algebraic Parser (Not Implemented)"
    case SwitchToReversibleAlgebraicParser => "Reversible Algebraic Parser (Not Implemented)"
    case SwitchToSmithParser => "Smith Parser (Not Implemented)"
    case Back => "Go back"
  }

  function Part(k: CommandKind, example: string): CommandPart<CommandKind>
  {
    CommandPart(KindAliases(k), Description(k, example), k)
  }

  /** The parts of the given kinds, in order. */
  function Parts(kinds: seq<CommandKind>, example: string): (parts: seq<CommandPart<CommandKind>>)
    ensures |parts| == |kinds|
    ensures forall i | 0 <= i < |kinds| :: parts[i] == Part(kinds[i], example)
  {
    seq(|kinds|, i requires 0 <= i < |kinds| => Part(kinds[i], example))
  }

  /** The kinds of the `Main` context, in the order of `build_commands`. */
  function MainKinds(): seq<CommandKind>
  {
    [Move, WhiteResigns, BlackResigns, SwitchParser, DisplayToMove, DisplayForWhite, DisplayForBlack,
     DisplayForWhiteEachMove, DisplayForBlackEachMove, DisplayMoveList, DisplayCaptures, DisplayFEN, Help, Quit]
  }

  /** The kinds of the `SwitchParser` context, in order. */
  function SwitchParserKinds(): seq<CommandKind>
  {
    [SwitchToAlgebraicParser, SwitchToConciseReversibleParser, SwitchToCoordinateParser,
     SwitchToDescriptiveParser, SwitchToICCFParser, SwitchToLongAlgebraicParser,
     SwitchToReversibleAlgebraicParser, SwitchToSmithParser, Help, Back]
  }

  /** `build_commands`: both contexts and nothing else. */
  function BuildCommands(example: string): (m: map<CommandContext, seq<CommandPart<CommandKind>>>)
    ensures m.Keys == {MainContext, SwitchParserContext}
  {
    map[MainContext := Parts(MainKinds(), example), SwitchParserContext := Parts(SwitchParserKinds(), example)]
  }

  /** The `Command` object: the tables, rebuilt in place when the game's
      parser changes. */
  class Command {
    var commands: map<CommandContext, seq<CommandPart<CommandKind>>>

    /** `Command::new`. */
    constructor (example: string)
      ensures commands == BuildCommands(example)
    {
      commands := BuildCommands(example);
    }

    /** `process_command`: the first part of the context that has the
        alias, or nothing for a context without parts. */
    method ProcessCommand(context: CommandContext, command: string) returns (r: Option<CommandKind>)
      ensures context !in commands ==> r.None?
      ensures context in commands ==> r == Lookup(commands[context], command)
    {
      if context in commands {
        r := FindCommand(commands[context], command);
      } else {
        r := None;
      }
    }

    /** `rebuild_commands`: the whole table is replaced. */
    method RebuildCommands(example: string)
      modifies this
      ensures commands == BuildCommands(example)
    {
      commands := BuildCommands(example);
    }
  }

  // ----- properties of the tables -----

  /** The kind each alias stands for, whatever the context: an independent
      statement of the tables, grouped by the alias's length. */
  function KindOf(a: string): Option<CommandKind>
  {
    if |a| == 1 then
      if a == "d" then Some(DisplayToMove)
      else if a == "c" then Some(DisplayCaptures)
      else if a == "h" then Some(Help)
      else if a == "q" then Some(Quit)
      else if a == "1" then Some(SwitchToAlgebraicParser)
      else if a == "2" then Some(SwitchToConciseReversibleParser)
      else if a == "3" then Some(SwitchToCoordinateParser)
      else if a == "4" then Some(SwitchToDescriptiveParser)
      else if a == "5" then Some(SwitchToICCFParser)
      else if a == "6" then Some(SwitchToLongAlgebraicParser)
      else if a == "7" then Some(SwitchToReversibleAlgebraicParser)
      else if a == "8" then Some(SwitchToSmithParser)
      else if a == "b" then Some(Back)
      else None
    else if |a| == 2 then
      if a == "wr" then Some(WhiteResigns)
      else if a == "br" then Some(BlackResigns)
      else if a == "sw" then Some(SwitchParser)
      else if a == "dw" then Some(DisplayForWhite)
      else if a == "db" then Some(DisplayForBlack)
      else if a == "ml" then Some(DisplayMoveList)
      else if a == "dh" then Some(Help)
      else if a == "gb" then Some(Back)
      else None
    else if |a| == 3 then
      if a == "dtm" then Some(DisplayToMove)
      else if a == "dfw" then Some(DisplayForWhiteEachMove)
      else if a == "dfb" then Some(DisplayForBlackEachMove)
      else if a == "fen" then Some(DisplayFEN)
      else None
    else if |a| == 4 then
      if a == "MOVE" then Some(Move)
      else if a == "help" then Some(Help)
      else if a == "quit" then Some(Quit)
      else if a == "iccf" then Some(SwitchToICCFParser)
      else if a == "back" then Some(Back)
      else None
    else if |a| == 5 then
      if a == "smith" then Some(SwitchToSmithParser)
      else None
    else if |a| == 7 then
      if a == "go back" then Some(Back)
      else None
    else if |a| == 8 then
      if a == "captures" then Some(DisplayCaptures)
      else None
    else if |a| == 9 then
      if a == "move list" then Some(DisplayMoveList)
      else if a == "algebraic" then Some(SwitchToAlgebraicParser)
      else None
    else if |a| == 10 then
      if a == "Coordinate" then Some(SwitchToCoordinateParser)
      else None
    else if |a| == 11 then
      if a == "descriptive" then Some(SwitchToDescriptiveParser)
      else None
    else if |a| == 12 then
      if a == "display help" then Some(Help)
      else None
    else if |a| == 13 then
      if a == "white resigns" then Some(WhiteResigns)
      else if a == "black resigns" then Some(BlackResigns)
      else if a == "switch parser" then Some(SwitchParser)
      else if a == "display white" then Some(DisplayForWhite)
      else if a == "display black" then Some(DisplayForBlack)
      else None
    else if |a| == 14 then
      if a == "long algebraic" then Some(SwitchToLongAlgebraicParser)
      else None
    else if |a| == 15 then
      if a == "display to move" then Some(DisplayToMove)
      else None
    else if |a| == 17 then
      if a == "display for white" then Some(DisplayForWhiteEachMove)
      else if a == "display for black" then Some(DisplayForBlackEachMove)
      else None
    else if |a| == 18 then
      if a == "concise reversible" then Some(SwitchToConciseReversibleParser)
      else None
    else if |a| == 20 then
      if a == "reversible algebraic" then Some(SwitchToReversibleAlgebraicParser)
      else None
    else None
  }

  /** Every alias of a kind's part stands for that kind, so no two kinds
      share an alias. */
  lemma AliasOwner(k: CommandKind, a: string)
    requires a in KindAliases(k)
    ensures KindOf(a) == Some(k)
  {
    match k
    case Move => OwnsMove(a);
    case WhiteResigns => OwnsWhiteResigns(a);
    case BlackResigns => OwnsBlackResigns(a);
    case SwitchParser => OwnsSwitchParser(a);
    case DisplayToMove => OwnsDisplayToMove(a);
    case DisplayForWhite => OwnsDisplayForWhite(a);
    case DisplayForBlack => OwnsDisplayForBlack(a);
    case DisplayForWhiteEachMove => OwnsDisplayForWhiteEachMove(a);
    case DisplayForBlackEachMove => OwnsDisplayForBlackEachMove(a);
    case DisplayMoveList => OwnsDisplayMoveList(a);
    case DisplayCaptures => OwnsDisplayCaptures(a);
    case DisplayFEN => OwnsDisplayFEN(a);
    case Help => OwnsHelp(a);
    case Quit => OwnsQuit(a);
    case SwitchToAlgebraicParser => OwnsSwitchToAlgebraicParser(a);
    case SwitchToConciseReversibleParser => OwnsSwitchToConciseReversibleParser(a);
    case SwitchToCoordinateParser => OwnsSwitchToCoordinateParser(a);
    case SwitchToDescriptiveParser => OwnsSwitchToDescriptiveParser(a);
    case SwitchToICCFParser => OwnsSwitchToICCFParser(a);
    case SwitchToLongAlgebraicParser => OwnsSwitchToLongAlgebraicParser(a);
    case SwitchToReversibleAlgebraicParser => OwnsSwitchToReversibleAlgebraicParser(a);
    case SwitchToSmithParser => OwnsSwitchToSmithParser(a);
    case Back => OwnsBack(a);
  }

  lemma OwnsMove(a: string)
    requires a in KindAliases(Move)
    ensures KindOf(a) == Some(Move)
  {
  }

  lemma OwnsWhiteResigns(a: string)
    requires a in KindAliases(WhiteResigns)
    ensures KindOf(a) == Some(WhiteResigns)
  {
  }

  lemma OwnsBlackResigns(a: string)
    requires a in KindAliases(BlackResigns)
    ensures KindOf(a) == Some(BlackResigns)
  {
  }

  lemma OwnsSwitchParser(a: string)
    requires a in KindAliases(SwitchParser)
    ensures KindOf(a) == Some(SwitchParser)
  {
  }

  lemma OwnsDisplayToMove(a: string)
    requires a in KindAliases(DisplayToMove)
    ensures KindOf(a) == Some(DisplayToMove)
  {
  }

  lemma OwnsDisplayForWhite(a: string)
    requires a in KindAliases(DisplayForWhite)
    ensures KindOf(a) == Some(DisplayForWhite)
  {
  }

  lemma OwnsDisplayForBlack(a: string)
    requires a in KindAliases(DisplayForBlack)
    ensures KindOf(a) == Some(DisplayForBlack)
  {
  }

  lemma OwnsDisplayForWhiteEachMove(a: string)
    requires a in KindAliases(DisplayForWhiteEachMove)
    ensures KindOf(a) == Some(DisplayForWhiteEachMove)
  {
  }

  lemma OwnsDisplayForBlackEachMove(a: string)
    requires a in KindAliases(DisplayForBlackEachMove)
    ensures KindOf(a) == Some(DisplayForBlackEachMove)
  {
  }

  lemma OwnsDisplayMoveList(a: string)
    requires a in KindAliases(DisplayMoveList)
    ensures KindOf(a) == Some(DisplayMoveList)
  {
  }

  lemma OwnsDisplayCaptures(a: string)
    requires a in KindAliases(DisplayCaptures)
    ensures KindOf(a) == Some(DisplayCaptures)
  {
  }

  lemma OwnsDisplayFEN(a: string)
    requires a in KindAliases(DisplayFEN)
    ensures KindOf(a) == Some(DisplayFEN)
  {
  }

  lemma OwnsHelp(a: string)
    requires a in KindAliases(Help)
    ensures KindOf(a) == Some(Help)
  {
  }

  lemma OwnsQuit(a: string)
    requires a in KindAliases(Quit)
    ensures KindOf(a) == Some(Quit)
  {
  }

  lemma OwnsSwitchToAlgebraicParser(a: string)
    requires a in KindAliases(SwitchToAlgebraicParser)
    ensures KindOf(a) == Some(SwitchToAlgebraicParser)
  {
  }

  lemma OwnsSwitchToConciseReversibleParser(a: string)
    requires a in KindAliases(SwitchToConciseReversibleParser)
    ensures KindOf(a) == Some(SwitchToConciseReversibleParser)
  {
  }

  lemma OwnsSwitchToCoordinateParser(a: string)
    requires a in KindAliases(SwitchToCoordinateParser)
    ensures KindOf(a) == Some(SwitchToCoordinateParser)
  {
  }

  lemma OwnsSwitchToDescriptiveParser(a: string)
    requires a in KindAliases(SwitchToDescriptiveParser)
    ensures KindOf(a) == Some(SwitchToDescriptiveParser)
  {
  }

  lemma OwnsSwitchToICCFParser(a: string)
    requires a in KindAliases(SwitchToICCFParser)
    ensures KindOf(a) == Some(SwitchToICCFParser)
  {
  }

  lemma OwnsSwitchToLongAlgebraicParser(a: string)
    requires a in KindAliases(SwitchToLongAlgebraicParser)
    ensures KindOf(a) == Some(SwitchToLongAlgebraicParser)
  {
  }

  lemma OwnsSwitchToReversibleAlgebraicParser(a: string)
    requires a in KindAliases(SwitchToReversibleAlgebraicParser)
    ensures KindOf(a) == Some(SwitchToReversibleAlgebraicParser)
  {
  }

  lemma OwnsSwitchToSmithParser(a: string)
    requires a in KindAliases(SwitchToSmithParser)
    ensures KindOf(a) == Some(SwitchToSmithParser)
  {
  }

  lemma OwnsBack(a: string)
    requires a in KindAliases(Back)
    ensures KindOf(a) == Some(Back)
  {
  }

  lemma PartsOwned(kinds: seq<CommandKind>, example: string)
    ensures forall i, a | 0 <= i < |Parts(kinds, example)| && a in Parts(kinds, example)[i].commands ::
              KindOf(a) == Some(Parts(kinds, example)[i].kind)
  {
    forall i, a | 0 <= i < |Parts(kinds, example)| && a in Parts(kinds, example)[i].commands
      ensures KindOf(a) == Some(Parts(kinds, example)[i].kind)
    {
      AliasOwner(kinds[i], a);
    }
  }

  /** In a context built from `kinds`, an alias selects kind `k` exactly
      when it is one of `k`'s aliases and `k` is in the context. */
  lemma ContextLookup(kinds: seq<CommandKind>, example: string, a: string, k: CommandKind)
    ensures Lookup(Parts(kinds, example), a) == Some(k) <==> a in KindAliases(k) && k in kinds
  {
    PartsOwned(kinds, example);
    OwnedLookup(Parts(kinds, example), KindOf, a, k);
  }

  /** A context finds nothing exactly when none of its kinds has the alias. */
  lemma ContextMiss(kinds: seq<CommandKind>, example: string, a: string)
    ensures Lookup(Parts(kinds, example), a).None? <==> forall k | k in kinds :: a !in KindAliases(k)
  {
    LookupFirst(Parts(kinds, example), a);
    AliasesOf(Parts(kinds, example), a);
    if Lookup(Parts(kinds, example), a).Some? {
      ContextLookup(kinds, example, a, Lookup(Parts(kinds, example), a).value);
    }
  }

  /** Within each context no alias belongs to two parts. */
  lemma ContextsDistinct(example: string)
    ensures AliasesDistinct(Parts(MainKinds(), example))
    ensures AliasesDistinct(Parts(SwitchParserKinds(), example))
  {
    PartsOwned(MainKinds(), example);
    PartsOwned(SwitchParserKinds(), example);
    OwnedDistinct(Parts(MainKinds(), example), KindOf);
    OwnedDistinct(Parts(SwitchParserKinds(), example), KindOf);
  }

  /** The quit, help and move aliases of `Main`. */
  lemma MainShortcuts(example: string, a: string)
    ensures a in ["q", "quit"] ==> Lookup(Parts(MainKinds(), example), a) == Some(Quit)
    ensures a in ["h", "dh", "help", "display help"] ==> Lookup(Parts(MainKinds(), example), a) == Some(Help)
    ensures a == "MOVE" ==> Lookup(Parts(MainKinds(), example), a) == Some(Move)
  {
    ContextLookup(MainKinds(), example, a, Quit);
    ContextLookup(MainKinds(), example, a, Help);
    ContextLookup(MainKinds(), example, a, Move);
  }

  /** Text that is no alias of any kind selects nothing in any context. */
  lemma NotAnAlias(kinds: seq<CommandKind>, example: string, a: string)
    requires KindOf(a).None?
    ensures Lookup(Parts(kinds, example), a).None?
  {
    ContextMiss(kinds, example, a);
    forall k | k in kinds
      ensures a !in KindAliases(k)
    {
      if a in KindAliases(k) {
        AliasOwner(k, a);
      }
    }
  }

  /** The matching is exact: other spellings select nothing. */
  lemma MainCaseSensitive(example: string, a: string)
    requires a in ["move", "Q", "QUIT", "Help"]
    ensures KindOf(a).None?
    ensures Lookup(Parts(MainKinds(), example), a).None?
  {
    NotAnAlias(MainKinds(), example, a);
  }

  /** The digit n of `SwitchParser` picks its n-th parser. */
  lemma SwitchParserDigit(example: string, n: nat)
    requires 1 <= n <= 8
    ensures Lookup(Parts(SwitchParserKinds(), example), [('0' as int + n) as char]) == Some(SwitchParserKinds()[n - 1])
  {
    var k := SwitchParserKinds()[n - 1];
    assert [('0' as int + n) as char] in KindAliases(k) by {
      if n == 1 { assert k == SwitchToAlgebraicParser; }
      else if n == 2 { assert k == SwitchToConciseReversibleParser; }
      else if n == 3 { assert k == SwitchToCoordinateParser; }
      else if n == 4 { assert k == SwitchToDescriptiveParser; }
      else if n == 5 { assert k == SwitchToICCFParser; }
      else if n == 6 { assert k == SwitchToLongAlgebraicParser; }
      else if n == 7 { assert k == SwitchToReversibleAlgebraicParser; }
      else { assert k == SwitchToSmithParser; }
    }
    ContextLookup(SwitchParserKinds(), example, [('0' as int + n) as char], k);
  }

  /** The back aliases go back in `SwitchParser` and mean nothing in `Main`. */
  lemma BackOnlyInSwitchParser(example: string, a: string)
    requires a in KindAliases(Back)
    ensures Lookup(Parts(SwitchParserKinds(), example), a) == Some(Back)
    ensures Lookup(Parts(MainKinds(), example), a).None?
  {
    ContextLookup(SwitchParserKinds(), example, a, Back);
    ContextMiss(MainKinds(), example, a);
    AliasOwner(Back, a);
    forall k | k in MainKinds()
      ensures a !in KindAliases(k)
    {
      if a in KindAliases(k) {
        AliasOwner(k, a);
      }
    }
  }
}
