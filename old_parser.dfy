// The oldest `Parser` trait, src/modules/parser.rs: its input clean-up, its
// error and the `new` factory that picks a parser for a notation. The file
// and rank tables it provides are the same as the current trait's
// (ParserTrait.MatchFileToIndex, ParserTrait.MatchRankToIndex). The parsers
// the factory returns are stubs and are kept here as names only.

module OldParser {
  import opened Errors
  import opened Text
  import PT = ParserTrait

  const OLD_INVALID_INPUT := "Input move is either too small in length, too large in length, or contains whitespace"

  /** `invalid_input`: one fixed reason for every refusal. */
  function InvalidInputError(): (r: Result<()>)
    ensures r.Err? && r.error.InvalidInput? && r.error.reason == OLD_INVALID_INPUT
  {
    Err(InvalidInput(OLD_INVALID_INPUT))
  }

  /** `trim_and_check_whitespace`: trims, and refuses only inner whitespace
      (an empty move passes). */
  function TrimAndCheckWhitespace(s: string): (r: Result<string>)
  {
    var t := Trim(s);
    if HasWhitespace(t) then Err(InvalidInputError().error) else Ok(t)
  }

  /** Unlike the current trait, a blank input is accepted as the empty move. */
  lemma AcceptsBlank(s: string)
    requires PT.AllWhitespace(s)
    ensures TrimAndCheckWhitespace(s) == Ok([])
    ensures PT.TrimAndCheckWhitespace(s).Err?
  {
    assert s + [] == s;
    PT.TrimStartPadded(s, []);
    PT.RefusesBlank(s);
  }

  /** On every input that is not blank, the old and the current checks accept
      the same moves, clean them to the same token, and refuse the rest with
      `InvalidInput`. */
  lemma AgreesWithCurrentOffBlank(s: string)
    requires Trim(s) != []
    ensures TrimAndCheckWhitespace(s).Ok? <==> PT.TrimAndCheckWhitespace(s).Ok?
    ensures TrimAndCheckWhitespace(s).Ok? ==> TrimAndCheckWhitespace(s) == PT.TrimAndCheckWhitespace(s)
    ensures TrimAndCheckWhitespace(s).Err? ==>
      TrimAndCheckWhitespace(s).error == InvalidInput(OLD_INVALID_INPUT)
      && PT.TrimAndCheckWhitespace(s).error == InvalidInput(PT.WHITESPACE_MOVE)
  {
  }

  /** `ParserEngine`: the notations a parser can be asked for. */
  datatype ParserEngine =
    | Algebraic
    | ConciseReversible
    | Coordinate
    | Descriptive
    | ICCF
    | LongAlgebraic
    | ReversibleAlgebraic
    | Smith

  /** The parser structs the factory can return. */
  datatype Parser =
    | AlgebraicParser
    | ConciseReversibleParser
    | CoordinateParser
    | DescriptiveParser
    | ICCFParser
    | LongAlgebraicParser
    | ReversibleAlgebraicParser
    | SmithParser

  /** The notation a parser reads, as its module documents it. */
  function Notation(p: Parser): ParserEngine
  {
    match p
    case AlgebraicParser => Algebraic
    case ConciseReversibleParser => ConciseReversible
    case CoordinateParser => Coordinate
    case DescriptiveParser => Descriptive
    case ICCFParser => ICCF
    case LongAlgebraicParser => LongAlgebraic
    case ReversibleAlgebraicParser => ReversibleAlgebraic
    case SmithParser => Smith
  }

  /** `new`: the factory returns the parser for the requested notation. */
  function New(engine: ParserEngine): (p: Parser)
    ensures Notation(p) == engine
  {
    match engine
    case Algebraic => AlgebraicParser
    case ConciseReversible => ConciseReversibleParser
    case Coordinate => CoordinateParser
    case Descriptive => DescriptiveParser
    case ICCF => ICCFParser
    case LongAlgebraic => LongAlgebraicParser
    case ReversibleAlgebraic => ReversibleAlgebraicParser
    case Smith => SmithParser
  }

  /** Every parser is reachable through the factory, and from one notation
      only. */
  lemma NewIsBijective(p: Parser, a: ParserEngine, b: ParserEngine)
    ensures New(Notation(p)) == p
    ensures New(a) == New(b) ==> a == b
  {
  }
}
