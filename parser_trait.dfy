// The provided methods of the `Parser` trait in
// lib/chui_core/src/traits/parser.rs: input clean-up and the tables between
// file/rank characters and 0-based indices that every notation parser uses.
// The notation parsers themselves (`parse`, `name`, `eg`,
// `generate_move_from_board_coordinates`) are not part of this model.

module ParserTrait {
  import opened Errors
  import opened Text
  import opened Coordinate

  const EMPTY_MOVE := "Input move cannot be empty"
  const WHITESPACE_MOVE := "Input move contains whitespace"

  /** `invalid_input`: the error every parser reports for bad input. */
  function InvalidInputError(reason: string): (r: Result<()>)
    ensures r.Err? && r.error.InvalidInput? && r.error.reason == reason
  {
    Err(InvalidInput(reason))
  }

  /** `trim_and_check_whitespace`: trims the move, then refuses an empty
      move and a move with whitespace left inside it. */
  function TrimAndCheckWhitespace(s: string): (r: Result<string>)
  {
    var t := Trim(s);
    if t == [] then Err(InvalidInputError(EMPTY_MOVE).error)
    else if HasWhitespace(t) then Err(InvalidInputError(WHITESPACE_MOVE).error)
    else Ok(t)
  }

  /** A string made of whitespace only. */
  predicate AllWhitespace(w: string)
  {
    forall i :: 0 <= i < |w| ==> IsWhitespace(w[i])
  }

  /** A well-formed move token: not empty, no whitespace anywhere. */
  predicate IsToken(t: string)
  {
    t != [] && !HasWhitespace(t)
  }

  lemma {:induction false} TrimStartPadded(w: string, t: string)
    requires AllWhitespace(w)
    requires t == [] || !IsWhitespace(t[0])
    ensures TrimStart(w + t) == t
  {
    if w != [] {
      assert (w + t)[1..] == w[1..] + t;
      TrimStartPadded(w[1..], t);
    } else {
      assert w + t == t;
    }
  }

  lemma {:induction false} TrimEndPadded(t: string, w: string)
    requires AllWhitespace(w)
    requires t == [] || !IsWhitespace(t[|t| - 1])
    ensures TrimEnd(t + w) == t
  {
    if w != [] {
      assert (t + w)[..|t + w| - 1] == t + w[..|w| - 1];
      TrimEndPadded(t, w[..|w| - 1]);
    } else {
      assert t + w == t;
    }
  }

  /** Trimming a token padded with whitespace on both sides gives the token. */
  lemma TrimPadded(w1: string, t: string, w2: string)
    requires AllWhitespace(w1) && AllWhitespace(w2) && IsToken(t)
    ensures Trim(w1 + t + w2) == t
  {
    assert !IsWhitespace(t[0]) && !IsWhitespace(t[|t| - 1]);
    assert w1 + t + w2 == w1 + (t + w2);
    TrimStartPadded(w1, t + w2);
    TrimEndPadded(t, w2);
  }

  /** Every token, whatever whitespace surrounds it, is accepted as itself. */
  lemma AcceptsPaddedToken(w1: string, t: string, w2: string)
    requires AllWhitespace(w1) && AllWhitespace(w2) && IsToken(t)
    ensures TrimAndCheckWhitespace(w1 + t + w2) == Ok(t)
  {
    TrimPadded(w1, t, w2);
  }

  /** `Trim` cuts the input into leading whitespace, the trimmed text and
      trailing whitespace. */
  lemma TrimSplit(s: string)
    ensures LeadingWhitespace(s) + |Trim(s)| <= |s|
    ensures s[LeadingWhitespace(s)..LeadingWhitespace(s) + |Trim(s)|] == Trim(s)
    ensures forall x :: 0 <= x < LeadingWhitespace(s) ==> IsWhitespace(s[x])
    ensures forall x :: LeadingWhitespace(s) + |Trim(s)| <= x < |s| ==> IsWhitespace(s[x])
  {
    var u := TrimStart(s);
    assert Trim(s) == TrimEnd(u);
    WhitespaceAfter(s, LeadingWhitespace(s), u, Trim(s));
  }

  /** Whitespace after `t` in the suffix `u` of `s` is whitespace in `s`. */
  lemma WhitespaceAfter(s: string, k: nat, u: string, t: string)
    requires k <= |s| && u == s[k..] && |t| <= |u|
    requires forall i :: |t| <= i < |u| ==> IsWhitespace(u[i])
    ensures forall x :: k + |t| <= x < |s| ==> IsWhitespace(s[x])
  {
    forall x | k + |t| <= x < |s| ensures IsWhitespace(s[x]) {
      assert s[x] == u[x - k];
    }
  }

  /** An input that is all whitespace is refused as empty. */
  lemma RefusesBlank(s: string)
    requires AllWhitespace(s)
    ensures TrimAndCheckWhitespace(s) == Err(InvalidInput(EMPTY_MOVE))
  {
    assert s + [] == s;
    TrimStartPadded(s, []);
  }

  /** An accepted move is a token, and the input is that token with
      whitespace around it. */
  lemma AcceptedIsPaddedToken(s: string)
    requires TrimAndCheckWhitespace(s).Ok?
    ensures IsToken(TrimAndCheckWhitespace(s).value)
    ensures exists w1, w2 ::
      AllWhitespace(w1) && AllWhitespace(w2) && s == w1 + TrimAndCheckWhitespace(s).value + w2
  {
    TrimSplit(s);
    var k := LeadingWhitespace(s);
    var t := Trim(s);
    assert s == s[..k] + t + s[k + |t|..];
    assert AllWhitespace(s[..k]) && AllWhitespace(s[k + |t|..]);
  }

  /** Whitespace between two other characters makes the move invalid. */
  lemma RefusesInnerWhitespace(s: string, i: nat, j: nat, m: nat)
    requires i < j < m < |s|
    requires !IsWhitespace(s[i]) && IsWhitespace(s[j]) && !IsWhitespace(s[m])
    ensures TrimAndCheckWhitespace(s) == Err(InvalidInput(WHITESPACE_MOVE))
  {
    InnerWhitespaceSurvivesTrim(s, i, j, m);
  }

  lemma InnerWhitespaceSurvivesTrim(s: string, i: nat, j: nat, m: nat)
    requires i < j < m < |s|
    requires !IsWhitespace(s[i]) && IsWhitespace(s[j]) && !IsWhitespace(s[m])
    ensures Trim(s) != [] && HasWhitespace(Trim(s))
  {
    TrimSplit(s);
    var k := LeadingWhitespace(s);
    var t := Trim(s);
    assert k <= i && m < k + |t|;
    assert t[j - k] == s[j];
  }

  /** Accepting is idempotent: a cleaned move is accepted as it is. */
  lemma TrimAndCheckWhitespaceIdempotent(s: string)
    requires TrimAndCheckWhitespace(s).Ok?
    ensures TrimAndCheckWhitespace(TrimAndCheckWhitespace(s).value) == TrimAndCheckWhitespace(s)
  {
    var t := TrimAndCheckWhitespace(s).value;
    assert [] + t + [] == t;
    AcceptsPaddedToken([], t, []);
  }

  /** `match_file_to_index`: 'a'..'h' to 0..7. */
  function MatchFileToIndex(file: char): (r: Option<u8>)
    ensures r.Some? <==> 'a' <= file <= 'h'
    ensures r.Some? ==> r.value == file as int - 'a' as int
  {
    match file
    case 'a' => Some(0)
    case 'b' => Some(1)
    case 'c' => Some(2)
    case 'd' => Some(3)
    case 'e' => Some(4)
    case 'f' => Some(5)
    case 'g' => Some(6)
    case 'h' => Some(7)
    case _ => None
  }

  /** `match_rank_to_index`: '1'..'8' to 0..7. */
  function MatchRankToIndex(rank: char): (r: Option<u8>)
    ensures r.Some? <==> '1' <= rank <= '8'
    ensures r.Some? ==> r.value == rank as int - '1' as int
  {
    match rank
    case '1' => Some(0)
    case '2' => Some(1)
    case '3' => Some(2)
    case '4' => Some(3)
    case '5' => Some(4)
    case '6' => Some(5)
    case '7' => Some(6)
    case '8' => Some(7)
    case _ => None
  }

  /** `match_index_to_file`: 0..7 to 'a'..'h', the file letter a
      coordinate prints with. */
  function MatchIndexToFile(index: u8): (r: Option<char>)
    ensures r.Some? <==> index < 8
    ensures r.Some? ==> r.value == FileChar(index)
  {
    match index
    case 0 => Some('a')
    case 1 => Some('b')
    case 2 => Some('c')
    case 3 => Some('d')
    case 4 => Some('e')
    case 5 => Some('f')
    case 6 => Some('g')
    case 7 => Some('h')
    case _ => None
  }

  /** `match_index_to_rank`: 0..7 to '1'..'8'. */
  function MatchIndexToRank(index: u8): (r: Option<char>)
    ensures r.Some? <==> index < 8
    ensures r.Some? ==> '1' <= r.value <= '8' && r.value as int - '1' as int == index
  {
    match index
    case 0 => Some('1')
    case 1 => Some('2')
    case 2 => Some('3')
    case 3 => Some('4')
    case 4 => Some('5')
    case 5 => Some('6')
    case 6 => Some('7')
    case 7 => Some('8')
    case _ => None
  }

  /** The file tables are inverse to each other, in both directions. */
  lemma FileIndexRoundTrip(file: char, index: u8)
    ensures MatchFileToIndex(file).Some? ==> MatchIndexToFile(MatchFileToIndex(file).value) == Some(file)
    ensures MatchIndexToFile(index).Some? ==> MatchFileToIndex(MatchIndexToFile(index).value) == Some(index)
  {
  }

  /** The rank tables are inverse to each other, in both directions. */
  lemma RankIndexRoundTrip(rank: char, index: u8)
    ensures MatchRankToIndex(rank).Some? ==> MatchIndexToRank(MatchRankToIndex(rank).value) == Some(rank)
    ensures MatchIndexToRank(index).Some? ==> MatchRankToIndex(MatchIndexToRank(index).value) == Some(index)
  {
  }

  /** The two characters of a square's name map back to its coordinates. */
  lemma SquareNameIndices(c: Coord)
    ensures MatchFileToIndex(ToString(c)[0]) == Some(c.file)
    ensures MatchRankToIndex(ToString(c)[1]) == Some(c.rank)
  {
    ToStringShape(c);
  }
}
