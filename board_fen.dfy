// `Fen::get_board_fen` of crates/chui_core/src/modules/fen.rs: the piece
// placement field of a FEN record (section 16.1.3 of the PGN Standard).
// Ranks are written from rank 8 down to rank 1, files from a to h; a run of
// empty squares becomes its length as a digit, a piece its letter, and the
// ranks are separated by '/'. The board is the engine's 8x8 grid indexed
// [rank][file], rank 0 being rank 1.

module BoardFen {
  import opened Errors
  import opened Text
  import P = Piece

  type Cell = Option<P.Piece>

  /** A full board: eight ranks of eight cells. */
  predicate IsBoard(board: seq<seq<Cell>>)
  {
    |board| == 8 && forall r :: 0 <= r < 8 ==> |board[r]| == 8
  }

  /** The letter a piece prints as in a FEN record (its `Display` without
      the terminal colouring). */
  function Letter(p: P.Piece): (c: char)
    ensures !IsDigit(c) && c != '/'
  {
    P.Repr(p).0
  }

  /** The count of a run of empty squares, or nothing for no run. */
  function Count(e: nat): (r: string)
    ensures e == 0 ==> r == []
  {
    if e > 0 then NatToString(e) else []
  }

  /** What the cell loop of one rank has written, and the empty squares it
      has not yet written, after the first `j` cells. */
  function RowState(row: seq<Cell>, j: nat): (string, nat)
    requires j <= |row|
  {
    if j == 0 then ([], 0)
    else
      var (s, e) := RowState(row, j - 1);
      if row[j - 1].Some? then (s + Count(e) + [Letter(row[j - 1].value)], 0)
      else (s, e + 1)
  }

  /** The field of one rank: what the cell loop wrote, then the pending
      count. */
  function RankFen(row: seq<Cell>): string
  {
    RowState(row, |row|).0 + Count(RowState(row, |row|).1)
  }

  /** The rank fields in the order they are written: rank 8 first. */
  function RankFens(board: seq<seq<Cell>>): (r: seq<string>)
    requires IsBoard(board)
    ensures |r| == 8
  {
    seq(8, k requires 0 <= k < 8 => RankFen(board[7 - k]))
  }

  /** The placement field: the rank fields joined by '/'. */
  function Placement(board: seq<seq<Cell>>): string
    requires IsBoard(board)
  {
    Join(RankFens(board), '/')
  }

  /** `get_board_fen`: the rank loop. Each pass writes one rank field and
      a '/'; the last '/' is dropped at the end. */
  method GetBoardFen(board: seq<seq<Cell>>) returns (fen: string)
    requires IsBoard(board)
    ensures fen == Placement(board)
  {
    fen := "";
    ghost var fens := RankFens(board);
    for k := 0 to 8
      invariant fen == Terminated(fens[..k], '/')
    {
      ghost var before := fen;
      fen := WriteRank(fen, board[7 - k]);
      assert fen == before + fens[k] + "/";
      RankTerminated(before, fens, k);
    }
    assert fens[..8] == fens;
    TerminatedIsJoin(fens, '/');
    fen := fen[..|fen| - 1];
  }

  /** The text after one more pass of the rank loop. */
  lemma RankTerminated(before: string, fens: seq<string>, k: nat)
    requires k < |fens| && before == Terminated(fens[..k], '/')
    ensures before + fens[k] + "/" == Terminated(fens[..k + 1], '/')
  {
    TerminatedSnoc(fens, k, '/');
  }

  /** One pass of the rank loop of `get_board_fen`: the cell loop, with its
      run counter `emptySquares`, then the pending count and a '/'. */
  method WriteRank(start: string, row: seq<Cell>) returns (fen: string)
    requires |row| == 8
    ensures fen == start + RankFen(row) + "/"
  {
    fen := start;
    var emptySquares: nat := 0;
    for j := 0 to 8
      invariant fen == start + RowState(row, j).0
      invariant emptySquares == RowState(row, j).1
    {
      var piece := row[j];
      ghost var written := RowState(row, j).0;
      if piece.Some? {
        if emptySquares > 0 {
          fen := fen + NatToString(emptySquares) + [Letter(piece.value)];
          Regroup(start, written, NatToString(emptySquares), [Letter(piece.value)]);
          emptySquares := 0;
        } else {
          fen := fen + [Letter(piece.value)];
          assert written + Count(0) == written;
          Regroup(start, written, [], [Letter(piece.value)]);
        }
      } else {
        emptySquares := emptySquares + 1;
      }
    }
    ghost var written := RowState(row, 8).0;
    if emptySquares > 0 {
      fen := fen + NatToString(emptySquares);
    }
    assert fen == start + (written + Count(emptySquares));
    fen := fen + "/";
  }

  lemma Regroup(a: string, b: string, c: string, d: string)
    ensures a + b + c + d == a + (b + c + d)
  {
  }

  // ----- reading a rank field back -----

  /** The cells a rank field describes: a digit stands for that many empty
      squares, any other character for a piece with that letter. */
  function Expand(s: string): seq<Option<char>>
  {
    if s == [] then []
    else
      var c := s[|s| - 1];
      Expand(s[..|s| - 1]) + (if IsDigit(c) then Nones(DigitValue(c)) else [Some(c)])
  }

  function Nones(n: nat): (r: seq<Option<char>>)
    ensures |r| == n && forall i :: 0 <= i < n ==> r[i].None?
  {
    if n == 0 then [] else Nones(n - 1) + [None]
  }

  /** The letters of a rank, cell by cell. */
  function Letters(row: seq<Cell>): (r: seq<Option<char>>)
    ensures |r| == |row|
  {
    seq(|row|, i requires 0 <= i < |row| => if row[i].Some? then Some(Letter(row[i].value)) else None)
  }

  lemma ExpandSnoc(s: string, c: char)
    ensures Expand(s + [c]) == Expand(s) + (if IsDigit(c) then Nones(DigitValue(c)) else [Some(c)])
  {
    assert (s + [c])[..|s|] == s;
  }

  lemma CountIsDigit(e: nat)
    requires 0 < e < 10
    ensures Count(e) == [DigitChar(e)] && DigitValue(DigitChar(e)) == e
  {
  }

  /** What the cell loop has written after `j` cells is empty or ends in a
      letter, no two of its digits are adjacent, and its pending count is
      at most `j`. */
  lemma {:induction false} RowStateShape(row: seq<Cell>, j: nat)
    requires j <= |row| <= 9
    ensures RowState(row, j).1 <= j
    ensures RowState(row, j).0 == [] || !IsDigit(RowState(row, j).0[|RowState(row, j).0| - 1])
    ensures NoAdjacentDigits(RowState(row, j).0)
  {
    if j > 0 {
      RowStateShape(row, j - 1);
      var (s, e) := RowState(row, j - 1);
      if row[j - 1].Some? {
        AppendDigitLetter(s, e, Letter(row[j - 1].value));
      }
    }
  }

  /** With its pending count, what the cell loop has written after `j`
      cells describes exactly those `j` cells. */
  lemma {:induction false} RowStateDescribes(row: seq<Cell>, j: nat)
    requires j <= |row| <= 9
    ensures Expand(RowState(row, j).0) + Nones(RowState(row, j).1) == Letters(row[..j])
  {
    if j > 0 {
      RowStateDescribes(row, j - 1);
      RowStateShape(row, j - 1);
      var (s, e) := RowState(row, j - 1);
      LettersSnoc(row, j);
      if row[j - 1].Some? {
        var l := Letter(row[j - 1].value);
        ExpandCount(s, e);
        ExpandSnoc(s + Count(e), l);
      } else {
        assert Nones(e + 1) == Nones(e) + [None];
      }
    }
  }

  lemma LettersSnoc(row: seq<Cell>, j: nat)
    requires 0 < j <= |row|
    ensures Letters(row[..j]) == Letters(row[..j - 1])
      + [if row[j - 1].Some? then Some(Letter(row[j - 1].value)) else None]
  {
  }

  /** A pending count reads back as that many empty squares. */
  lemma ExpandCount(s: string, e: nat)
    requires e < 10
    ensures Expand(s + Count(e)) == Expand(s) + Nones(e)
  {
    if e > 0 {
      CountIsDigit(e);
      ExpandSnoc(s, DigitChar(e));
    } else {
      assert s + [] == s;
    }
  }

  predicate NoAdjacentDigits(s: string)
  {
    forall i :: 0 <= i < |s| - 1 ==> !(IsDigit(s[i]) && IsDigit(s[i + 1]))
  }

  lemma AppendDigitLetter(s: string, e: nat, l: char)
    requires e < 10 && !IsDigit(l)
    requires s == [] || !IsDigit(s[|s| - 1])
    requires NoAdjacentDigits(s)
    ensures NoAdjacentDigits(s + Count(e) + [l])
  {
    if e > 0 {
      CountIsDigit(e);
    }
  }

  /** Reading a rank field back gives the rank: every empty square and
      every piece letter, in file order. So the field accounts for exactly
      the eight squares of the rank. */
  lemma RankFenRoundTrip(row: seq<Cell>)
    requires |row| == 8
    ensures Expand(RankFen(row)) == Letters(row)
    ensures |Expand(RankFen(row))| == 8
  {
    RowStateDescribes(row, |row|);
    RowStateShape(row, |row|);
    var (s, e) := RowState(row, |row|);
    assert row[..|row|] == row;
    ExpandCount(s, e);
  }

  /** Each run of empty squares is written as one count: no two digits of a
      rank field are adjacent, and no count is zero. */
  lemma RankFenCounts(row: seq<Cell>)
    requires |row| == 8
    ensures NoAdjacentDigits(RankFen(row))
    ensures '0' !in RankFen(row) && '/' !in RankFen(row)
  {
    RowStateShape(row, |row|);
    var (s, e) := RowState(row, |row|);
    if e > 0 {
      CountIsDigit(e);
    }
    RowStateNoZero(row, |row|);
  }

  lemma {:induction false} RowStateNoZero(row: seq<Cell>, j: nat)
    requires j <= |row| <= 9
    ensures '0' !in RowState(row, j).0 && '/' !in RowState(row, j).0
  {
    if j > 0 {
      RowStateNoZero(row, j - 1);
      RowStateShape(row, j - 1);
      var (s, e) := RowState(row, j - 1);
      if row[j - 1].Some? && e > 0 {
        CountIsDigit(e);
      }
    }
  }

  /** The placement field splits at '/' into eight rank fields, rank 8
      first, and each reads back as its rank. */
  lemma PlacementRoundTrip(board: seq<seq<Cell>>)
    requires IsBoard(board)
    ensures |Split(Placement(board), '/')| == 8
    ensures forall k :: 0 <= k < 8 ==> Expand(Split(Placement(board), '/')[k]) == Letters(board[7 - k])
  {
    var fens := RankFens(board);
    forall k | 0 <= k < 8 ensures '/' !in fens[k] && Expand(fens[k]) == Letters(board[7 - k]) {
      RankFenCounts(board[7 - k]);
      RankFenRoundTrip(board[7 - k]);
    }
    SplitJoin(fens, '/');
  }
}
