// `MoveGenerator` of lib/chui_core/src/modules/move_generator.rs: the
// notation tables, the geometric filters `move_is_valid` and
// `move_is_valid_promotion`, and the generators that append every notation
// string of a kind of move to `move_list`, which `generate_move_list` then
// sorts and deduplicates.

module MoveGeneration {
  import opened Coordinate
  import Geometry

  // ----- the tables of `new` -----

  const FILES: seq<string> := ["a", "b", "c", "d", "e", "f", "g", "h"]
  const RANKS: seq<string> := ["1", "2", "3", "4", "5", "6", "7", "8"]
  const PIECES: seq<string> := ["K", "Q", "R", "B", "N"]
  const PROMOTION_NOTATION: seq<string> := ["", "=", "/", "\\"]
  const PROMOTION_PIECES: seq<string> := ["Q", "R", "B", "N"]
  const CHECK: string := "+"
  const CHECK_MATE: seq<string> := ["++", "#", "≠", "‡"]
  const MOVE_NOTATION: string := "-"
  const CAPTURE: string := "x"
  const CASTLE: seq<string> := ["O-O", "0-0", "O-O-O", "0-0-0"]
  const CASTLE_NOTATION: seq<string> := ["0", "O", "o"]

  // ----- the geometric filters -----

  function Abs(x: int): nat
  {
    if x < 0 then -x else x
  }

  /** `move_is_valid`: the indices are cast to `isize`; a move to the same
      square is invalid, one along a file, a rank or a diagonal or by a
      knight's jump is valid, anything else invalid. */
  function MoveIsValid(fileA: nat, rankA: nat, fileB: nat, rankB: nat): bool
  {
    if fileA == fileB && rankA == rankB then false
    else if fileA == fileB || rankA == rankB then true
    else if Abs(fileB - fileA) == Abs(rankA - rankB) && Abs(fileB - fileA) == Abs(rankB - rankA) then true
    else if (fileA + 1 == fileB && rankA + 2 == rankB)
      || (fileA + 1 == fileB && rankA - 2 == rankB)
      || (fileA - 1 == fileB && rankA + 2 == rankB)
      || (fileA - 1 == fileB && rankA - 2 == rankB)
      || (fileA + 2 == fileB && rankA + 1 == rankB)
      || (fileA + 2 == fileB && rankA - 1 == rankB)
      || (fileA - 2 == fileB && rankA + 1 == rankB)
      || (fileA - 2 == fileB && rankA - 1 == rankB)
    then true
    else false
  }

  /** Two squares on one diagonal. */
  predicate SameDiagonal(a: Coord, b: Coord)
  {
    Abs(b.file - a.file) == Abs(b.rank - a.rank)
  }

  /** On the board, a move is valid exactly when it goes somewhere else
      along a file, a rank or a diagonal, or is a knight's jump as the
      board's knight generator defines it. */
  lemma MoveIsValidMeans(a: Coord, b: Coord)
    ensures MoveIsValid(a.file, a.rank, b.file, b.rank)
      <==> a != b && (a.file == b.file || a.rank == b.rank || SameDiagonal(a, b) || Geometry.IsKnightJump(a, b))
  {
  }

  /** Whether a move is valid does not depend on its direction. */
  lemma MoveIsValidSymmetric(fileA: nat, rankA: nat, fileB: nat, rankB: nat)
    ensures MoveIsValid(fileA, rankA, fileB, rankB) == MoveIsValid(fileB, rankB, fileA, rankA)
  {
  }

  /** The cases of the unit tests: c1-c2, a7-a8, b1-c1, b6-c6, a1-h8, b5-a6,
      b5-c7, a1-b3, h5-f6 and e4-d2 are valid; a1-a1, a1-d7, h8-a4 and a8-h4
      are not. */
  lemma MoveIsValidExamples()
    ensures MoveIsValid(2, 0, 2, 1) && MoveIsValid(0, 6, 0, 7)
    ensures MoveIsValid(1, 0, 2, 0) && MoveIsValid(1, 5, 2, 5)
    ensures MoveIsValid(0, 0, 7, 7) && MoveIsValid(1, 4, 0, 5) && MoveIsValid(1, 4, 2, 6)
    ensures MoveIsValid(0, 0, 1, 2) && MoveIsValid(7, 4, 5, 5) && MoveIsValid(4, 3, 3, 1)
    ensures !MoveIsValid(0, 0, 0, 0) && !MoveIsValid(0, 0, 3, 6)
    ensures !MoveIsValid(7, 7, 0, 3) && !MoveIsValid(0, 7, 7, 3)
  {
  }

  /** `move_is_valid_promotion`: from the seventh rank to the eighth or
      from the second to the first, ending on the same file or on a
      neighbouring one that is on the board. */
  function MoveIsValidPromotion(fileA: nat, rankA: nat, fileB: nat, rankB: nat): bool
  {
    if !((rankA == 6 && rankB == 7) || (rankA == 1 && rankB == 0)) then false
    else if !(fileA + 1 == fileB && fileA < 7) && !(fileA - 1 == fileB && fileA > 0) && fileA != fileB then false
    else true
  }

  /** A promotion move is one rank forward for its colour, at most one file
      aside, never leaves the board and is a valid move. */
  lemma PromotionIsValidMove(fileA: Index, rankA: nat, fileB: nat, rankB: nat)
    requires MoveIsValidPromotion(fileA, rankA, fileB, rankB)
    ensures (rankA == 6 && rankB == 7) || (rankA == 1 && rankB == 0)
    ensures Abs(fileB - fileA) <= 1 && fileB < 8
    ensures MoveIsValid(fileA, rankA, fileB, rankB)
  {
  }

  /** Conversely, every such step is a promotion move. */
  lemma PromotionStepsAccepted(fileA: Index, rankA: nat, fileB: Index, rankB: nat)
    requires (rankA == 6 && rankB == 7) || (rankA == 1 && rankB == 0)
    requires Abs(fileB - fileA) <= 1
    ensures MoveIsValidPromotion(fileA, rankA, fileB, rankB)
  {
  }

  /** The cases of the unit tests: a7-a8, d7-c8, a2-a1, d2-c1 and g7-f8 are
      promotion moves; b7 from a7, g5 from g7 and b8 from g7 are not. */
  lemma MoveIsValidPromotionExamples()
    ensures MoveIsValidPromotion(0, 6, 0, 7) && MoveIsValidPromotion(3, 6, 2, 7)
    ensures MoveIsValidPromotion(0, 1, 0, 0) && MoveIsValidPromotion(3, 1, 2, 0)
    ensures MoveIsValidPromotion(6, 6, 5, 7)
    ensures !MoveIsValidPromotion(0, 6, 1, 6) && !MoveIsValidPromotion(6, 6, 6, 5)
    ensures !MoveIsValidPromotion(6, 6, 2, 7)
  {
  }

  // ----- duplicates, order and `sort` + `dedup` -----

  /** No string occurs twice. */
  predicate NoDuplicates(xs: seq<string>)
  {
    forall i, j | 0 <= i < j < |xs| :: xs[i] != xs[j]
  }

  /** `String`'s order: lexicographic on characters (for UTF-8 text the
      byte order and the character order agree). */
  predicate Less(a: string, b: string)
  {
    if a == [] then b != []
    else if b == [] then false
    else if a[0] != b[0] then a[0] < b[0]
    else Less(a[1..], b[1..])
  }

  lemma {:induction false} LessIrreflexive(a: string)
    ensures !Less(a, a)
  {
    if a != [] {
      LessIrreflexive(a[1..]);
    }
  }

  lemma {:induction false} LessTransitive(a: string, b: string, c: string)
    requires Less(a, b) && Less(b, c)
    ensures Less(a, c)
  {
    if a != [] && b != [] && c != [] && a[0] == b[0] && b[0] == c[0] {
      LessTransitive(a[1..], b[1..], c[1..]);
    }
  }

  lemma {:induction false} LessTotal(a: string, b: string)
    ensures a == b || Less(a, b) || Less(b, a)
  {
    if a != [] && b != [] && a[0] == b[0] {
      LessTotal(a[1..], b[1..]);
      if a[1..] == b[1..] {
        assert a == [a[0]] + a[1..] && b == [b[0]] + b[1..];
      }
    }
  }

  predicate LessEq(a: string, b: string)
  {
    Less(a, b) || a == b
  }

  /** `String`'s order is a strict total order. */
  lemma LessIsOrder(a: string, b: string, c: string)
    ensures !Less(a, a)
    ensures Less(a, b) && Less(b, c) ==> Less(a, c)
    ensures a == b || Less(a, b) || Less(b, a)
    ensures !(Less(a, b) && Less(b, a))
  {
    LessIrreflexive(a);
    LessTotal(a, b);
    if Less(a, b) && Less(b, c) {
      LessTransitive(a, b, c);
    }
    if Less(a, b) && Less(b, a) {
      LessTransitive(a, b, a);
    }
  }

  predicate Sorted(xs: seq<string>)
  {
    forall i, j | 0 <= i < j < |xs| :: LessEq(xs[i], xs[j])
  }

  predicate StrictlySorted(xs: seq<string>)
  {
    forall i, j | 0 <= i < j < |xs| :: Less(xs[i], xs[j])
  }

  /** A string no greater than the head of a sorted list keeps it sorted. */
  lemma PrependSorted(x: string, xs: seq<string>)
    requires Sorted(xs) && (xs != [] ==> LessEq(x, xs[0]))
    ensures Sorted([x] + xs)
  {
    var r := [x] + xs;
    forall j | 0 < j < |r|
      ensures LessEq(x, r[j])
    {
      if Less(x, xs[0]) && Less(xs[0], r[j]) {
        LessTransitive(x, xs[0], r[j]);
      }
    }
  }

  /** `x` put into the sorted `xs` before the first string not less than it. */
  function Insert(x: string, xs: seq<string>): (r: seq<string>)
    requires Sorted(xs)
    ensures Sorted(r) && multiset(r) == multiset(xs) + multiset{x}
    ensures r != [] && (r[0] == x || (xs != [] && r[0] == xs[0]))
  {
    if xs == [] then [x]
    else if Less(xs[0], x) then
      var rest := Insert(x, xs[1..]);
      assert xs == [xs[0]] + xs[1..];
      PrependSorted(xs[0], rest);
      [xs[0]] + rest
    else
      LessTotal(x, xs[0]);
      PrependSorted(x, xs);
      [x] + xs
  }

  /** `Vec::sort`: the strings in ascending order. */
  function Sort(xs: seq<string>): (r: seq<string>)
    ensures Sorted(r) && multiset(r) == multiset(xs)
  {
    if xs == [] then []
    else
      assert xs == [xs[0]] + xs[1..];
      Insert(xs[0], Sort(xs[1..]))
  }

  /** `Vec::dedup`: each run of equal neighbours kept once. */
  function Dedup(xs: seq<string>): seq<string>
  {
    if |xs| <= 1 then xs
    else if xs[0] == xs[1] then Dedup(xs[1..])
    else [xs[0]] + Dedup(xs[1..])
  }

  /** Deduplicating keeps exactly the strings there were, and its first
      string is the first one there was. */
  lemma {:induction false} DedupKeeps(xs: seq<string>)
    ensures forall x :: x in Dedup(xs) <==> x in xs
    ensures xs != [] ==> Dedup(xs) != [] && Dedup(xs)[0] == xs[0]
  {
    if |xs| > 1 {
      DedupKeeps(xs[1..]);
      assert xs == [xs[0]] + xs[1..];
    }
  }

  /** Deduplicating a sorted list leaves it strictly ascending. */
  lemma {:induction false} DedupStrict(xs: seq<string>)
    requires Sorted(xs)
    ensures StrictlySorted(Dedup(xs))
  {
    if |xs| > 1 {
      var rest := xs[1..];
      DedupStrict(rest);
      DedupKeeps(rest);
      if xs[0] != xs[1] {
        var r := Dedup(xs);
        assert r == [xs[0]] + Dedup(rest);
        forall j | 0 < j < |r|
          ensures Less(xs[0], r[j])
        {
          assert r[j] in Dedup(rest);
          var k :| 0 <= k < |rest| && rest[k] == r[j];
          assert LessEq(xs[1], xs[k + 1]);
          if xs[1] != r[j] {
            LessTransitive(xs[0], xs[1], r[j]);
          }
        }
      }
    }
  }

  /** Sorting and then deduplicating gives a strictly ascending list, so
      without duplicates, of exactly the strings there were. */
  lemma SortDedup(xs: seq<string>)
    ensures StrictlySorted(Dedup(Sort(xs)))
    ensures NoDuplicates(Dedup(Sort(xs)))
    ensures forall x :: x in Dedup(Sort(xs)) <==> x in xs
  {
    var r := Dedup(Sort(xs));
    DedupStrict(Sort(xs));
    DedupKeeps(Sort(xs));
    forall i, j | 0 <= i < j < |r|
      ensures r[i] != r[j]
    {
      if r[i] == r[j] {
        LessIrreflexive(r[i]);
      }
    }
    forall x
      ensures x in Sort(xs) <==> x in xs
    {
      assert x in Sort(xs) <==> x in multiset(Sort(xs));
    }
  }

  // ----- lists built item by item and square by square -----

  /** `item(ctx, 0)`, ..., `item(ctx, m - 1)`, one after another: the
      strings one loop of a generator pushes. */
  function Each<C>(ctx: C, m: nat, item: (C, nat) -> seq<string>): seq<string>
  {
    if m == 0 then [] else Each(ctx, m - 1, item) + item(ctx, m - 1)
  }

  /** `cell(ctx, i, 0)`, ..., `cell(ctx, i, m - 1)`: one pass of an outer loop. */
  function Row<C>(ctx: C, i: nat, m: nat, cell: (C, nat, nat) -> seq<string>): seq<string>
  {
    if m == 0 then [] else Row(ctx, i, m - 1, cell) + cell(ctx, i, m - 1)
  }

  /** The rows `0` to `n - 1`: two nested loops. */
  function Grid<C>(ctx: C, n: nat, m: nat, cell: (C, nat, nat) -> seq<string>): seq<string>
  {
    if n == 0 then [] else Grid(ctx, n - 1, m, cell) + Row(ctx, n - 1, m, cell)
  }

  lemma AppendAssoc(a: seq<string>, b: seq<string>, c: seq<string>)
    ensures a + b + c == a + (b + c)
  {
  }

  /** One more cell pushed onto a list that held a row's first `j` cells. */
  lemma RowPush<C>(start: seq<string>, ctx: C, i: nat, j: nat, cell: (C, nat, nat) -> seq<string>, before: seq<string>, after: seq<string>)
    requires before == start + Row(ctx, i, j, cell) && after == before + cell(ctx, i, j)
    ensures after == start + Row(ctx, i, j + 1, cell)
  {
    AppendAssoc(start, Row(ctx, i, j, cell), cell(ctx, i, j));
  }

  /** One more item pushed onto a list that held the first `k` items. */
  lemma EachPush<C>(start: seq<string>, ctx: C, k: nat, item: (C, nat) -> seq<string>, before: seq<string>, after: seq<string>)
    requires before == start + Each(ctx, k, item) && after == before + item(ctx, k)
    ensures after == start + Each(ctx, k + 1, item)
  {
    AppendAssoc(start, Each(ctx, k, item), item(ctx, k));
  }

  /** One more row pushed onto a list that held a grid's first `i` rows. */
  lemma GridPush<C>(start: seq<string>, ctx: C, i: nat, m: nat, cell: (C, nat, nat) -> seq<string>, before: seq<string>, after: seq<string>)
    requires before == start + Grid(ctx, i, m, cell) && after == before + Row(ctx, i, m, cell)
    ensures after == start + Grid(ctx, i + 1, m, cell)
  {
    AppendAssoc(start, Grid(ctx, i, m, cell), Row(ctx, i, m, cell));
  }

  lemma RowStep<C>(ctx: C, i: nat, j: nat, cell: (C, nat, nat) -> seq<string>)
    ensures Row(ctx, i, j + 1, cell) == Row(ctx, i, j, cell) + cell(ctx, i, j)
  {
  }

  lemma GridStep<C>(ctx: C, i: nat, m: nat, cell: (C, nat, nat) -> seq<string>)
    ensures Grid(ctx, i + 1, m, cell) == Grid(ctx, i, m, cell) + Row(ctx, i, m, cell)
  {
  }

  lemma {:induction false} EachMembers<C>(ctx: C, m: nat, item: (C, nat) -> seq<string>, s: string)
    ensures s in Each(ctx, m, item) <==> exists k: nat :: k < m && s in item(ctx, k)
  {
    if m > 0 {
      EachMembers(ctx, m - 1, item, s);
    }
  }

  lemma {:induction false} RowMembers<C>(ctx: C, i: nat, m: nat, cell: (C, nat, nat) -> seq<string>, s: string)
    ensures s in Row(ctx, i, m, cell) <==> exists j: nat :: j < m && s in cell(ctx, i, j)
  {
    if m > 0 {
      RowMembers(ctx, i, m - 1, cell, s);
    }
  }

  /** A string is in a grid exactly when it is in one of its cells. */
  lemma {:induction false} GridMembers<C>(ctx: C, n: nat, m: nat, cell: (C, nat, nat) -> seq<string>, s: string)
    ensures s in Grid(ctx, n, m, cell) <==> exists i: nat, j: nat :: i < n && j < m && s in cell(ctx, i, j)
  {
    if n > 0 {
      GridMembers(ctx, n - 1, m, cell, s);
      RowMembers(ctx, n - 1, m, cell, s);
      if s in Grid(ctx, n, m, cell) {
        if s in Row(ctx, n - 1, m, cell) {
          var j: nat :| j < m && s in cell(ctx, n - 1, j);
        }
      } else {
        forall i: nat, j: nat | i < n && j < m
          ensures s !in cell(ctx, i, j)
        {
        }
      }
    }
  }

  lemma {:induction false} EachLength<C>(ctx: C, m: nat, item: (C, nat) -> seq<string>, len: nat)
    requires forall k: nat | k < m :: |item(ctx, k)| == len
    ensures |Each(ctx, m, item)| == m * len
  {
    if m > 0 {
      EachLength(ctx, m - 1, item, len);
    }
  }

  lemma {:induction false} RowLength<C>(ctx: C, i: nat, m: nat, cell: (C, nat, nat) -> seq<string>, len: nat)
    requires forall j: nat | j < m :: |cell(ctx, i, j)| == len
    ensures |Row(ctx, i, m, cell)| == m * len
  {
    if m > 0 {
      RowLength(ctx, i, m - 1, cell, len);
    }
  }

  /** A grid of equally long cells holds `n * m` of them. */
  lemma {:induction false} GridLength<C>(ctx: C, n: nat, m: nat, cell: (C, nat, nat) -> seq<string>, len: nat)
    requires forall i: nat, j: nat | i < n && j < m :: |cell(ctx, i, j)| == len
    ensures |Grid(ctx, n, m, cell)| == n * (m * len)
  {
    if n > 0 {
      GridLength(ctx, n - 1, m, cell, len);
      RowLength(ctx, n - 1, m, cell, len);
      assert n * (m * len) == (n - 1) * (m * len) + m * len;
    }
  }

  /** A list without duplicates has none in either part. */
  lemma NoDuplicatesParts(a: seq<string>, b: seq<string>)
    requires NoDuplicates(a + b)
    ensures NoDuplicates(a) && NoDuplicates(b)
  {
    forall i, j | 0 <= i < j < |a|
      ensures a[i] != a[j]
    {
      assert (a + b)[i] == a[i] && (a + b)[j] == a[j];
    }
    forall i, j | 0 <= i < j < |b|
      ensures b[i] != b[j]
    {
      assert (a + b)[|a| + i] == b[i] && (a + b)[|a| + j] == b[j];
    }
  }

  /** A duplicate inside one cell is a duplicate of the whole grid. */
  lemma {:induction false} GridKeepsDuplicates<C>(ctx: C, n: nat, m: nat, cell: (C, nat, nat) -> seq<string>, i: nat, j: nat)
    requires i < n && j < m && !NoDuplicates(cell(ctx, i, j))
    ensures !NoDuplicates(Grid(ctx, n, m, cell))
  {
    if NoDuplicates(Grid(ctx, n, m, cell)) {
      NoDuplicatesParts(Grid(ctx, n - 1, m, cell), Row(ctx, n - 1, m, cell));
      if i < n - 1 {
        GridKeepsDuplicates(ctx, n - 1, m, cell, i, j);
      } else {
        RowKeepsDuplicates(ctx, i, m, cell, j);
      }
    }
  }

  lemma {:induction false} RowKeepsDuplicates<C>(ctx: C, i: nat, m: nat, cell: (C, nat, nat) -> seq<string>, j: nat)
    requires j < m && !NoDuplicates(cell(ctx, i, j))
    ensures !NoDuplicates(Row(ctx, i, m, cell))
  {
    if NoDuplicates(Row(ctx, i, m, cell)) {
      NoDuplicatesParts(Row(ctx, i, m - 1, cell), cell(ctx, i, m - 1));
      if j < m - 1 {
        RowKeepsDuplicates(ctx, i, m - 1, cell, j);
      }
    }
  }

  /** A string in both parts is a duplicate of the whole. */
  lemma SharedIsDuplicate(a: seq<string>, b: seq<string>, s: string)
    requires s in a && s in b
    ensures !NoDuplicates(a + b)
  {
    var i :| 0 <= i < |a| && a[i] == s;
    var j :| 0 <= j < |b| && b[j] == s;
    assert (a + b)[i] == (a + b)[|a| + j];
  }

  /** A string in two cells of one row is a duplicate of the row. */
  lemma {:induction false} RowRepeats<C>(ctx: C, i: nat, m: nat, cell: (C, nat, nat) -> seq<string>, j1: nat, j2: nat, s: string)
    requires j1 < j2 < m && s in cell(ctx, i, j1) && s in cell(ctx, i, j2)
    ensures !NoDuplicates(Row(ctx, i, m, cell))
  {
    if j2 < m - 1 {
      RowRepeats(ctx, i, m - 1, cell, j1, j2, s);
      if NoDuplicates(Row(ctx, i, m, cell)) {
        NoDuplicatesParts(Row(ctx, i, m - 1, cell), cell(ctx, i, m - 1));
      }
    } else {
      RowMembers(ctx, i, m - 1, cell, s);
      SharedIsDuplicate(Row(ctx, i, m - 1, cell), cell(ctx, i, m - 1), s);
    }
  }

  /** ... and of the grid. */
  lemma {:induction false} GridRepeats<C>(ctx: C, n: nat, m: nat, cell: (C, nat, nat) -> seq<string>, i: nat, j1: nat, j2: nat, s: string)
    requires i < n && j1 < j2 < m && s in cell(ctx, i, j1) && s in cell(ctx, i, j2)
    ensures !NoDuplicates(Grid(ctx, n, m, cell))
  {
    if NoDuplicates(Grid(ctx, n, m, cell)) {
      NoDuplicatesParts(Grid(ctx, n - 1, m, cell), Row(ctx, n - 1, m, cell));
      if i < n - 1 {
        GridRepeats(ctx, n - 1, m, cell, i, j1, j2, s);
      } else {
        RowRepeats(ctx, i, m, cell, j1, j2, s);
      }
    }
  }

  // ----- the strings of one move -----

  function MateForm(base: string, k: nat): seq<string>
  {
    if k < |CHECK_MATE| then [base + CHECK_MATE[k]] else []
  }

  /** A move as pushed by every generator: plain, with `+`, and with each
      mate sign. */
  function Annotated(base: string): seq<string>
  {
    [base, base + CHECK] + Each(base, |CHECK_MATE|, MateForm)
  }

  /** The six forms of a move: the move, its check form and its four mate
      forms. */
  lemma AnnotatedForms(base: string, s: string)
    ensures |Annotated(base)| == 6
    ensures s in Annotated(base) <==> s == base || s == base + CHECK || exists k: nat :: k < 4 && s == base + CHECK_MATE[k]
  {
    EachLength(base, |CHECK_MATE|, MateForm, 1);
    EachMembers(base, |CHECK_MATE|, MateForm, s);
    assert forall k: nat | k < 4 :: s in MateForm(base, k) <==> s == base + CHECK_MATE[k];
  }

  /** The promotion forms of a move: for each promotion piece and each
      promotion notation, the move with both appended. */
  function PromotionForms(base: string, i: nat, j: nat): seq<string>
  {
    if i < |PROMOTION_PIECES| && j < |PROMOTION_NOTATION| then Annotated(base + PROMOTION_NOTATION[j] + PROMOTION_PIECES[i]) else []
  }

  function Promotions(base: string): seq<string>
  {
    Grid(base, |PROMOTION_PIECES|, |PROMOTION_NOTATION|, PromotionForms)
  }

  // ----- pawn moves -----

  /** The ranks on which a pawn move promotes, compared as text. */
  predicate PromotionRank(r: nat)
    requires r < 8
  {
    RANKS[r] == "1" || RANKS[r] == "8"
  }

  lemma PromotionRankIs(r: nat)
    requires r < 8
    ensures PromotionRank(r) <==> r == 0 || r == 7
  {
  }

  /** The strings `generate_pawn_moves` pushes for one square. */
  function PawnSquare(u: (), f: nat, r: nat): seq<string>
  {
    if f < 8 && r < 8 then
      if PromotionRank(r) then Promotions(FILES[f] + RANKS[r])
      else Annotated(FILES[f] + RANKS[r])
    else []
  }

  /** Everything `generate_pawn_moves` pushes. */
  function PawnMoves(): seq<string>
  {
    Grid((), |FILES|, |RANKS|, PawnSquare)
  }

  /** Six strings per square on ranks 2 to 7, and 96 on ranks 1 and 8. */
  lemma PawnSquareCount(f: nat, r: nat)
    requires f < 8 && r < 8
    ensures |PawnSquare((), f, r)| == if r == 0 || r == 7 then 96 else 6
  {
    PromotionRankIs(r);
    var base := FILES[f] + RANKS[r];
    forall i: nat, j: nat | i < 4 && j < 4
      ensures |PromotionForms(base, i, j)| == 6
    {
      AnnotatedForms(base + PROMOTION_NOTATION[j] + PROMOTION_PIECES[i], "");
    }
    GridLength(base, 4, 4, PromotionForms, 6);
    AnnotatedForms(base, "");
  }

  // ----- pawn captures -----

  lemma EdgeFiles(f: nat)
    requires f < 8
    ensures FILES[f] == "a" <==> f == 0
    ensures FILES[f] == "h" <==> f == 7
  {
  }

  /** The capture toward the a-file, `{file}x{file - 1}{rank}`, and toward
      the h-file, `{file}x{file + 1}{rank}`. */
  function LeftCapture(f: nat, r: nat): string
    requires 0 < f < 8 && r < 8
  {
    FILES[f] + CAPTURE + FILES[f - 1] + RANKS[r]
  }

  function RightCapture(f: nat, r: nat): string
    requires f < 7 && r < 8
  {
    FILES[f] + CAPTURE + FILES[f + 1] + RANKS[r]
  }

  /** The captures with `tail` appended, left one unless on the a-file,
      right one unless on the h-file (the files compared as text). */
  function Sides(f: nat, r: nat, tail: string): seq<string>
    requires f < 8 && r < 8
  {
    EdgeFiles(f);
    (if FILES[f] != "a" then [LeftCapture(f, r) + tail] else [])
    + (if FILES[f] != "h" then [RightCapture(f, r) + tail] else [])
  }

  /** The same with `+` too: the left capture and its check, then the right
      ones. */
  function CheckSides(f: nat, r: nat, tail: string): seq<string>
    requires f < 8 && r < 8
  {
    EdgeFiles(f);
    (if FILES[f] != "a" then [LeftCapture(f, r) + tail, LeftCapture(f, r) + tail + CHECK] else [])
    + (if FILES[f] != "h" then [RightCapture(f, r) + tail, RightCapture(f, r) + tail + CHECK] else [])
  }

  function MateSides(ctx: (nat, nat, string), k: nat): seq<string>
  {
    if ctx.0 < 8 && ctx.1 < 8 && k < |CHECK_MATE| then Sides(ctx.0, ctx.1, ctx.2 + CHECK_MATE[k]) else []
  }

  /** The pawn captures from one file to one rank with `tail`: the plain
      and check forms, then each mate sign. */
  function CaptureForms(f: nat, r: nat, tail: string): seq<string>
    requires f < 8 && r < 8
  {
    CheckSides(f, r, tail) + Each((f, r, tail), |CHECK_MATE|, MateSides)
  }

  function CapturePromotionForms(sq: (nat, nat), i: nat, j: nat): seq<string>
  {
    if sq.0 < 8 && sq.1 < 8 && i < |PROMOTION_PIECES| && j < |PROMOTION_NOTATION| then CaptureForms(sq.0, sq.1, PROMOTION_NOTATION[j] + PROMOTION_PIECES[i]) else []
  }

  /** The strings `generate_pawn_captures` pushes for one file and rank. */
  function PawnCaptureSquare(u: (), f: nat, r: nat): seq<string>
  {
    if f < 8 && r < 8 then
      if PromotionRank(r) then Grid((f, r), |PROMOTION_PIECES|, |PROMOTION_NOTATION|, CapturePromotionForms)
      else CaptureForms(f, r, "")
    else []
  }

  /** Everything `generate_pawn_captures` pushes. */
  function PawnCaptures(): seq<string>
  {
    Grid((), |FILES|, |RANKS|, PawnCaptureSquare)
  }

  /** A pawn capture from file `f` lands on a neighbouring file that is on
      the board: `{file f}x{file g}{rank}` starts the string. */
  predicate CaptureOnBoard(s: string)
  {
    exists f: nat, g: nat, r: nat :: f < 8 && g < 8 && r < 8 && Abs(g - f) == 1
      && FILES[f] + CAPTURE + FILES[g] + RANKS[r] <= s
  }

  /** A string that starts with one of the two captures from `f` to `r`. */
  predicate StartsCapture(f: nat, r: nat, s: string)
    requires f < 8 && r < 8
  {
    (0 < f && LeftCapture(f, r) <= s) || (f < 7 && RightCapture(f, r) <= s)
  }

  lemma SidesStart(f: nat, r: nat, tail: string, s: string)
    requires f < 8 && r < 8
    requires s in Sides(f, r, tail) || s in CheckSides(f, r, tail)
    ensures StartsCapture(f, r, s)
  {
    EdgeFiles(f);
    if 0 < f {
      var t := LeftCapture(f, r);
      assert t <= t + tail && t <= t + tail + CHECK;
    }
    if f < 7 {
      var t := RightCapture(f, r);
      assert t <= t + tail && t <= t + tail + CHECK;
    }
  }

  /** Every pawn capture from file `f` names a neighbouring file on the
      board: the a-file only captures toward b, the h-file only toward g. */
  lemma CaptureFormsOnBoard(f: nat, r: nat, tail: string, s: string)
    requires f < 8 && r < 8 && s in CaptureForms(f, r, tail)
    ensures CaptureOnBoard(s)
  {
    EachMembers((f, r, tail), |CHECK_MATE|, MateSides, s);
    if s in CheckSides(f, r, tail) {
      SidesStart(f, r, tail, s);
    } else {
      var k: nat :| k < |CHECK_MATE| && s in MateSides((f, r, tail), k);
      SidesStart(f, r, tail + CHECK_MATE[k], s);
    }
    if 0 < f && LeftCapture(f, r) <= s {
      assert Abs(f - 1 - f) == 1;
    } else {
      assert Abs(f + 1 - f) == 1;
    }
  }

  lemma PawnCaptureSquareOnBoard(f: nat, r: nat, s: string)
    requires f < 8 && r < 8 && s in PawnCaptureSquare((), f, r)
    ensures CaptureOnBoard(s)
  {
    if PromotionRank(r) {
      GridMembers((f, r), |PROMOTION_PIECES|, |PROMOTION_NOTATION|, CapturePromotionForms, s);
      var i: nat, j: nat :| i < 4 && j < 4 && s in CapturePromotionForms((f, r), i, j);
      CaptureFormsOnBoard(f, r, PROMOTION_NOTATION[j] + PROMOTION_PIECES[i], s);
    } else {
      CaptureFormsOnBoard(f, r, "", s);
    }
  }

  /** No pawn capture leaves the board. */
  lemma PawnCapturesOnBoard(s: string)
    requires s in PawnCaptures()
    ensures CaptureOnBoard(s)
  {
    var cell := PawnCaptureSquare;
    GridMembers((), |FILES|, |RANKS|, cell, s);
    var f: nat, r: nat :| f < |FILES| && r < |RANKS| && s in cell((), f, r);
    PawnCaptureSquareOnBoard(f, r, s);
  }

  // ----- piece moves and captures, castling -----

  /** The strings a piece generator pushes for one square: `prefix` is the
      piece letter, followed by `x` for captures. */
  function PieceSquare(prefix: string, f: nat, r: nat): seq<string>
  {
    if f < 8 && r < 8 then Annotated(prefix + FILES[f] + RANKS[r]) else []
  }

  /** Everything `generate_{king,queen,rook,bishop,knight}_{moves,captures}`
      pushes for its prefix. */
  function PieceMoves(prefix: string): seq<string>
  {
    Grid(prefix, |FILES|, |RANKS|, PieceSquare)
  }

  function CastleForms(u: (), k: nat): seq<string>
  {
    if k < |CASTLE| then Annotated(CASTLE[k]) else []
  }

  /** Everything `generate_castle_moves` pushes. */
  function CastleMoves(): seq<string>
  {
    Each((), |CASTLE|, CastleForms)
  }

  /** A piece generator pushes six strings per square, 384 in all. */
  lemma PieceMovesLength(prefix: string)
    ensures |PieceMoves(prefix)| == 384
  {
    var cell := PieceSquare;
    forall f: nat, r: nat | f < 8 && r < 8
      ensures |cell(prefix, f, r)| == 6
    {
      AnnotatedForms(prefix + FILES[f] + RANKS[r], "");
    }
    GridLength(prefix, |FILES|, |RANKS|, cell, 6);
  }

  /** A piece generator pushes every form of the piece's move to every
      square. */
  lemma PieceMoveListed(prefix: string, f: nat, r: nat, s: string)
    requires f < 8 && r < 8 && s in Annotated(prefix + FILES[f] + RANKS[r])
    ensures s in PieceMoves(prefix)
  {
    var cell := PieceSquare;
    assert s in cell(prefix, f, r);
    GridMembers(prefix, |FILES|, |RANKS|, cell, s);
  }

  // ----- square-to-square moves and captures -----

  /** `{file a}{rank a}{sep}{file b}{rank b}`. */
  function PairText(fa: nat, ra: nat, sep: string, fb: nat, rb: nat): string
    requires fa < 8 && ra < 8 && fb < 8 && rb < 8
  {
    FILES[fa] + RANKS[ra] + sep + FILES[fb] + RANKS[rb]
  }

  function PromotedMates(ctx: (string, string), k: nat): seq<string>
  {
    if k < |CHECK_MATE| then [ctx.0 + CHECK_MATE[k], ctx.0 + ctx.1 + CHECK_MATE[k]] else []
  }

  /** The promotion pass of `generate_square_to_square_moves` for one piece
      and notation: the bare move, promoted, with check, promoted with
      check, then each mate sign bare and promoted. */
  function PromotedMoveForms(base: string, i: nat, j: nat): seq<string>
  {
    if i < |PROMOTION_PIECES| && j < |PROMOTION_NOTATION| then
      var p := PROMOTION_NOTATION[j] + PROMOTION_PIECES[i];
      [base, base + p, base + CHECK, base + p + CHECK] + Each((base, p), |CHECK_MATE|, PromotedMates)
    else []
  }

  function PromotedCaptureMates(ctx: (string, string), k: nat): seq<string>
  {
    if k < |CHECK_MATE| then [ctx.0 + ctx.1 + CHECK_MATE[k], ctx.0 + CHECK_MATE[k]] else []
  }

  /** The same pass of `generate_square_to_square_captures`, which pushes
      the promoted check form before the bare one and the promoted mate
      form before the bare one. */
  function PromotedCaptureForms(base: string, i: nat, j: nat): seq<string>
  {
    if i < |PROMOTION_PIECES| && j < |PROMOTION_NOTATION| then
      var p := PROMOTION_NOTATION[j] + PROMOTION_PIECES[i];
      [base, base + p, base + p + CHECK, base + CHECK] + Each((base, p), |CHECK_MATE|, PromotedCaptureMates)
    else []
  }

  /** The strings `generate_square_to_square_moves` pushes for one pair of
      squares: nothing for an invalid move, the promotion forms for a
      promotion move, the six forms otherwise. */
  function PairMoves(from: (nat, nat), fb: nat, rb: nat): seq<string>
  {
    if from.0 < 8 && from.1 < 8 && fb < 8 && rb < 8 then
      var base := PairText(from.0, from.1, MOVE_NOTATION, fb, rb);
      if !MoveIsValid(from.0, from.1, fb, rb) then []
      else if MoveIsValidPromotion(from.0, from.1, fb, rb) then
        Grid(base, |PROMOTION_PIECES|, |PROMOTION_NOTATION|, PromotedMoveForms)
      else Annotated(base)
    else []
  }

  function PairCaptures(from: (nat, nat), fb: nat, rb: nat): seq<string>
  {
    if from.0 < 8 && from.1 < 8 && fb < 8 && rb < 8 then
      var base := PairText(from.0, from.1, CAPTURE, fb, rb);
      if !MoveIsValid(from.0, from.1, fb, rb) then []
      else if MoveIsValidPromotion(from.0, from.1, fb, rb) then
        Grid(base, |PROMOTION_PIECES|, |PROMOTION_NOTATION|, PromotedCaptureForms)
      else Annotated(base)
    else []
  }

  function SquareMoves(u: (), fa: nat, ra: nat): seq<string>
  {
    if fa < 8 && ra < 8 then Grid((fa, ra), |FILES|, |RANKS|, PairMoves) else []
  }

  function SquareCaptures(u: (), fa: nat, ra: nat): seq<string>
  {
    if fa < 8 && ra < 8 then Grid((fa, ra), |FILES|, |RANKS|, PairCaptures) else []
  }

  /** Everything `generate_square_to_square_moves` pushes. */
  function SquareToSquareMoves(): seq<string>
  {
    Grid((), |FILES|, |RANKS|, SquareMoves)
  }

  /** Everything `generate_square_to_square_captures` pushes. */
  function SquareToSquareCaptures(): seq<string>
  {
    Grid((), |FILES|, |RANKS|, SquareCaptures)
  }

  /** The bare move of a promotion pair is pushed once per promotion piece
      and notation. */
  lemma PromotionPairRepeats(fa: nat, ra: nat, fb: nat, rb: nat)
    requires fa < 8 && ra < 8 && fb < 8 && rb < 8
    requires MoveIsValid(fa, ra, fb, rb) && MoveIsValidPromotion(fa, ra, fb, rb)
    ensures !NoDuplicates(PairMoves((fa, ra), fb, rb))
  {
    var base := PairText(fa, ra, MOVE_NOTATION, fb, rb);
    var forms := PromotedMoveForms;
    assert base in forms(base, 0, 0) && base in forms(base, 0, 1);
    GridRepeats(base, |PROMOTION_PIECES|, |PROMOTION_NOTATION|, forms, 0, 0, 1, base);
  }

  lemma SquareMovesRepeat(fa: nat, ra: nat, fb: nat, rb: nat)
    requires fa < 8 && ra < 8 && fb < 8 && rb < 8
    requires MoveIsValid(fa, ra, fb, rb) && MoveIsValidPromotion(fa, ra, fb, rb)
    ensures !NoDuplicates(SquareMoves((), fa, ra))
  {
    PromotionPairRepeats(fa, ra, fb, rb);
    var pairs := PairMoves;
    GridKeepsDuplicates((fa, ra), |FILES|, |RANKS|, pairs, fb, rb);
  }

  /** So the square-to-square moves hold duplicates, a7-a8 among them. */
  lemma SquareToSquareMovesRepeat()
    ensures !NoDuplicates(SquareToSquareMoves())
  {
    var fa: nat, ra: nat, fb: nat, rb: nat := 0, 6, 0, 7;
    assert MoveIsValid(fa, ra, fb, rb) && MoveIsValidPromotion(fa, ra, fb, rb);
    SquareMovesRepeat(fa, ra, fb, rb);
    var squares := SquareMoves;
    GridKeepsDuplicates((), |FILES|, |RANKS|, squares, fa, ra);
  }

  // ----- the whole list -----

  /** What `generate_move_list` pushes, generator by generator, before it
      sorts and deduplicates. */
  function AllMoves(): seq<string>
  {
    PawnLists() + PieceLists() + CastleMoves() + SquareLists()
  }

  /** The pawn moves, then the pawn captures. */
  function PawnLists(): seq<string>
  {
    PawnMoves() + PawnCaptures()
  }

  /** The moves and captures of king, queen, rook, bishop and knight, in
      that order. */
  function PieceLists(): seq<string>
  {
    PieceMoves("K") + PieceMoves("K" + CAPTURE)
    + PieceMoves("Q") + PieceMoves("Q" + CAPTURE)
    + PieceMoves("R") + PieceMoves("R" + CAPTURE)
    + PieceMoves("B") + PieceMoves("B" + CAPTURE)
    + PieceMoves("N") + PieceMoves("N" + CAPTURE)
  }

  /** The square-to-square moves, then the square-to-square captures. */
  function SquareLists(): seq<string>
  {
    SquareToSquareMoves() + SquareToSquareCaptures()
  }

  /** The list `generate_move_list` returns. */
  function GeneratedList(): seq<string>
  {
    Dedup(Sort(AllMoves()))
  }

  /** The generated list is strictly ascending, so `validate_moves` accepts
      it, and holds exactly the strings the generators push. */
  lemma GeneratedListValid()
    ensures StrictlySorted(GeneratedList()) && NoDuplicates(GeneratedList())
    ensures forall s :: s in GeneratedList() <==> s in AllMoves()
  {
    var all := AllMoves();
    SortDedup(all);
  }

  lemma InEach<C>(ctx: C, m: nat, item: (C, nat) -> seq<string>, k: nat, s: string)
    requires k < m && s in item(ctx, k)
    ensures s in Each(ctx, m, item)
  {
    EachMembers(ctx, m, item, s);
  }

  lemma InGrid<C>(ctx: C, n: nat, m: nat, cell: (C, nat, nat) -> seq<string>, i: nat, j: nat, s: string)
    requires i < n && j < m && s in cell(ctx, i, j)
    ensures s in Grid(ctx, n, m, cell)
  {
    GridMembers(ctx, n, m, cell, s);
  }

  // ----- strings the unit tests look for -----

  /** A promotion with any notation and piece, plain or with check or
      mate, is pushed for every file on the first and the eighth rank. */
  lemma PawnPromotionListed(f: nat, r: nat, i: nat, j: nat, s: string)
    requires f < 8 && (r == 0 || r == 7) && i < 4 && j < 4
    requires s in Annotated(FILES[f] + RANKS[r] + PROMOTION_NOTATION[j] + PROMOTION_PIECES[i])
    ensures s in PawnMoves()
  {
    var base := FILES[f] + RANKS[r];
    var forms := PromotionForms;
    assert s in forms(base, i, j);
    InGrid(base, |PROMOTION_PIECES|, |PROMOTION_NOTATION|, forms, i, j, s);
    var cell := PawnSquare;
    assert s in cell((), f, r);
    InGrid((), |FILES|, |RANKS|, cell, f, r, s);
  }

  /** A move to a square of ranks 2 to 7, plain or with check or mate, is
      pushed. */
  lemma PawnStepListed(f: nat, r: nat, s: string)
    requires f < 8 && 0 < r < 7 && s in Annotated(FILES[f] + RANKS[r])
    ensures s in PawnMoves()
  {
    var cell := PawnSquare;
    assert s in cell((), f, r);
    InGrid((), |FILES|, |RANKS|, cell, f, r, s);
  }

  /** `g8=N++` is a pawn move. */
  lemma PawnMoveExample()
    ensures "g8=N++" in PawnMoves()
  {
    var f: nat, r: nat, i: nat, j: nat := 6, 7, 3, 1;
    var t := FILES[f] + RANKS[r] + PROMOTION_NOTATION[j] + PROMOTION_PIECES[i];
    var s := t + CHECK_MATE[0];
    assert s in Annotated(t) by {
      AnnotatedForms(t, s);
    }
    PawnPromotionListed(f, r, i, j, s);
    PromotionText();
  }

  /** The text of the promotion `g8=N++`. */
  lemma PromotionText()
    ensures FILES[6] + RANKS[7] + PROMOTION_NOTATION[1] + PROMOTION_PIECES[3] + CHECK_MATE[0] == "g8=N++"
  {
  }

  /** A pawn capture to rank `r` with `tail` is pushed: the promoting
      ones on the first and the eighth rank, the others elsewhere. */
  lemma PawnCaptureListed(f: nat, r: nat, i: nat, j: nat, s: string)
    requires f < 8 && r < 8 && i < 4 && j < 4
    requires if r == 0 || r == 7 then s in CaptureForms(f, r, PROMOTION_NOTATION[j] + PROMOTION_PIECES[i])
      else s in CaptureForms(f, r, "")
    ensures s in PawnCaptures()
  {
    PromotionRankIs(r);
    if r == 0 || r == 7 {
      var forms := CapturePromotionForms;
      assert s in forms((f, r), i, j);
      InGrid((f, r), |PROMOTION_PIECES|, |PROMOTION_NOTATION|, forms, i, j, s);
    }
    var cell := PawnCaptureSquare;
    assert s in cell((), f, r);
    InGrid((), |FILES|, |RANKS|, cell, f, r, s);
  }

  /** `bxa1Q` is a pawn capture. */
  lemma PawnCaptureExample()
    ensures "bxa1Q" in PawnCaptures()
  {
    var f: nat, r: nat, i: nat, j: nat := 1, 0, 0, 0;
    var tail := PROMOTION_NOTATION[j] + PROMOTION_PIECES[i];
    var s := LeftCapture(f, r) + tail;
    assert s in PawnCaptures() by {
      assert s in CheckSides(f, r, tail);
      PawnCaptureListed(f, r, i, j, s);
    }
    PawnCaptureText();
  }

  /** The text of the capture `bxa1Q`. */
  lemma PawnCaptureText()
    ensures LeftCapture(1, 0) + (PROMOTION_NOTATION[0] + PROMOTION_PIECES[0]) == "bxa1Q"
  {
  }

  /** `Qxd4+` is a queen capture. */
  lemma PieceMoveExample()
    ensures "Qxd4+" in PieceMoves("Q" + CAPTURE)
  {
    var prefix := "Q" + CAPTURE;
    var f: nat, r: nat := 3, 3;
    var base := prefix + FILES[f] + RANKS[r];
    assert base + CHECK in PieceMoves(prefix) by {
      AnnotatedForms(base, base + CHECK);
      PieceMoveListed(prefix, f, r, base + CHECK);
    }
    PieceMoveText();
  }

  /** The text of the queen capture `Qxd4+`. */
  lemma PieceMoveText()
    ensures "Q" + CAPTURE + FILES[3] + RANKS[3] + CHECK == "Qxd4+"
  {
  }

  /** `0-0-0#` is a castling move. */
  lemma CastleExample()
    ensures "0-0-0#" in CastleMoves()
  {
    var k: nat, m: nat := 3, 1;
    var s := CASTLE[k] + CHECK_MATE[m];
    assert s in CastleMoves() by {
      AnnotatedForms(CASTLE[k], s);
      var forms := CastleForms;
      assert s in forms((), k);
      InEach((), |CASTLE|, forms, k, s);
    }
    CastleText();
  }

  /** The text of the castling move `0-0-0#`. */
  lemma CastleText()
    ensures CASTLE[3] + CHECK_MATE[1] == "0-0-0#"
  {
  }

  /** What is pushed for a pair of squares is among the square-to-square
      moves. */
  lemma SquareMoveListed(fa: nat, ra: nat, fb: nat, rb: nat, s: string)
    requires fa < 8 && ra < 8 && fb < 8 && rb < 8 && s in PairMoves((fa, ra), fb, rb)
    ensures s in SquareToSquareMoves()
  {
    var pairs := PairMoves;
    InGrid((fa, ra), |FILES|, |RANKS|, pairs, fb, rb, s);
    var cell := SquareMoves;
    assert s in cell((), fa, ra);
    InGrid((), |FILES|, |RANKS|, cell, fa, ra, s);
  }

  lemma SquareCaptureListed(fa: nat, ra: nat, fb: nat, rb: nat, s: string)
    requires fa < 8 && ra < 8 && fb < 8 && rb < 8 && s in PairCaptures((fa, ra), fb, rb)
    ensures s in SquareToSquareCaptures()
  {
    var pairs := PairCaptures;
    InGrid((fa, ra), |FILES|, |RANKS|, pairs, fb, rb, s);
    var cell := SquareCaptures;
    assert s in cell((), fa, ra);
    InGrid((), |FILES|, |RANKS|, cell, fa, ra, s);
  }

  /** `g7-g8Q` is a square-to-square move. */
  lemma SquareMoveExample()
    ensures "g7-g8Q" in SquareToSquareMoves()
  {
    var fa: nat, ra: nat, fb: nat, rb: nat, i: nat, j: nat := 6, 6, 6, 7, 0, 0;
    var base := PairText(fa, ra, MOVE_NOTATION, fb, rb);
    var s := base + (PROMOTION_NOTATION[j] + PROMOTION_PIECES[i]);
    assert s in SquareToSquareMoves() by {
      var forms := PromotedMoveForms;
      assert s in forms(base, i, j);
      InGrid(base, |PROMOTION_PIECES|, |PROMOTION_NOTATION|, forms, i, j, s);
      assert MoveIsValid(fa, ra, fb, rb) && MoveIsValidPromotion(fa, ra, fb, rb);
      SquareMoveListed(fa, ra, fb, rb, s);
    }
    SquareMoveText();
  }

  /** The text of the promotion `g7-g8Q`. */
  lemma SquareMoveText()
    ensures PairText(6, 6, MOVE_NOTATION, 6, 7) + (PROMOTION_NOTATION[0] + PROMOTION_PIECES[0]) == "g7-g8Q"
  {
  }

  /** `f7xg8#` is a square-to-square capture. */
  lemma SquareCaptureExample()
    ensures "f7xg8#" in SquareToSquareCaptures()
  {
    var fa: nat, ra: nat, fb: nat, rb: nat, i: nat, j: nat, k: nat := 5, 6, 6, 7, 0, 0, 1;
    var base := PairText(fa, ra, CAPTURE, fb, rb);
    var p := PROMOTION_NOTATION[j] + PROMOTION_PIECES[i];
    var s := base + CHECK_MATE[k];
    assert s in SquareToSquareCaptures() by {
      var mates := PromotedCaptureMates;
      assert s in mates((base, p), k);
      InEach((base, p), |CHECK_MATE|, mates, k, s);
      var forms := PromotedCaptureForms;
      assert s in forms(base, i, j);
      InGrid(base, |PROMOTION_PIECES|, |PROMOTION_NOTATION|, forms, i, j, s);
      assert MoveIsValid(fa, ra, fb, rb) && MoveIsValidPromotion(fa, ra, fb, rb);
      SquareCaptureListed(fa, ra, fb, rb, s);
    }
    SquareCaptureText();
  }

  /** The text of the capture `f7xg8#`. */
  lemma SquareCaptureText()
    ensures PairText(5, 6, CAPTURE, 6, 7) + CHECK_MATE[1] == "f7xg8#"
  {
  }

  /** Whatever a generator pushes ends up in the generated list. */
  lemma Generated(s: string)
    requires s in PawnMoves() || s in PawnCaptures() || s in PieceMoves("Q" + CAPTURE)
      || s in CastleMoves() || s in SquareToSquareMoves() || s in SquareToSquareCaptures()
    ensures s in GeneratedList()
  {
    GeneratedListValid();
  }

  /** Strings of every kind the unit test `check_list` looks for are in the
      generated list. */
  lemma CheckListGenerated()
    ensures "g8=N++" in GeneratedList() && "bxa1Q" in GeneratedList() && "Qxd4+" in GeneratedList()
    ensures "0-0-0#" in GeneratedList() && "g7-g8Q" in GeneratedList() && "f7xg8#" in GeneratedList()
  {
    PawnMoveExample();
    Generated("g8=N++");
    PawnCaptureExample();
    Generated("bxa1Q");
    PieceMoveExample();
    Generated("Qxd4+");
    CastleExample();
    Generated("0-0-0#");
    SquareMoveExample();
    Generated("g7-g8Q");
    SquareCaptureExample();
    Generated("f7xg8#");
  }

  /** Two strings with the same prefix and different suffixes differ. */
  lemma SuffixesDiffer(base: string, x: string, y: string)
    requires x != y
    ensures base + x != base + y
  {
    assert (base + x)[|base|..] == x && (base + y)[|base|..] == y;
  }

  /** The six forms of one move are distinct. */
  lemma AnnotatedDistinct(base: string)
    ensures NoDuplicates(Annotated(base))
  {
    var a := Annotated(base);
    var suffixes := ["", CHECK] + CHECK_MATE;
    var mate := MateForm;
    assert Each(base, 4, mate) == [base + CHECK_MATE[0], base + CHECK_MATE[1], base + CHECK_MATE[2], base + CHECK_MATE[3]];
    assert base == base + "";
    assert |a| == 6 && forall k | 0 <= k < 6 :: a[k] == base + suffixes[k];
    forall i, j | 0 <= i < j < 6
      ensures a[i] != a[j]
    {
      SuffixesDiffer(base, suffixes[i], suffixes[j]);
    }
  }

  class MoveGenerator {
    /** `move_list`; the notation tables are the constants above, which no
        operation changes. */
    var moveList: seq<string>

    /** `new`: the tables and an empty list. */
    constructor ()
      ensures moveList == []
    {
      moveList := [];
    }

    /** `validate_moves`: walks the list with a set of the strings seen so
        far and stops at the first one seen before. */
    method ValidateMoves() returns (ok: bool, reason: string)
      ensures ok <==> NoDuplicates(moveList)
      ensures ok ==> reason == "Valid."
      ensures !ok ==> exists i :: (0 <= i < |moveList| && NoDuplicates(moveList[..i])
        && moveList[i] in moveList[..i] && reason == moveList[i] + " already exists.")
    {
      var seen: set<string> := {};
      for k := 0 to |moveList|
        invariant seen == set j | 0 <= j < k :: moveList[j]
        invariant NoDuplicates(moveList[..k])
      {
        if moveList[k] in seen {
          assert moveList[k] in moveList[..k];
          return false, moveList[k] + " already exists.";
        }
        seen := seen + {moveList[k]};
      }
      assert moveList[..|moveList|] == moveList;
      return true, "Valid.";
    }

    /** Pushes a move, its check form and its mate forms. */
    method PushAnnotated(base: string)
      modifies this
      ensures moveList == old(moveList) + Annotated(base)
    {
      moveList := moveList + [base];
      moveList := moveList + [base + CHECK];
      for k := 0 to |CHECK_MATE|
        invariant moveList == old(moveList) + [base, base + CHECK] + Each(base, k, MateForm)
      {
        moveList := moveList + [base + CHECK_MATE[k]];
      }
    }

    /** Pushes the promotion forms of a pawn move to `base` for one
        promotion piece. */
    method PushPromotionRow(base: string, i: nat)
      requires i < |PROMOTION_PIECES|
      modifies this
      ensures moveList == old(moveList) + Row(base, i, |PROMOTION_NOTATION|, PromotionForms)
    {
      ghost var start := moveList;
      ghost var cell := PromotionForms;
      for j := 0 to |PROMOTION_NOTATION|
        invariant moveList == start + Row(base, i, j, cell)
      {
        ghost var before := moveList;
        PushAnnotated(base + PROMOTION_NOTATION[j] + PROMOTION_PIECES[i]);
        RowPush(start, base, i, j, cell, before, moveList);
      }
    }

    /** Pushes the promotion forms of a pawn move to `base`. */
    method PushPromotions(base: string)
      modifies this
      ensures moveList == old(moveList) + Promotions(base)
    {
      ghost var start := moveList;
      ghost var cell := PromotionForms;
      for i := 0 to |PROMOTION_PIECES|
        invariant moveList == start + Grid(base, i, |PROMOTION_NOTATION|, cell)
      {
        ghost var before := moveList;
        PushPromotionRow(base, i);
        GridPush(start, base, i, |PROMOTION_NOTATION|, cell, before, moveList);
      }
    }

    /** The pawn moves to every square of file `i`. */
    method PushPawnFile(i: nat)
      requires i < |FILES|
      modifies this
      ensures moveList == old(moveList) + Row((), i, |RANKS|, PawnSquare)
    {
      ghost var start := moveList;
      ghost var cell := PawnSquare;
      for j := 0 to |RANKS|
        invariant moveList == start + Row((), i, j, cell)
      {
        ghost var before := moveList;
        if RANKS[j] == "1" || RANKS[j] == "8" {
          PushPromotions(FILES[i] + RANKS[j]);
        } else {
          PushAnnotated(FILES[i] + RANKS[j]);
        }
        RowPush(start, (), i, j, cell, before, moveList);
      }
    }

    /** `generate_pawn_moves`. */
    method GeneratePawnMoves()
      modifies this
      ensures moveList == old(moveList) + PawnMoves()
    {
      ghost var start := moveList;
      ghost var cell := PawnSquare;
      for i := 0 to |FILES|
        invariant moveList == start + Grid((), i, |RANKS|, cell)
      {
        ghost var before := moveList;
        PushPawnFile(i);
        GridPush(start, (), i, |RANKS|, cell, before, moveList);
      }
    }

    /** Pushes the captures from file `f` to rank `r` with `tail`: the
        left and right captures with their check forms, then for each mate
        sign the left and right captures with it. */
    method PushCaptureForms(f: nat, r: nat, tail: string)
      requires f < 8 && r < 8
      modifies this
      ensures moveList == old(moveList) + CaptureForms(f, r, tail)
    {
      PushCheckSides(f, r, tail);
      ghost var start := moveList;
      ghost var item := MateSides;
      assert start == old(moveList) + CheckSides(f, r, tail);
      for k := 0 to |CHECK_MATE|
        invariant moveList == start + Each((f, r, tail), k, item)
      {
        ghost var before := moveList;
        PushSides(f, r, tail + CHECK_MATE[k]);
        EachPush(start, (f, r, tail), k, item, before, moveList);
      }
      AppendAssoc(old(moveList), CheckSides(f, r, tail), Each((f, r, tail), |CHECK_MATE|, item));
    }

    /** The left capture and its check form unless on the a-file, then the
        right ones unless on the h-file. */
    method PushCheckSides(f: nat, r: nat, tail: string)
      requires f < 8 && r < 8
      modifies this
      ensures moveList == old(moveList) + CheckSides(f, r, tail)
    {
      EdgeFiles(f);
      if FILES[f] != "a" {
        moveList := moveList + [LeftCapture(f, r) + tail, LeftCapture(f, r) + tail + CHECK];
      }
      if FILES[f] != "h" {
        moveList := moveList + [RightCapture(f, r) + tail, RightCapture(f, r) + tail + CHECK];
      }
    }

    /** The left capture unless on the a-file, then the right one unless on
        the h-file. */
    method PushSides(f: nat, r: nat, tail: string)
      requires f < 8 && r < 8
      modifies this
      ensures moveList == old(moveList) + Sides(f, r, tail)
    {
      EdgeFiles(f);
      if FILES[f] != "a" {
        moveList := moveList + [LeftCapture(f, r) + tail];
      }
      if FILES[f] != "h" {
        moveList := moveList + [RightCapture(f, r) + tail];
      }
    }

    /** The promoting captures from file `f` to rank `r` for one promotion piece. */
    method PushCapturePromotionRow(f: nat, r: nat, i: nat)
      requires f < 8 && r < 8 && i < |PROMOTION_PIECES|
      modifies this
      ensures moveList == old(moveList) + Row((f, r), i, |PROMOTION_NOTATION|, CapturePromotionForms)
    {
      ghost var start := moveList;
      ghost var cell := CapturePromotionForms;
      for j := 0 to |PROMOTION_NOTATION|
        invariant moveList == start + Row((f, r), i, j, cell)
      {
        ghost var before := moveList;
        PushCaptureForms(f, r, PROMOTION_NOTATION[j] + PROMOTION_PIECES[i]);
        RowPush(start, (f, r), i, j, cell, before, moveList);
      }
    }

    /** Pushes the promoting captures from file `f` to rank `r`. */
    method PushCapturePromotions(f: nat, r: nat)
      requires f < 8 && r < 8
      modifies this
      ensures moveList == old(moveList) + Grid((f, r), |PROMOTION_PIECES|, |PROMOTION_NOTATION|, CapturePromotionForms)
    {
      ghost var start := moveList;
      ghost var cell := CapturePromotionForms;
      for i := 0 to |PROMOTION_PIECES|
        invariant moveList == start + Grid((f, r), i, |PROMOTION_NOTATION|, cell)
      {
        ghost var before := moveList;
        PushCapturePromotionRow(f, r, i);
        GridPush(start, (f, r), i, |PROMOTION_NOTATION|, cell, before, moveList);
      }
    }

    /** The pawn captures from file `i` to every rank. */
    method PushPawnCaptureFile(i: nat)
      requires i < |FILES|
      modifies this
      ensures moveList == old(moveList) + Row((), i, |RANKS|, PawnCaptureSquare)
    {
      ghost var start := moveList;
      ghost var cell := PawnCaptureSquare;
      for j := 0 to |RANKS|
        invariant moveList == start + Row((), i, j, cell)
      {
        ghost var before := moveList;
        if RANKS[j] == "1" || RANKS[j] == "8" {
          PushCapturePromotions(i, j);
        } else {
          PushCaptureForms(i, j, "");
        }
        RowPush(start, (), i, j, cell, before, moveList);
      }
    }

    /** `generate_pawn_captures`. */
    method GeneratePawnCaptures()
      modifies this
      ensures moveList == old(moveList) + PawnCaptures()
    {
      ghost var start := moveList;
      ghost var cell := PawnCaptureSquare;
      for i := 0 to |FILES|
        invariant moveList == start + Grid((), i, |RANKS|, cell)
      {
        ghost var before := moveList;
        PushPawnCaptureFile(i);
        GridPush(start, (), i, |RANKS|, cell, before, moveList);
      }
    }

    /** The moves of a piece to every square of file `i`. */
    method PushPieceFile(prefix: string, i: nat)
      requires i < |FILES|
      modifies this
      ensures moveList == old(moveList) + Row(prefix, i, |RANKS|, PieceSquare)
    {
      ghost var start := moveList;
      ghost var cell := PieceSquare;
      for j := 0 to |RANKS|
        invariant moveList == start + Row(prefix, i, j, cell)
      {
        ghost var before := moveList;
        PushAnnotated(prefix + FILES[i] + RANKS[j]);
        RowPush(start, prefix, i, j, cell, before, moveList);
      }
    }

    /** The loop shared by the piece generators: every square, with
        `prefix` in front. */
    method PushPieceSquares(prefix: string)
      modifies this
      ensures moveList == old(moveList) + PieceMoves(prefix)
    {
      ghost var start := moveList;
      ghost var cell := PieceSquare;
      for i := 0 to |FILES|
        invariant moveList == start + Grid(prefix, i, |RANKS|, cell)
      {
        ghost var before := moveList;
        PushPieceFile(prefix, i);
        GridPush(start, prefix, i, |RANKS|, cell, before, moveList);
      }
    }

    /** `generate_king_moves`. */
    method GenerateKingMoves()
      modifies this
      ensures moveList == old(moveList) + PieceMoves("K")
    {
      PushPieceSquares("K");
    }

    /** `generate_king_captures`. */
    method GenerateKingCaptures()
      modifies this
      ensures moveList == old(moveList) + PieceMoves("K" + CAPTURE)
    {
      PushPieceSquares("K" + CAPTURE);
    }

    /** `generate_queen_moves`. */
    method GenerateQueenMoves()
      modifies this
      ensures moveList == old(moveList) + PieceMoves("Q")
    {
      PushPieceSquares("Q");
    }

    /** `generate_queen_captures`. */
    method GenerateQueenCaptures()
      modifies this
      ensures moveList == old(moveList) + PieceMoves("Q" + CAPTURE)
    {
      PushPieceSquares("Q" + CAPTURE);
    }

    /** `generate_rook_moves`. */
    method GenerateRookMoves()
      modifies this
      ensures moveList == old(moveList) + PieceMoves("R")
    {
      PushPieceSquares("R");
    }

    /** `generate_rook_captures`. */
    method GenerateRookCaptures()
      modifies this
      ensures moveList == old(moveList) + PieceMoves("R" + CAPTURE)
    {
      PushPieceSquares("R" + CAPTURE);
    }

    /** `generate_bishop_moves`. */
    method GenerateBishopMoves()
      modifies this
      ensures moveList == old(moveList) + PieceMoves("B")
    {
      PushPieceSquares("B");
    }

    /** `generate_bishop_captures`. */
    method GenerateBishopCaptures()
      modifies this
      ensures moveList == old(moveList) + PieceMoves("B" + CAPTURE)
    {
      PushPieceSquares("B" + CAPTURE);
    }

    /** `generate_knight_moves`. */
    method GenerateKnightMoves()
      modifies this
      ensures moveList == old(moveList) + PieceMoves("N")
    {
      PushPieceSquares("N");
    }

    /** `generate_knight_captures`. */
    method GenerateKnightCaptures()
      modifies this
      ensures moveList == old(moveList) + PieceMoves("N" + CAPTURE)
    {
      PushPieceSquares("N" + CAPTURE);
    }

    /** `generate_castle_moves`. */
    method GenerateCastleMoves()
      modifies this
      ensures moveList == old(moveList) + CastleMoves()
    {
      for k := 0 to |CASTLE|
        invariant moveList == old(moveList) + Each((), k, CastleForms)
      {
        PushAnnotated(CASTLE[k]);
      }
    }

    /** One promotion pass of `generate_square_to_square_moves`. */
    method PushPromotedMoveForms(base: string, i: nat, j: nat)
      requires i < |PROMOTION_PIECES| && j < |PROMOTION_NOTATION|
      modifies this
      ensures moveList == old(moveList) + PromotedMoveForms(base, i, j)
    {
      var p := PROMOTION_NOTATION[j] + PROMOTION_PIECES[i];
      moveList := moveList + [base, base + p, base + CHECK, base + p + CHECK];
      for k := 0 to |CHECK_MATE|
        invariant moveList == old(moveList) + [base, base + p, base + CHECK, base + p + CHECK]
          + Each((base, p), k, PromotedMates)
      {
        moveList := moveList + [base + CHECK_MATE[k], base + p + CHECK_MATE[k]];
      }
    }

    /** One promotion pass of `generate_square_to_square_captures`. */
    method PushPromotedCaptureForms(base: string, i: nat, j: nat)
      requires i < |PROMOTION_PIECES| && j < |PROMOTION_NOTATION|
      modifies this
      ensures moveList == old(moveList) + PromotedCaptureForms(base, i, j)
    {
      var p := PROMOTION_NOTATION[j] + PROMOTION_PIECES[i];
      moveList := moveList + [base, base + p, base + p + CHECK, base + CHECK];
      for k := 0 to |CHECK_MATE|
        invariant moveList == old(moveList) + [base, base + p, base + p + CHECK, base + CHECK]
          + Each((base, p), k, PromotedCaptureMates)
      {
        moveList := moveList + [base + p + CHECK_MATE[k], base + CHECK_MATE[k]];
      }
    }

    /** The promotion passes of a square-to-square move for one promotion piece. */
    method PushPromotedMoveRow(base: string, i: nat)
      requires i < |PROMOTION_PIECES|
      modifies this
      ensures moveList == old(moveList) + Row(base, i, |PROMOTION_NOTATION|, PromotedMoveForms)
    {
      ghost var start := moveList;
      ghost var cell := PromotedMoveForms;
      for j := 0 to |PROMOTION_NOTATION|
        invariant moveList == start + Row(base, i, j, cell)
      {
        ghost var before := moveList;
        PushPromotedMoveForms(base, i, j);
        RowPush(start, base, i, j, cell, before, moveList);
      }
    }

    /** The promotion passes of a square-to-square move. */
    method PushPromotedMoves(base: string)
      modifies this
      ensures moveList == old(moveList) + Grid(base, |PROMOTION_PIECES|, |PROMOTION_NOTATION|, PromotedMoveForms)
    {
      ghost var start := moveList;
      ghost var cell := PromotedMoveForms;
      for i := 0 to |PROMOTION_PIECES|
        invariant moveList == start + Grid(base, i, |PROMOTION_NOTATION|, cell)
      {
        ghost var before := moveList;
        PushPromotedMoveRow(base, i);
        GridPush(start, base, i, |PROMOTION_NOTATION|, cell, before, moveList);
      }
    }

    /** The promotion passes of a square-to-square capture for one promotion piece. */
    method PushPromotedCaptureRow(base: string, i: nat)
      requires i < |PROMOTION_PIECES|
      modifies this
      ensures moveList == old(moveList) + Row(base, i, |PROMOTION_NOTATION|, PromotedCaptureForms)
    {
      ghost var start := moveList;
      ghost var cell := PromotedCaptureForms;
      for j := 0 to |PROMOTION_NOTATION|
        invariant moveList == start + Row(base, i, j, cell)
      {
        ghost var before := moveList;
        PushPromotedCaptureForms(base, i, j);
        RowPush(start, base, i, j, cell, before, moveList);
      }
    }

    /** The promotion passes of a square-to-square capture. */
    method PushPromotedCaptures(base: string)
      modifies this
      ensures moveList == old(moveList) + Grid(base, |PROMOTION_PIECES|, |PROMOTION_NOTATION|, PromotedCaptureForms)
    {
      ghost var start := moveList;
      ghost var cell := PromotedCaptureForms;
      for i := 0 to |PROMOTION_PIECES|
        invariant moveList == start + Grid(base, i, |PROMOTION_NOTATION|, cell)
      {
        ghost var before := moveList;
        PushPromotedCaptureRow(base, i);
        GridPush(start, base, i, |PROMOTION_NOTATION|, cell, before, moveList);
      }
    }

    /** The body of the two inner loops of `generate_square_to_square_moves`
        for one pair of squares. */
    method PushPairMoves(fa: nat, ra: nat, fb: nat, rb: nat)
      requires fa < 8 && ra < 8 && fb < 8 && rb < 8
      modifies this
      ensures moveList == old(moveList) + PairMoves((fa, ra), fb, rb)
    {
      var base := PairText(fa, ra, MOVE_NOTATION, fb, rb);
      if MoveIsValid(fa, ra, fb, rb) {
        if MoveIsValidPromotion(fa, ra, fb, rb) {
          PushPromotedMoves(base);
        } else {
          PushAnnotated(base);
        }
      }
    }

    /** The same for `generate_square_to_square_captures`. */
    method PushPairCaptures(fa: nat, ra: nat, fb: nat, rb: nat)
      requires fa < 8 && ra < 8 && fb < 8 && rb < 8
      modifies this
      ensures moveList == old(moveList) + PairCaptures((fa, ra), fb, rb)
    {
      var base := PairText(fa, ra, CAPTURE, fb, rb);
      if MoveIsValid(fa, ra, fb, rb) {
        if MoveIsValidPromotion(fa, ra, fb, rb) {
          PushPromotedCaptures(base);
        } else {
          PushAnnotated(base);
        }
      }
    }

    /** The moves from one square to every square of file `i`. */
    method PushSquareMoveFile(fa: nat, ra: nat, i: nat)
      requires fa < 8 && ra < 8 && i < |FILES|
      modifies this
      ensures moveList == old(moveList) + Row((fa, ra), i, |RANKS|, PairMoves)
    {
      ghost var start := moveList;
      ghost var cell := PairMoves;
      for j := 0 to |RANKS|
        invariant moveList == start + Row((fa, ra), i, j, cell)
      {
        ghost var before := moveList;
        PushPairMoves(fa, ra, i, j);
        RowPush(start, (fa, ra), i, j, cell, before, moveList);
      }
    }

    /** Every move from one square. */
    method PushSquareMoves(fa: nat, ra: nat)
      requires fa < 8 && ra < 8
      modifies this
      ensures moveList == old(moveList) + SquareMoves((), fa, ra)
    {
      ghost var start := moveList;
      ghost var cell := PairMoves;
      for i := 0 to |FILES|
        invariant moveList == start + Grid((fa, ra), i, |RANKS|, cell)
      {
        ghost var before := moveList;
        PushSquareMoveFile(fa, ra, i);
        GridPush(start, (fa, ra), i, |RANKS|, cell, before, moveList);
      }
    }

    /** The captures from one square to every square of file `i`. */
    method PushSquareCaptureFile(fa: nat, ra: nat, i: nat)
      requires fa < 8 && ra < 8 && i < |FILES|
      modifies this
      ensures moveList == old(moveList) + Row((fa, ra), i, |RANKS|, PairCaptures)
    {
      ghost var start := moveList;
      ghost var cell := PairCaptures;
      for j := 0 to |RANKS|
        invariant moveList == start + Row((fa, ra), i, j, cell)
      {
        ghost var before := moveList;
        PushPairCaptures(fa, ra, i, j);
        RowPush(start, (fa, ra), i, j, cell, before, moveList);
      }
    }

    /** Every capture from one square. */
    method PushSquareCaptures(fa: nat, ra: nat)
      requires fa < 8 && ra < 8
      modifies this
      ensures moveList == old(moveList) + SquareCaptures((), fa, ra)
    {
      ghost var start := moveList;
      ghost var cell := PairCaptures;
      for i := 0 to |FILES|
        invariant moveList == start + Grid((fa, ra), i, |RANKS|, cell)
      {
        ghost var before := moveList;
        PushSquareCaptureFile(fa, ra, i);
        GridPush(start, (fa, ra), i, |RANKS|, cell, before, moveList);
      }
    }

    /** The moves from every square of file `i`. */
    method PushSquareToSquareFile(i: nat)
      requires i < |FILES|
      modifies this
      ensures moveList == old(moveList) + Row((), i, |RANKS|, SquareMoves)
    {
      ghost var start := moveList;
      ghost var cell := SquareMoves;
      for j := 0 to |RANKS|
        invariant moveList == start + Row((), i, j, cell)
      {
        ghost var before := moveList;
        PushSquareMoves(i, j);
        RowPush(start, (), i, j, cell, before, moveList);
      }
    }

    /** `generate_square_to_square_moves`. */
    method GenerateSquareToSquareMoves()
      modifies this
      ensures moveList == old(moveList) + SquareToSquareMoves()
    {
      ghost var start := moveList;
      ghost var cell := SquareMoves;
      for i := 0 to |FILES|
        invariant moveList == start + Grid((), i, |RANKS|, cell)
      {
        ghost var before := moveList;
        PushSquareToSquareFile(i);
        GridPush(start, (), i, |RANKS|, cell, before, moveList);
      }
    }

    /** The captures from every square of file `i`. */
    method PushSquareToSquareCaptureFile(i: nat)
      requires i < |FILES|
      modifies this
      ensures moveList == old(moveList) + Row((), i, |RANKS|, SquareCaptures)
    {
      ghost var start := moveList;
      ghost var cell := SquareCaptures;
      for j := 0 to |RANKS|
        invariant moveList == start + Row((), i, j, cell)
      {
        ghost var before := moveList;
        PushSquareCaptures(i, j);
        RowPush(start, (), i, j, cell, before, moveList);
      }
    }

    /** `generate_square_to_square_captures`. */
    method GenerateSquareToSquareCaptures()
      modifies this
      ensures moveList == old(moveList) + SquareToSquareCaptures()
    {
      ghost var start := moveList;
      ghost var cell := SquareCaptures;
      for i := 0 to |FILES|
        invariant moveList == start + Grid((), i, |RANKS|, cell)
      {
        ghost var before := moveList;
        PushSquareToSquareCaptureFile(i);
        GridPush(start, (), i, |RANKS|, cell, before, moveList);
      }
    }

    /** The generators in the order `generate_move_list` calls them. */
    method GenerateAll()
      modifies this
      ensures moveList == old(moveList) + AllMoves()
    {
      ghost var start := moveList;
      GeneratePawnLists();
      ghost var pushed := PawnLists();
      GeneratePieceLists();
      AppendAssoc(start, pushed, PieceLists());
      pushed := pushed + PieceLists();
      GenerateCastleMoves();
      AppendAssoc(start, pushed, CastleMoves());
      pushed := pushed + CastleMoves();
      GenerateSquareLists();
      AppendAssoc(start, pushed, SquareLists());
      pushed := pushed + SquareLists();
    }

    /** The two pawn generators. */
    method GeneratePawnLists()
      modifies this
      ensures moveList == old(moveList) + PawnLists()
    {
      ghost var start := moveList;
      GeneratePawnMoves();
      ghost var pushed := PawnMoves();
      GeneratePawnCaptures();
      AppendAssoc(start, pushed, PawnCaptures());
      pushed := pushed + PawnCaptures();
    }

    /** The ten piece generators. */
    method GeneratePieceLists()
      modifies this
      ensures moveList == old(moveList) + PieceLists()
    {
      ghost var start := moveList;
      GenerateKingMoves();
      ghost var pushed := PieceMoves("K");
      GenerateKingCaptures();
      AppendAssoc(start, pushed, PieceMoves("K" + CAPTURE));
      pushed := pushed + PieceMoves("K" + CAPTURE);
      GenerateQueenMoves();
      AppendAssoc(start, pushed, PieceMoves("Q"));
      pushed := pushed + PieceMoves("Q");
      GenerateQueenCaptures();
      AppendAssoc(start, pushed, PieceMoves("Q" + CAPTURE));
      pushed := pushed + PieceMoves("Q" + CAPTURE);
      GenerateRookMoves();
      AppendAssoc(start, pushed, PieceMoves("R"));
      pushed := pushed + PieceMoves("R");
      GenerateRookCaptures();
      AppendAssoc(start, pushed, PieceMoves("R" + CAPTURE));
      pushed := pushed + PieceMoves("R" + CAPTURE);
      GenerateBishopMoves();
      AppendAssoc(start, pushed, PieceMoves("B"));
      pushed := pushed + PieceMoves("B");
      GenerateBishopCaptures();
      AppendAssoc(start, pushed, PieceMoves("B" + CAPTURE));
      pushed := pushed + PieceMoves("B" + CAPTURE);
      GenerateKnightMoves();
      AppendAssoc(start, pushed, PieceMoves("N"));
      pushed := pushed + PieceMoves("N");
      GenerateKnightCaptures();
      AppendAssoc(start, pushed, PieceMoves("N" + CAPTURE));
      pushed := pushed + PieceMoves("N" + CAPTURE);
    }

    /** The two square-to-square generators. */
    method GenerateSquareLists()
      modifies this
      ensures moveList == old(moveList) + SquareLists()
    {
      ghost var start := moveList;
      GenerateSquareToSquareMoves();
      ghost var pushed := SquareToSquareMoves();
      GenerateSquareToSquareCaptures();
      AppendAssoc(start, pushed, SquareToSquareCaptures());
      pushed := pushed + SquareToSquareCaptures();
    }

    /** `generate_move_list`: every generator in turn, then `sort` and
        `dedup`, which leave the list strictly ascending and without
        duplicates. */
    static method GenerateMoveList() returns (g: MoveGenerator)
      ensures fresh(g)
      ensures g.moveList == GeneratedList()
      ensures StrictlySorted(g.moveList) && NoDuplicates(g.moveList)
    {
      g := new MoveGenerator();
      g.GenerateAll();
      ghost var all := g.moveList;
      assert all == AllMoves();
      g.moveList := Sort(g.moveList);
      g.moveList := Dedup(g.moveList);
      SortDedup(all);
    }
  }
}
