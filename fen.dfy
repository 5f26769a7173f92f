// The `Fen` record joiners of lib/chui_core/src/fen.rs and
// crates/chui_core/src/modules/fen.rs: a FEN record is the piece placement
// followed by five fields, separated by single spaces (section 16.1.3 of the
// PGN Standard). X-FEN swaps in its own en passant field; Shredder-FEN is
// written out as a copy of FEN. The piece placement of the crates snapshot
// is in module BoardFen; the lib snapshot prints a fixed placeholder.

module Fen {
  import opened Text
  import opened FenFields

  /** `get_board_fen` of the lib snapshot. */
  const BOARD_FEN_PLACEHOLDER := "get_board_fen() is not implemented"

  /** `get_fen`. */
  function GetFen(placement: string, f: FieldStrings): (r: string)
  {
    placement + " " + f.toMove + " " + f.castle + " " + f.enPassant + " "
    + f.halfMoveClock + " " + f.fullMoveCounter
  }

  /** `get_shredder_fen`, a line-for-line copy of `get_fen`. */
  function GetShredderFen(placement: string, f: FieldStrings): (r: string)
  {
    placement + " " + f.toMove + " " + f.castle + " " + f.enPassant + " "
    + f.halfMoveClock + " " + f.fullMoveCounter
  }

  /** `get_x_fen`: the X-FEN en passant field in fourth place. */
  function GetXFen(placement: string, f: FieldStrings): (r: string)
  {
    placement + " " + f.toMove + " " + f.castle + " " + f.xEnPassant + " "
    + f.halfMoveClock + " " + f.fullMoveCounter
  }

  /** The `get_fen` builders of the game and engine modules: the three
      records on three labelled lines. */
  function GetFenLines(placement: string, f: FieldStrings): (r: string)
  {
    "FEN: " + GetFen(placement, f) + "\n" + "X-FEN: " + GetXFen(placement, f)
    + "\n" + "Shredder-FEN: " + GetShredderFen(placement, f)
  }

  /** A FEN record is its six fields joined by single spaces, so splitting
      it at the spaces gives the fields back when none holds a space. */
  lemma FenSplitsIntoFields(placement: string, f: FieldStrings)
    requires ' ' !in placement && ' ' !in f.toMove && ' ' !in f.castle
    requires ' ' !in f.enPassant && ' ' !in f.halfMoveClock && ' ' !in f.fullMoveCounter
    ensures Split(GetFen(placement, f), ' ') ==
      [placement, f.toMove, f.castle, f.enPassant, f.halfMoveClock, f.fullMoveCounter]
  {
    var parts := [placement, f.toMove, f.castle, f.enPassant, f.halfMoveClock, f.fullMoveCounter];
    JoinSnoc([placement], f.toMove, ' ');
    JoinSnoc([placement, f.toMove], f.castle, ' ');
    JoinSnoc([placement, f.toMove, f.castle], f.enPassant, ' ');
    JoinSnoc([placement, f.toMove, f.castle, f.enPassant], f.halfMoveClock, ' ');
    JoinSnoc([placement, f.toMove, f.castle, f.enPassant, f.halfMoveClock], f.fullMoveCounter, ' ');
    assert [placement] + [f.toMove] == [placement, f.toMove];
    assert [placement, f.toMove] + [f.castle] == [placement, f.toMove, f.castle];
    assert [placement, f.toMove, f.castle] + [f.enPassant] == [placement, f.toMove, f.castle, f.enPassant];
    assert [placement, f.toMove, f.castle, f.enPassant] + [f.halfMoveClock]
      == [placement, f.toMove, f.castle, f.enPassant, f.halfMoveClock];
    assert [placement, f.toMove, f.castle, f.enPassant, f.halfMoveClock] + [f.fullMoveCounter] == parts;
    SplitJoin(parts, ' ');
  }

  /** Shredder-FEN is FEN, and X-FEN differs from it in the en passant
      field only: with the same field in both, the three agree. */
  lemma FenVariants(placement: string, f: FieldStrings)
    ensures GetShredderFen(placement, f) == GetFen(placement, f)
    ensures GetXFen(placement, f) == GetFen(placement, f.(enPassant := f.xEnPassant))
    ensures f.xEnPassant == f.enPassant ==> GetXFen(placement, f) == GetFen(placement, f)
  {
  }

  /** The game builders' output is three lines, labelled in order, each
      holding one record, when nothing in the records breaks a line. */
  lemma FenLinesSplit(placement: string, f: FieldStrings)
    requires '\n' !in GetFen(placement, f) && '\n' !in GetXFen(placement, f)
    ensures Split(GetFenLines(placement, f), '\n') ==
      ["FEN: " + GetFen(placement, f), "X-FEN: " + GetXFen(placement, f),
       "Shredder-FEN: " + GetShredderFen(placement, f)]
  {
    FenVariants(placement, f);
    LabelledLines(GetFen(placement, f), GetXFen(placement, f), GetShredderFen(placement, f));
  }

  lemma LabelledLines(a: string, b: string, c: string)
    requires '\n' !in a && '\n' !in b && '\n' !in c
    ensures Split("FEN: " + a + "\n" + "X-FEN: " + b + "\n" + "Shredder-FEN: " + c, '\n') ==
      ["FEN: " + a, "X-FEN: " + b, "Shredder-FEN: " + c]
  {
    var l1, l2, l3 := "FEN: ", "X-FEN: ", "Shredder-FEN: ";
    assert '\n' !in l1 && '\n' !in l2 && '\n' !in l3;
    NotInConcat(l1, a, '\n');
    NotInConcat(l2, b, '\n');
    NotInConcat(l3, c, '\n');
    Regroup(l1, a, l2, b, l3, c, "\n");
    ThreeLines(l1 + a, l2 + b, l3 + c);
  }

  lemma Regroup(p: string, a: string, q: string, b: string, r: string, c: string, n: string)
    ensures p + a + n + q + b + n + r + c == (p + a) + n + (q + b) + n + (r + c)
  {
  }

  lemma ThreeLines(x: string, y: string, z: string)
    requires '\n' !in x && '\n' !in y && '\n' !in z
    ensures Split(x + "\n" + y + "\n" + z, '\n') == [x, y, z]
  {
    JoinSnoc([x], y, '\n');
    JoinSnoc([x, y], z, '\n');
    assert [x] + [y] == [x, y];
    assert [x, y] + [z] == [x, y, z];
    SplitJoin([x, y, z], '\n');
  }

  /** A game's FEN record from its state: six space-separated fields, and
      the X-FEN and Shredder-FEN records are the same string. */
  lemma GameFenRecord(placement: string, s: FenState)
    requires NoSeparator(placement)
    ensures Split(GetFen(placement, Fields(s)), ' ') ==
      [placement, ToMove(s.toMove), Fields(s).castle, Fields(s).enPassant,
       NatToString(s.halfMoveClock), NatToString(s.moveCounter)]
    ensures GetXFen(placement, Fields(s)) == GetFen(placement, Fields(s))
    ensures GetShredderFen(placement, Fields(s)) == GetFen(placement, Fields(s))
  {
    var f := Fields(s);
    FieldsHaveNoSeparators(s);
    FenSplitsIntoFields(placement, f);
  }

  /** The lib snapshot's placeholder placement itself holds spaces, so its
      records split into more than six fields. */
  lemma PlaceholderBreaksFields(s: FenState)
    ensures ' ' in BOARD_FEN_PLACEHOLDER
    ensures GetFen(BOARD_FEN_PLACEHOLDER, Fields(s))[..14] == "get_board_fen("
    ensures GetFen(BOARD_FEN_PLACEHOLDER, Fields(s))[15] == ' '
  {
    var r := GetFen(BOARD_FEN_PLACEHOLDER, Fields(s));
    FenStartsWithPlacement(BOARD_FEN_PLACEHOLDER, Fields(s));
    assert BOARD_FEN_PLACEHOLDER[15] == ' ';
    assert r[..14] == BOARD_FEN_PLACEHOLDER[..14];
  }

  /** A FEN record starts with its placement field. */
  lemma FenStartsWithPlacement(placement: string, f: FieldStrings)
    ensures |GetFen(placement, f)| > |placement|
    ensures GetFen(placement, f)[..|placement|] == placement
  {
    var tail := " " + f.toMove + " " + f.castle + " " + f.enPassant + " " + f.halfMoveClock + " " + f.fullMoveCounter;
    assert GetFen(placement, f) == placement + tail;
  }
}
