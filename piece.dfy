// Pieces of the current library: the colour and kind enums, the tables the
// rest of the library reads from them (sprite index, move range, initial
// squares), the `Piece` value, its letter and glyph forms and the parsers
// from a letter or glyph.
//
// `Piece` is a `Copy` value in the library; its setters are modelled as
// functions returning the updated value.

module Piece {
  import opened Errors
  import opened Coordinate

  datatype Color = White | Black
  {
    function Opposite(): (c: Color)
      ensures c != this
    {
      if White? then Black else White
    }

    /** The `Debug` text of the colour. */
    function Name(): string
    {
      if White? then "White" else "Black"
    }
  }

  datatype PieceKind = Pawn | Knight | Bishop | Rook | Queen | King
  {
    /** The `Debug` text of the kind. */
    function Name(): string
    {
      match this
      case Pawn => "Pawn"
      case Knight => "Knight"
      case Bishop => "Bishop"
      case Rook => "Rook"
      case Queen => "Queen"
      case King => "King"
    }
  }

  /** `PieceKind::get_sprite_index`: White Pawn..King are 2..7, Black 8..13. */
  function SpriteIndex(kind: PieceKind, color: Color): nat
  {
    match (kind, color)
    case (King, Black) => 13
    case (Queen, Black) => 12
    case (Rook, Black) => 11
    case (Bishop, Black) => 10
    case (Knight, Black) => 9
    case (Pawn, Black) => 8
    case (King, White) => 7
    case (Queen, White) => 6
    case (Rook, White) => 5
    case (Bishop, White) => 4
    case (Knight, White) => 3
    case (Pawn, White) => 2
  }

  /** The sprite indices are 2..13, White below Black, one per kind and colour. */
  lemma SpriteIndexTable(kind: PieceKind, color: Color, kind2: PieceKind, color2: Color)
    ensures color == White ==> 2 <= SpriteIndex(kind, color) <= 7
    ensures color == Black ==> 8 <= SpriteIndex(kind, color) <= 13
    ensures SpriteIndex(kind, color) == SpriteIndex(kind2, color2) ==> kind == kind2 && color == color2
  {
  }

  /** `PieceKind::get_move_max`: how many squares a piece may travel. */
  function MoveMax(kind: PieceKind): (n: nat)
    ensures kind == Pawn ==> n == 2
    ensures kind == Knight || kind == King ==> n == 1
    ensures kind == Bishop || kind == Rook || kind == Queen ==> n == 7
  {
    match kind
    case Pawn => 2
    case Knight | King => 1
    case Bishop | Rook | Queen => 7
  }

  /** `PieceKind::on_initial_square`: the coordinate is compared with the
      named starting squares through `PartialEq<(char, u8)>`. */
  predicate OnInitialSquare(kind: PieceKind, color: Color, coord: Coord)
  {
    match (kind, color)
    case (King, White) => EqCharU8(coord, 'e', 1)
    case (Queen, White) => EqCharU8(coord, 'd', 1)
    case (Rook, White) => EqCharU8(coord, 'a', 1) || EqCharU8(coord, 'h', 1)
    case (Bishop, White) => EqCharU8(coord, 'c', 1) || EqCharU8(coord, 'f', 1)
    case (Knight, White) => EqCharU8(coord, 'b', 1) || EqCharU8(coord, 'g', 1)
    case (Pawn, White) => coord.rank == 1
    case (King, Black) => EqCharU8(coord, 'e', 8)
    case (Queen, Black) => EqCharU8(coord, 'd', 8)
    case (Rook, Black) => EqCharU8(coord, 'a', 8) || EqCharU8(coord, 'h', 8)
    case (Bishop, Black) => EqCharU8(coord, 'c', 8) || EqCharU8(coord, 'f', 8)
    case (Knight, Black) => EqCharU8(coord, 'b', 8) || EqCharU8(coord, 'g', 8)
    case (Pawn, Black) => coord.rank == 6
  }

  /** The files on which the back-row pieces of a kind start, in index form. */
  function InitialFiles(kind: PieceKind): set<nat>
  {
    match kind
    case King => {4}
    case Queen => {3}
    case Rook => {0, 7}
    case Bishop => {2, 5}
    case Knight => {1, 6}
    case Pawn => {0, 1, 2, 3, 4, 5, 6, 7}
  }

  /** The rank index on which the pieces of a kind and colour start. */
  function InitialRank(kind: PieceKind, color: Color): nat
  {
    match (kind, color)
    case (Pawn, White) => 1
    case (Pawn, Black) => 6
    case (_, White) => 0
    case (_, Black) => 7
  }

  /** The initial-square table in index terms: the starting rank of the
      colour and one of the starting files of the kind. */
  lemma OnInitialSquareIndices(kind: PieceKind, color: Color, coord: Coord)
    ensures OnInitialSquare(kind, color, coord)
        <==> coord.rank == InitialRank(kind, color) && coord.file in InitialFiles(kind)
  {
  }

  datatype Piece = Piece(kind: PieceKind, color: Color, coord: Coord, onInitialSquare: bool)
  {
    /** `has_moved`. */
    predicate HasMoved() { !onInitialSquare }

    /** `get_sprite_index`. */
    function Sprite(): nat { SpriteIndex(kind, color) }

    /** `get_move_max`. */
    function Max(): nat { MoveMax(kind) }

    predicate IsSameColor(other: Piece) { color == other.color }

    predicate IsSameKind(other: Piece) { kind == other.kind }

    /** `is_same_piece`: same kind and same colour; the square is ignored. */
    predicate IsSamePiece(other: Piece) { IsSameKind(other) && IsSameColor(other) }
  }

  /** `Piece::new`: caches whether the piece stands on one of its starting squares. */
  function New(kind: PieceKind, color: Color, coord: Coord): (p: Piece)
    ensures p.kind == kind && p.color == color && p.coord == coord
    ensures p.HasMoved() <==> !OnInitialSquare(kind, color, coord)
  {
    Piece(kind, color, coord, OnInitialSquare(kind, color, coord))
  }

  /** `white_pawn` .. `black_king`: a new piece of the given kind and colour
      on the square named by a (file letter, 1-based rank) pair. */
  function NewAt(kind: PieceKind, color: Color, square: (char, u8)): (r: Result<Piece>)
    ensures r.Ok? <==> 'a' as int <= CharAsU8(square.0) <= 'h' as int && 1 <= square.1 <= 8
    ensures r.Ok? ==> r.value == New(kind, color, Coord(CharAsU8(square.0) - 'a' as int, square.1 - 1))
  {
    match TryFromCharU8(square.0, square.1)
    case Ok(c) => Ok(New(kind, color, c))
    case Err(e) => Err(e)
  }

  /** `set_piece`. */
  function SetKind(p: Piece, kind: PieceKind): (q: Piece)
    ensures q.kind == kind && q.color == p.color && q.coord == p.coord && q.onInitialSquare == p.onInitialSquare
  {
    p.(kind := kind)
  }

  /** `set_color`. */
  function SetColor(p: Piece, color: Color): (q: Piece)
    ensures q.color == color && q.kind == p.kind && q.coord == p.coord && q.onInitialSquare == p.onInitialSquare
  {
    p.(color := color)
  }

  /** `set_coord`: the cached initial-square flag is not recomputed. */
  function SetCoord(p: Piece, coord: Coord): (q: Piece)
    ensures q.coord == coord && q.kind == p.kind && q.color == p.color && q.onInitialSquare == p.onInitialSquare
  {
    p.(coord := coord)
  }

  /** `set_has_moved`. */
  function SetHasMoved(p: Piece, hasMoved: bool): (q: Piece)
    ensures q.HasMoved() == hasMoved
    ensures q.kind == p.kind && q.color == p.color && q.coord == p.coord
  {
    p.(onInitialSquare := !hasMoved)
  }

  /** `get_text`: "{Color:?} {Kind:?}", e.g. "White King". */
  function Text(p: Piece): string
  {
    p.color.Name() + " " + p.kind.Name()
  }

  /** The letter of a kind, upper case. */
  function KindLetter(kind: PieceKind): char
  {
    match kind
    case King => 'K'
    case Queen => 'Q'
    case Rook => 'R'
    case Bishop => 'B'
    case Knight => 'N'
    case Pawn => 'P'
  }

  /** `repr`: the letter (upper case for White, lower case for Black) and the
      Unicode chess glyph of a piece. */
  function Repr(p: Piece): (r: (char, char))
    ensures p.color == White ==> 'A' <= r.0 <= 'Z'
    ensures p.color == Black ==> 'a' <= r.0 <= 'z'
    ensures r.0 == KindLetter(p.kind) || r.0 as int == KindLetter(p.kind) as int + 32
  {
    match (p.kind, p.color)
    case (King, White) => ('K', '\U{2654}')
    case (Queen, White) => ('Q', '\U{2655}')
    case (Rook, White) => ('R', '\U{2656}')
    case (Bishop, White) => ('B', '\U{2657}')
    case (Knight, White) => ('N', '\U{2658}')
    case (Pawn, White) => ('P', '\U{2659}')
    case (King, Black) => ('k', '\U{265A}')
    case (Queen, Black) => ('q', '\U{265B}')
    case (Rook, Black) => ('r', '\U{265C}')
    case (Bishop, Black) => ('b', '\U{265D}')
    case (Knight, Black) => ('n', '\U{265E}')
    case (Pawn, Black) => ('p', '\U{265F}')
  }

  /** The kind and colour named by a letter or a glyph, if any. */
  function ParseSymbol(c: char): Option<(PieceKind, Color)>
  {
    match c
    case 'K' | '\U{2654}' => Some((King, White))
    case 'Q' | '\U{2655}' => Some((Queen, White))
    case 'R' | '\U{2656}' => Some((Rook, White))
    case 'B' | '\U{2657}' => Some((Bishop, White))
    case 'N' | '\U{2658}' => Some((Knight, White))
    case 'P' | '\U{2659}' => Some((Pawn, White))
    case 'k' | '\U{265A}' => Some((King, Black))
    case 'q' | '\U{265B}' => Some((Queen, Black))
    case 'r' | '\U{265C}' => Some((Rook, Black))
    case 'b' | '\U{265D}' => Some((Bishop, Black))
    case 'n' | '\U{265E}' => Some((Knight, Black))
    case 'p' | '\U{265F}' => Some((Pawn, Black))
    case _ => None
  }

  /** The square a parsed piece is placed on: e1/d1/a1/c1/b1/a2 for White,
      e8/d8/a8/c8/b8/a7 for Black. */
  function ParsedSquare(kind: PieceKind, color: Color): (char, u8)
  {
    var file := match kind
      case King => 'e' case Queen => 'd' case Rook => 'a'
      case Bishop => 'c' case Knight => 'b' case Pawn => 'a';
    var rank := match (kind, color)
      case (Pawn, White) => 2 case (Pawn, Black) => 7
      case (_, White) => 1 case (_, Black) => 8;
    (file, rank)
  }

  /** `TryFrom<char>`: a letter or glyph gives a new piece on its parsed square. */
  function TryFromChar(c: char): (r: Result<Piece>)
    ensures ParseSymbol(c).None? ==> r == Err(InvalidPiece)
    ensures ParseSymbol(c).Some? ==> (r.Ok? && r.value.kind == ParseSymbol(c).value.0
                                      && r.value.color == ParseSymbol(c).value.1)
  {
    match ParseSymbol(c)
    case None => Err(InvalidPiece)
    case Some((kind, color)) => NewAt(kind, color, ParsedSquare(kind, color))
  }

  /** `TryFrom<&str>`: the same table, for one-char strings only. */
  function TryFromStr(s: string): (r: Result<Piece>)
    ensures |s| != 1 ==> r == Err(InvalidPiece)
    ensures |s| == 1 ==> r == TryFromChar(s[0])
  {
    if |s| == 1 then TryFromChar(s[0]) else Err(InvalidPiece)
  }

  /** A parsed piece starts unmoved on the square of its table entry. */
  lemma ParsedPieceUnmoved(c: char)
    requires ParseSymbol(c).Some?
    ensures TryFromChar(c).Ok?
    ensures !TryFromChar(c).value.HasMoved()
    ensures ToCharU8Coord(TryFromChar(c).value.coord) == ParsedSquare(ParseSymbol(c).value.0, ParseSymbol(c).value.1)
  {
  }

  /** Parsing the letter or the glyph of a piece recovers its kind and colour. */
  lemma {:induction false} ReprRoundTrip(p: Piece)
    ensures TryFromChar(Repr(p).0).Ok? && TryFromChar(Repr(p).0).value.IsSamePiece(p)
    ensures TryFromChar(Repr(p).1).Ok? && TryFromChar(Repr(p).1).value.IsSamePiece(p)
  {
    ReprParses(p);
  }

  /** The letter and the glyph of a piece both name its kind and colour. */
  lemma ReprParses(p: Piece)
    ensures ParseSymbol(Repr(p).0) == Some((p.kind, p.color))
    ensures ParseSymbol(Repr(p).1) == Some((p.kind, p.color))
  {
  }

  /** Inputs the library's tests reject. */
  lemma InvalidPieceNames()
    ensures TryFromStr("l") == Err(InvalidPiece)
    ensures TryFromStr("j") == Err(InvalidPiece)
    ensures TryFromStr("T") == Err(InvalidPiece)
  {
    assert ParseSymbol('l') == None && ParseSymbol('j') == None && ParseSymbol('T') == None;
  }
}
