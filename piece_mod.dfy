// The earlier `Piece` of `modules/piece/mod.rs`: a kind, a colour, a
// coordinate and a sprite index fixed at construction. Its colour and kind
// enums have the same variants as the current ones and are shared with the
// `Piece` module.

module PieceMod {
  import opened Errors
  import opened Coordinate
  import P = Piece

  datatype Piece = Piece(kind: P.PieceKind, color: P.Color, coord: Coord, spriteIndex: nat)

  /** `Piece::new`: White King..Pawn get sprites 7..2, Black King..Pawn 13..8. */
  function New(kind: P.PieceKind, color: P.Color, coord: Coord): (p: Piece)
    ensures p.kind == kind && p.color == color && p.coord == coord
  {
    var sprite := match (kind, color)
      case (King, White) => 7
      case (Queen, White) => 6
      case (Rook, White) => 5
      case (Bishop, White) => 4
      case (Knight, White) => 3
      case (Pawn, White) => 2
      case (King, Black) => 13
      case (Queen, Black) => 12
      case (Rook, Black) => 11
      case (Bishop, Black) => 10
      case (Knight, Black) => 9
      case (Pawn, Black) => 8;
    Piece(kind, color, coord, sprite)
  }

  /** The constructor's sprite table agrees with `PieceKind::get_sprite_index`
      of the current library, so it is one-to-one over the twelve pieces. */
  lemma NewSpriteIndex(kind: P.PieceKind, color: P.Color, coord: Coord)
    ensures New(kind, color, coord).spriteIndex == P.SpriteIndex(kind, color)
    ensures color == P.White ==> 2 <= New(kind, color, coord).spriteIndex <= 7
    ensures color == P.Black ==> 8 <= New(kind, color, coord).spriteIndex <= 13
  {
  }

  /** `set_piece`: the sprite index is not recomputed. */
  function SetKind(p: Piece, kind: P.PieceKind): (q: Piece)
    ensures q.kind == kind && q.color == p.color && q.coord == p.coord && q.spriteIndex == p.spriteIndex
  {
    p.(kind := kind)
  }

  /** `set_color`: the sprite index is not recomputed. */
  function SetColor(p: Piece, color: P.Color): (q: Piece)
    ensures q.color == color && q.kind == p.kind && q.coord == p.coord && q.spriteIndex == p.spriteIndex
  {
    p.(color := color)
  }

  /** `set_coord`. */
  function SetCoord(p: Piece, coord: Coord): (q: Piece)
    ensures q.coord == coord && q.kind == p.kind && q.color == p.color && q.spriteIndex == p.spriteIndex
  {
    p.(coord := coord)
  }

  /** Because the setters keep the sprite index, recolouring a new piece
      leaves a sprite that belongs to the other colour. */
  lemma SetColorKeepsStaleSprite(kind: P.PieceKind, coord: Coord)
    ensures SetColor(New(kind, P.White, coord), P.Black).spriteIndex != P.SpriteIndex(kind, P.Black)
  {
    NewSpriteIndex(kind, P.White, coord);
  }

  /** `get_text`: "{Color:?} {Kind:?}". */
  function Text(p: Piece): (s: string)
    ensures s == p.color.Name() + " " + p.kind.Name()
    ensures s == P.Text(P.New(p.kind, p.color, p.coord))
  {
    p.color.Name() + " " + p.kind.Name()
  }

  /** `get_file_rank_from_coords`: the same pair as `Coord::to_char_u8_coord`. */
  function FileRankFromCoords(c: Coord): (r: (char, u8))
    ensures 'a' <= r.0 <= 'h' && 1 <= r.1 <= 8
    ensures TryFromCharU8(r.0, r.1) == Ok(c)
  {
    ToCharU8Coord(c)
  }

  /** `repr`: the same letters and glyphs as the current `Piece::repr`. */
  function Repr(p: Piece): (r: (char, char))
    ensures r == P.Repr(P.New(p.kind, p.color, p.coord))
  {
    match (p.kind, p.color)
    case (King, White) => ('K', '\U{2654}')
    case (Queen, White) => ('Q', '\U{2655}')
    case (Rook, White) => ('R', '\U{2656}')
    case (Bishop, White) => ('B', '\U{2657}')
    case (Knight, White) => ('N', '\U{2658}')
    case (Pawn, White) => ('P', '\U{2659}')
    case (King, Black) => ('k', '\U{265A}')
    case (Queen, Black) => ('q', '\U{265B}')
    case (Rook, Black) => ('r', '\U{265C}')
    case (Bishop, Black) => ('b', '\U{265D}')
    case (Knight, Black) => ('n', '\U{265E}')
    case (Pawn, Black) => ('p', '\U{265F}')
  }

  /** The kind and colour of a letter among `PRNBQKprnbqk`. */
  function ParseLetter(c: char): Option<(P.PieceKind, P.Color)>
  {
    match c
    case 'K' => Some((P.King, P.White))
    case 'Q' => Some((P.Queen, P.White))
    case 'R' => Some((P.Rook, P.White))
    case 'B' => Some((P.Bishop, P.White))
    case 'N' => Some((P.Knight, P.White))
    case 'P' => Some((P.Pawn, P.White))
    case 'k' => Some((P.King, P.Black))
    case 'q' => Some((P.Queen, P.Black))
    case 'r' => Some((P.Rook, P.Black))
    case 'b' => Some((P.Bishop, P.Black))
    case 'n' => Some((P.Knight, P.Black))
    case 'p' => Some((P.Pawn, P.Black))
    case _ => None
  }

  /** The kind and colour of a glyph among the twelve chess symbols. */
  function ParseGlyph(c: char): Option<(P.PieceKind, P.Color)>
  {
    match c
    case '\U{2654}' => Some((P.King, P.White))
    case '\U{2655}' => Some((P.Queen, P.White))
    case '\U{2656}' => Some((P.Rook, P.White))
    case '\U{2657}' => Some((P.Bishop, P.White))
    case '\U{2658}' => Some((P.Knight, P.White))
    case '\U{2659}' => Some((P.Pawn, P.White))
    case '\U{265A}' => Some((P.King, P.Black))
    case '\U{265B}' => Some((P.Queen, P.Black))
    case '\U{265C}' => Some((P.Rook, P.Black))
    case '\U{265D}' => Some((P.Bishop, P.Black))
    case '\U{265E}' => Some((P.Knight, P.Black))
    case '\U{265F}' => Some((P.Pawn, P.Black))
    case _ => None
  }

  /** `TryFrom<char>`: letters only, every piece placed on a1. */
  function TryFromChar(c: char): (r: Result<Piece>)
    ensures ParseLetter(c).None? ==> r == Err(InvalidPiece)
    ensures ParseLetter(c).Some? ==> r == Ok(New(ParseLetter(c).value.0, ParseLetter(c).value.1, Zero()))
  {
    match ParseLetter(c)
    case None => Err(InvalidPiece)
    case Some((kind, color)) => Ok(New(kind, color, Coord(0, 0)))
  }

  /** `TryFrom<&str>`: a one-char string holding a letter or a glyph, placed on a1. */
  function TryFromStr(s: string): (r: Result<Piece>)
    ensures r.Ok? <==> |s| == 1 && (ParseLetter(s[0]).Some? || ParseGlyph(s[0]).Some?)
    ensures r.Ok? ==> r.value.coord == Zero()
  {
    if |s| != 1 then Err(InvalidPiece)
    else match (ParseLetter(s[0]), ParseGlyph(s[0]))
      case (Some((kind, color)), _) => Ok(New(kind, color, Coord(0, 0)))
      case (None, Some((kind, color))) => Ok(New(kind, color, Coord(0, 0)))
      case (None, None) => Err(InvalidPiece)
  }

  /** The glyph of a piece is not a letter and names that piece. */
  lemma GlyphParses(p: Piece)
    ensures ParseLetter(Repr(p).1).None?
    ensures ParseGlyph(Repr(p).1) == Some((p.kind, p.color))
  {
    match (p.kind, p.color)
    case (King, White) =>
    case (Queen, White) =>
    case (Rook, White) =>
    case (Bishop, White) =>
    case (Knight, White) =>
    case (Pawn, White) =>
    case (King, Black) =>
    case (Queen, Black) =>
    case (Rook, Black) =>
    case (Bishop, Black) =>
    case (Knight, Black) =>
    case (Pawn, Black) =>
  }

  /** A glyph parses as a string but not as a char. */
  lemma GlyphOnlyAsString(p: Piece)
    ensures TryFromStr([Repr(p).1]) == Ok(New(p.kind, p.color, Zero()))
    ensures TryFromChar(Repr(p).1) == Err(InvalidPiece)
  {
    GlyphParses(p);
  }

  /** The letter of a piece parses back to its kind and colour, at a1. */
  lemma LetterRoundTrip(p: Piece)
    ensures TryFromChar(Repr(p).0) == Ok(New(p.kind, p.color, Zero()))
    ensures TryFromStr([Repr(p).0]) == Ok(New(p.kind, p.color, Zero()))
  {
  }

  /** Inputs the library's tests reject. */
  lemma InvalidPieceNames()
    ensures TryFromStr("l") == Err(InvalidPiece)
    ensures TryFromStr("j") == Err(InvalidPiece)
    ensures TryFromStr("T") == Err(InvalidPiece)
  {
    assert ParseLetter('l') == None && ParseGlyph('l') == None;
    assert ParseLetter('j') == None && ParseGlyph('j') == None;
    assert ParseLetter('T') == None && ParseGlyph('T') == None;
  }
}
