// `ArrayBitPosition` of lib/chui_core/src/position/array_bit_position.rs:
// eight `u64` masks, updated in place. Masks 0 to 5 hold the squares of the
// kings, queens, rooks, bishops, knights and pawns, masks 6 and 7 those of
// the white and the black pieces; bit `8 * rank + file` is the square
// (file, rank). As in `Bitmask`, a mask is the set of its one bits: `&` is
// intersection, `|` union, `^` symmetric difference and `> 0` non-emptiness.

module ArrayBitPositionStore {
  import opened Errors
  import opened Coordinate
  import P = Piece
  import opened Geometry
  import BR = BoardRules
  import B = Bitmask

  const KINGS: B.Mask := B.BitsOf(0x1000000000000010)
  const QUEENS: B.Mask := B.BitsOf(0x800000000000008)
  const ROOKS: B.Mask := B.BitsOf(0x8100000000000081)
  const BISHOPS: B.Mask := B.BitsOf(0x2400000000000024)
  const KNIGHTS: B.Mask := B.BitsOf(0x4200000000000042)
  const PAWNS: B.Mask := B.BitsOf(0xFF00000000FF00)
  const WHITE: B.Mask := B.BitsOf(0xFFFF)
  const BLACK: B.Mask := B.BitsOf(0xFFFF000000000000)

  /** `new(variant)`: the eight masks of the standard setup, or eight empty
      masks by `Default`. */
  function InitialMasks(variant: BR.ChessVariant): (ms: seq<B.Mask>)
    ensures |ms| == 8
  {
    match variant
    case StandardChess => [KINGS, QUEENS, ROOKS, BISHOPS, KNIGHTS, PAWNS, WHITE, BLACK]
    case Empty => seq(8, _ => {})
  }

  // ----- the index maps -----

  /** `get_piece_kind_from_idx`. */
  function KindFromIdx(idx: nat): Result<P.PieceKind>
  {
    match idx
    case 0 => Ok(P.King)
    case 1 => Ok(P.Queen)
    case 2 => Ok(P.Rook)
    case 3 => Ok(P.Bishop)
    case 4 => Ok(P.Knight)
    case 5 => Ok(P.Pawn)
    case _ => Err(IndexOutOfRange)
  }

  /** `get_piece_color_from_idx`. */
  function ColorFromIdx(idx: nat): Result<P.Color>
  {
    match idx
    case 6 => Ok(P.White)
    case 7 => Ok(P.Black)
    case _ => Err(IndexOutOfRange)
  }

  /** `get_idx_from_piece_kind`. */
  function IdxFromKind(kind: P.PieceKind): (i: nat)
    ensures i < 6
  {
    match kind
    case King => 0
    case Queen => 1
    case Rook => 2
    case Bishop => 3
    case Knight => 4
    case Pawn => 5
  }

  /** `get_idx_from_piece_color`. */
  function IdxFromColor(color: P.Color): (i: nat)
    ensures 6 <= i < 8
  {
    match color
    case White => 6
    case Black => 7
  }

  /** The kind maps are inverse to each other on 0..5, and every other
      index is out of range. */
  lemma KindIndexRoundTrip(kind: P.PieceKind, idx: nat)
    ensures KindFromIdx(IdxFromKind(kind)) == Ok(kind)
    ensures KindFromIdx(idx).Ok? <==> idx < 6
    ensures KindFromIdx(idx).Ok? ==> IdxFromKind(KindFromIdx(idx).value) == idx
    ensures idx >= 6 ==> KindFromIdx(idx) == Err(IndexOutOfRange)
  {
  }

  /** The colour maps are inverse to each other on 6 and 7, and every other
      index is out of range. */
  lemma ColorIndexRoundTrip(color: P.Color, idx: nat)
    ensures ColorFromIdx(IdxFromColor(color)) == Ok(color)
    ensures ColorFromIdx(idx).Ok? <==> idx == 6 || idx == 7
    ensures ColorFromIdx(idx).Ok? ==> IdxFromColor(ColorFromIdx(idx).value) == idx
    ensures !(idx == 6 || idx == 7) ==> ColorFromIdx(idx) == Err(IndexOutOfRange)
  {
  }

  // ----- reading the masks -----

  /** The first index in `lo..hi` whose mask meets `b`. */
  function FirstHit(ms: seq<B.Mask>, b: B.Mask, lo: nat, hi: nat): (r: Option<nat>)
    requires lo <= hi <= |ms|
    decreases hi - lo
    ensures r.Some? ==> (lo <= r.value < hi && ms[r.value] * b != {}
      && forall j | lo <= j < r.value :: ms[j] * b == {})
    ensures r.None? ==> forall j | lo <= j < hi :: ms[j] * b == {}
  {
    if lo == hi then None
    else if ms[lo] * b != {} then Some(lo)
    else FirstHit(ms, b, lo + 1, hi)
  }

  /** The first hit depends only on which masks meet `b`. */
  lemma {:induction false} FirstHitSame(ms: seq<B.Mask>, ns: seq<B.Mask>, b: B.Mask, lo: nat, hi: nat)
    requires lo <= hi <= |ms| && hi <= |ns|
    requires forall j | lo <= j < hi :: (ms[j] * b == {} <==> ns[j] * b == {})
    decreases hi - lo
    ensures FirstHit(ms, b, lo, hi) == FirstHit(ns, b, lo, hi)
  {
    if lo < hi {
      FirstHitSame(ms, ns, b, lo + 1, hi);
    }
  }

  /** The first hit is the least index whose mask meets `b`. */
  lemma FirstHitIs(ms: seq<B.Mask>, b: B.Mask, lo: nat, hi: nat, i: nat)
    requires lo <= i < hi <= |ms|
    requires ms[i] * b != {} && forall j | lo <= j < i :: ms[j] * b == {}
    ensures FirstHit(ms, b, lo, hi) == Some(i)
  {
  }

  /** `get_piece_kind_from_bitmask`: the kind of the first of masks 0..5
      that meets `b`, or `InvalidPiece`. */
  function KindFromMasks(ms: seq<B.Mask>, b: B.Mask): Result<P.PieceKind>
    requires |ms| == 8
  {
    match FirstHit(ms, b, 0, 6)
    case Some(i) => KindFromIdx(i)
    case None => Err(InvalidPiece)
  }

  /** `get_piece_color_from_bitmask`: the colour of the first of masks 6
      and 7 that meets `b`, or `InvalidPiece`. */
  function ColorFromMasks(ms: seq<B.Mask>, b: B.Mask): Result<P.Color>
    requires |ms| == 8
  {
    match FirstHit(ms, b, 6, 8)
    case Some(i) => ColorFromIdx(i)
    case None => Err(InvalidPiece)
  }

  /** `get_piece(c)`: a piece of the kind and colour the masks give bit
      `c` (as `Piece::new` builds it on `c`), or nothing when either is
      missing. */
  function Decode(ms: seq<B.Mask>, c: Coord): Cell
    requires |ms| == 8
  {
    var b := B.SingleBit(ToIndex(c));
    match (KindFromMasks(ms, b), ColorFromMasks(ms, b))
    case (Ok(kind), Ok(color)) => Some(P.New(kind, color, c))
    case _ => None
  }

  // ----- writing the masks -----

  /** `m ^ b`. */
  function Toggled(m: B.Mask, b: B.Mask): B.Mask
  {
    (m - b) + (b - m)
  }

  /** One mask after `set_piece_from_bitmask`: `|= b` for the piece's own
      kind and colour masks, `^= b` for any other mask that meets `b`. */
  function SetMask(m: B.Mask, b: B.Mask, own: bool): B.Mask
  {
    if own then m + b
    else if m * b != {} then Toggled(m, b)
    else m
  }

  /** Whether mask `i` is one of the piece's own two masks. */
  predicate Own(piece: Cell, i: nat)
  {
    piece.Some? && (i == IdxFromKind(piece.value.kind) || i == IdxFromColor(piece.value.color))
  }

  /** The masks after `set_piece_from_bitmask(piece, b)`. */
  function SetPiece(ms: seq<B.Mask>, piece: Cell, b: B.Mask): (r: seq<B.Mask>)
    requires |ms| == 8
    ensures |r| == 8
  {
    seq(8, (i: int) requires 0 <= i < 8 => SetMask(ms[i], b, Own(piece, i)))
  }

  /** A mask meets the single bit `s` exactly when it holds `s`. */
  lemma Meets(m: B.Mask, s: B.Square)
    ensures m * {s} != {} <==> s in m
  {
    if s in m {
      assert s in m * {s};
    }
  }

  /** Square `c` decodes to a piece of `kind` and `color` when the first
      kind mask and the first colour mask holding its bit are theirs. */
  lemma DecodeHit(ms: seq<B.Mask>, c: Coord, kind: P.PieceKind, color: P.Color)
    requires |ms| == 8
    requires ToIndex(c) in ms[IdxFromKind(kind)]
    requires forall j | 0 <= j < IdxFromKind(kind) :: ToIndex(c) !in ms[j]
    requires ToIndex(c) in ms[IdxFromColor(color)]
    requires forall j | 6 <= j < IdxFromColor(color) :: ToIndex(c) !in ms[j]
    ensures Decode(ms, c) == Some(P.New(kind, color, c))
  {
    var s := ToIndex(c);
    var b := B.SingleBit(s);
    assert b == {s};
    forall j | 0 <= j < 8
      ensures ms[j] * b != {} <==> s in ms[j]
    {
      Meets(ms[j], s);
    }
    FirstHitIs(ms, b, 0, 6, IdxFromKind(kind));
    FirstHitIs(ms, b, 6, 8, IdxFromColor(color));
    KindIndexRoundTrip(kind, 0);
    ColorIndexRoundTrip(color, 0);
  }

  /** Square `c` decodes to nothing when no kind mask holds its bit. */
  lemma DecodeMiss(ms: seq<B.Mask>, c: Coord)
    requires |ms| == 8
    requires forall j | 0 <= j < 6 :: ToIndex(c) !in ms[j]
    ensures Decode(ms, c) == None
  {
    var s := ToIndex(c);
    var b := B.SingleBit(s);
    assert b == {s};
    forall j | 0 <= j < 6
      ensures ms[j] * b == {}
    {
      Meets(ms[j], s);
    }
    assert FirstHit(ms, b, 0, 6).None?;
  }

  /** For one bit `s`: a piece puts `s` in exactly its own kind and colour
      masks, nothing takes `s` out of every mask, and no other bit of any
      mask changes. */
  lemma SetSingleBit(ms: seq<B.Mask>, piece: Cell, s: B.Square, t: B.Square, i: nat)
    requires |ms| == 8 && i < 8
    ensures s in SetPiece(ms, piece, {s})[i] <==> Own(piece, i)
    ensures t != s ==> (t in SetPiece(ms, piece, {s})[i] <==> t in ms[i])
  {
    Meets(ms[i], s);
  }

  /** `^=` on a mask that meets `b` flips the bits of `b`: inside `b` the
      mask ends up holding exactly the bits it did not have, and outside `b`
      it is unchanged. With several bits this sets bits as well as clearing
      them: a mask holding only bit 0, hit by bits 0 and 1, ends up holding
      only bit 1. Every caller passes a single bit. */
  lemma ToggleSetsClearBits(m: B.Mask, b: B.Mask)
    ensures m * b != {} ==> SetMask(m, b, false) * b == b - m && SetMask(m, b, false) - b == m - b
    ensures SetMask({0}, {0, 1}, false) == {1}
  {
    assert Toggled({0}, {0, 1}) == {1};
  }

  /** After a put on `c`, `c` reads back the piece rebuilt on `c` (or
      nothing), and every other square reads as before. */
  lemma GetAfterPut(ms: seq<B.Mask>, piece: Cell, c: Coord, d: Coord)
    requires |ms| == 8
    ensures d == c ==> (Decode(SetPiece(ms, piece, B.SingleBit(ToIndex(c))), d)
      == if piece.None? then None else Some(P.New(piece.value.kind, piece.value.color, c)))
    ensures d != c ==> Decode(SetPiece(ms, piece, B.SingleBit(ToIndex(c))), d) == Decode(ms, d)
  {
    var s := ToIndex(c);
    assert B.SingleBit(s) == {s};
    var ns := SetPiece(ms, piece, {s});
    if d == c {
      forall j | 0 <= j < 8
        ensures s in ns[j] <==> Own(piece, j)
      {
        SetSingleBit(ms, piece, s, s, j);
      }
      if piece.Some? {
        DecodeHit(ns, c, piece.value.kind, piece.value.color);
      } else {
        DecodeMiss(ns, c);
      }
    } else {
      var t := ToIndex(d);
      var b := B.SingleBit(t);
      assert b == {t};
      BR.ToIndexInjective(c, d);
      forall j | 0 <= j < 8
        ensures ms[j] * b == {} <==> ns[j] * b == {}
      {
        SetSingleBit(ms, piece, s, t, j);
        Meets(ms[j], t);
        Meets(ns[j], t);
      }
      FirstHitSame(ms, ns, b, 0, 6);
      FirstHitSame(ms, ns, b, 6, 8);
    }
  }

  // ----- the standard masks -----

  /** Which bits the standard masks hold. */
  lemma StandardBits(s: B.Square)
    ensures s in KINGS <==> s == 4 || s == 60
    ensures s in QUEENS <==> s == 3 || s == 59
    ensures s in ROOKS <==> s == 0 || s == 7 || s == 56 || s == 63
    ensures s in BISHOPS <==> s == 2 || s == 5 || s == 58 || s == 61
    ensures s in KNIGHTS <==> s == 1 || s == 6 || s == 57 || s == 62
    ensures s in PAWNS <==> 8 <= s < 16 || 48 <= s < 56
    ensures s in WHITE <==> s < 16
    ensures s in BLACK <==> 48 <= s
  {
    StandardKingsBits(s);
    StandardQueensBits(s);
    StandardRooksBits(s);
    StandardBishopsBits(s);
    StandardKnightsBits(s);
    StandardPawnsBits(s);
    StandardWhiteBits(s);
    StandardBlackBits(s);
  }

  lemma StandardKingsBits(s: B.Square)
    ensures s in KINGS <==> s == 4 || s == 60
  {
  }

  lemma StandardQueensBits(s: B.Square)
    ensures s in QUEENS <==> s == 3 || s == 59
  {
  }

  lemma StandardRooksBits(s: B.Square)
    ensures s in ROOKS <==> s == 0 || s == 7 || s == 56 || s == 63
  {
  }

  lemma StandardBishopsBits(s: B.Square)
    ensures s in BISHOPS <==> s == 2 || s == 5 || s == 58 || s == 61
  {
  }

  lemma StandardKnightsBits(s: B.Square)
    ensures s in KNIGHTS <==> s == 1 || s == 6 || s == 57 || s == 62
  {
  }

  lemma StandardPawnsBits(s: B.Square)
    ensures s in PAWNS <==> 8 <= s < 16 || 48 <= s < 56
  {
  }

  lemma StandardWhiteBits(s: B.Square)
    ensures s in WHITE <==> s < 16
  {
  }

  lemma StandardBlackBits(s: B.Square)
    ensures s in BLACK <==> 48 <= s
  {
  }

  /** In the standard masks the six kind masks are pairwise disjoint, each
      occupied square is White or Black but not both, and the kinds cover
      exactly the coloured squares. */
  lemma StandardMasksConsistent(s: B.Square)
    ensures var kinds := [KINGS, QUEENS, ROOKS, BISHOPS, KNIGHTS, PAWNS];
      forall i, j | 0 <= i < j < 6 :: !(s in kinds[i] && s in kinds[j])
    ensures !(s in WHITE && s in BLACK)
    ensures (s in KINGS + QUEENS + ROOKS + BISHOPS + KNIGHTS + PAWNS) <==> (s in WHITE + BLACK)
  {
    StandardBits(s);
  }

  /** Read square by square, both setups are those of the rest of the
      model: the standard setup of `Geometry` and the empty board. */
  lemma InitialDecodes(variant: BR.ChessVariant, c: Coord)
    ensures Decode(InitialMasks(variant), c) == At(BR.InitialSquares(variant), c)
  {
    if variant == BR.Empty {
      DecodeMiss(InitialMasks(variant), c);
    } else {
      StandardDecodes(c);
    }
  }

  lemma StandardDecodes(c: Coord)
    ensures Decode(InitialMasks(BR.StandardChess), c) == At(StandardSquares(), c)
  {
    StandardLayout(c);
    if c.rank == 0 || c.rank == 7 {
      StandardBackDecodes(c);
    } else {
      var ms := InitialMasks(BR.StandardChess);
      StandardBits(ToIndex(c));
      if 2 <= c.rank <= 5 {
        DecodeMiss(ms, c);
      } else {
        DecodeHit(ms, c, P.Pawn, if c.rank == 1 then P.White else P.Black);
      }
    }
  }

  /** The back rows: the masks give each file its back-rank piece. */
  lemma StandardBackDecodes(c: Coord)
    requires c.rank == 0 || c.rank == 7
    ensures Decode(InitialMasks(BR.StandardChess), c)
      == Some(P.New(BackRank(c.file), if c.rank == 0 then P.White else P.Black, c))
  {
    StandardBits(ToIndex(c));
    DecodeHit(InitialMasks(BR.StandardChess), c, BackRank(c.file), if c.rank == 0 then P.White else P.Black);
  }

  // ----- the store -----

  class ArrayBitPosition {
    var masks: array<B.Mask>

    ghost predicate Valid()
      reads this
    {
      masks.Length == 8
    }

    /** The eight masks. */
    function Masks(): seq<B.Mask>
      reads this, masks
    {
      masks[..]
    }

    /** `new(variant)`. */
    constructor (variant: BR.ChessVariant)
      ensures Valid() && fresh(masks)
      ensures Masks() == InitialMasks(variant)
    {
      var init := InitialMasks(variant);
      masks := new B.Mask[8](i requires 0 <= i < 8 => init[i]);
    }

    /** `get_piece_kind_from_bitmask`: the loop over masks 0..5. */
    method GetPieceKindFromBitmask(b: B.Mask) returns (r: Result<P.PieceKind>)
      requires Valid()
      ensures r == KindFromMasks(Masks(), b)
    {
      for idx := 0 to 6
        invariant FirstHit(Masks(), b, 0, 6) == FirstHit(Masks(), b, idx, 6)
      {
        if masks[idx] * b != {} {
          return KindFromIdx(idx);
        }
      }
      return Err(InvalidPiece);
    }

    /** `get_piece_color_from_bitmask`: the loop over masks 6 and 7. */
    method GetPieceColorFromBitmask(b: B.Mask) returns (r: Result<P.Color>)
      requires Valid()
      ensures r == ColorFromMasks(Masks(), b)
    {
      for idx := 6 to 8
        invariant FirstHit(Masks(), b, 6, 8) == FirstHit(Masks(), b, idx, 8)
      {
        if masks[idx] * b != {} {
          return ColorFromIdx(idx);
        }
      }
      return Err(InvalidPiece);
    }

    /** `set_piece_from_bitmask`: never an error. */
    method SetPieceFromBitmask(piece: Cell, b: B.Mask) returns (r: Result<()>)
      requires Valid()
      modifies masks
      ensures r == Ok(())
      ensures Masks() == SetPiece(old(Masks()), piece, b)
    {
      ghost var ms := Masks();
      var target := SetPiece(ms, piece, b);
      match piece {
        case Some(p) =>
          var kindIdx := IdxFromKind(p.kind);
          var colorIdx := IdxFromColor(p.color);
          for idx := 0 to 6
            invariant forall j | 0 <= j < 8 :: masks[j] == if j < idx then target[j] else ms[j]
          {
            if idx == kindIdx {
              masks[idx] := masks[idx] + b;
            } else if masks[idx] * b != {} {
              masks[idx] := Toggled(masks[idx], b);
            }
          }
          for idx := 6 to 8
            invariant forall j | 0 <= j < 8 :: masks[j] == if j < idx then target[j] else ms[j]
          {
            if idx == colorIdx {
              masks[idx] := masks[idx] + b;
            } else if masks[idx] * b != {} {
              masks[idx] := Toggled(masks[idx], b);
            }
          }
        case None =>
          for idx := 0 to 8
            invariant forall j | 0 <= j < 8 :: masks[j] == if j < idx then target[j] else ms[j]
          {
            if masks[idx] * b != {} {
              masks[idx] := Toggled(masks[idx], b);
            }
          }
      }
      assert Masks() == target;
      r := Ok(());
    }

    /** `get_piece`: the kind and the colour of bit `1 << index`, rebuilt
        into a piece on `c`. */
    method GetPiece(c: Coord) returns (r: Cell)
      requires Valid()
      ensures r == Decode(Masks(), c)
    {
      var b := B.SingleBit(ToIndex(c));
      var kind := GetPieceKindFromBitmask(b);
      if kind.Err? {
        return None;
      }
      var color := GetPieceColorFromBitmask(b);
      if color.Err? {
        return None;
      }
      r := Some(P.New(kind.value, color.value, c));
    }

    /** `put_piece`: the previous occupant, and bit `1 << index` moved into
        the piece's masks or out of all of them. */
    method PutPiece(piece: Cell, c: Coord) returns (r: Cell)
      requires Valid()
      modifies masks
      ensures r == Decode(old(Masks()), c)
      ensures Masks() == SetPiece(old(Masks()), piece, B.SingleBit(ToIndex(c)))
    {
      r := GetPiece(c);
      var b := B.SingleBit(ToIndex(c));
      var _ := SetPieceFromBitmask(piece, b);
    }
  }
}
