// The board coordinate of the current library: a (file, rank) pair of
// indices, both in 0..7, with file 0 = 'a' and rank 0 = '1'. Every
// constructor validates its input and every conversion goes through `New`.

module Coordinate {
  import opened Errors
  import opened Text
  import opened Bitmask

  /** A file or rank index. */
  type Index = x: nat | x < 8

  /** `NonMaxU8`: a byte other than 255. */
  type NonMaxU8 = x: nat | x < 255

  datatype Coord = Coord(file: Index, rank: Index)

  /** `Coord::new`: the file is checked before the rank. */
  function New(file: u8, rank: u8): (r: Result<Coord>)
    ensures r.Ok? <==> file <= 7 && rank <= 7
    ensures r.Ok? ==> r.value.file == file && r.value.rank == rank
    ensures file > 7 ==> r == Err(InvalidFile)
    ensures file <= 7 && rank > 7 ==> r == Err(InvalidRank)
  {
    if file > 7 then Err(InvalidFile)
    else if rank > 7 then Err(InvalidRank)
    else Ok(Coord(file, rank))
  }

  /** `Coord::zero`: the square a1. */
  function Zero(): (c: Coord)
    ensures c.file == 0 && c.rank == 0 && New(0, 0) == Ok(c)
  {
    Coord(0, 0)
  }

  /** `Coord::set_file`: returns the updated coordinate and the outcome;
      a rejected value leaves the coordinate as it was. */
  function SetFile(c: Coord, value: u8): (r: (Coord, Result<()>))
    ensures r.1.Ok? <==> value <= 7
    ensures r.1.Ok? ==> r.0 == c.(file := value)
    ensures r.1.Err? ==> r.0 == c && r.1.error == InvalidFile
  {
    if value == 255 then (c, Err(InvalidFile))
    else if value > 7 then (c, Err(InvalidFile))
    else (c.(file := value), Ok(()))
  }

  /** `Coord::set_rank` as written: the value 255 is reported as an invalid
      file, every other value above 7 as an invalid rank. */
  function SetRank(c: Coord, value: u8): (r: (Coord, Result<()>))
    ensures r.1.Ok? <==> value <= 7
    ensures r.1.Ok? ==> r.0 == c.(rank := value)
    ensures r.1.Err? ==> r.0 == c
    ensures 7 < value < 255 ==> r.1 == Err(InvalidRank)
  {
    if value == 255 then (c, Err(InvalidFile))
    else if value > 7 then (c, Err(InvalidRank))
    else (c.(rank := value), Ok(()))
  }

  /** The niche value 255 makes `set_rank` report the wrong kind of error. */
  lemma SetRankNicheReportsFile(c: Coord)
    ensures SetRank(c, 255).1 == Err(InvalidFile)
  {
  }

  /** `set_rank` as evidently intended: every rejected value is an invalid rank. */
  function SetRankChecked(c: Coord, value: u8): (r: (Coord, Result<()>))
    ensures r.1.Ok? <==> value <= 7
    ensures r.1.Ok? ==> r.0 == c.(rank := value)
    ensures r.1.Err? ==> r.0 == c && r.1.error == InvalidRank
  {
    if value > 7 then (c, Err(InvalidRank)) else (c.(rank := value), Ok(()))
  }

  /** `to_u8_index`. */
  function ToU8Index(c: Coord): (r: (u8, u8))
    ensures New(r.0, r.1) == Ok(c)
  {
    (c.file, c.rank)
  }

  /** The letter 'a'..'h' of a file index. */
  function FileChar(file: Index): (ch: char)
    ensures 'a' <= ch <= 'h' && ch as int - 'a' as int == file
  {
    ('a' as int + file) as char
  }

  /** `to_char_u8_coord`: the file letter and the 1-based rank. */
  function ToCharU8Coord(c: Coord): (r: (char, u8))
    ensures 'a' <= r.0 <= 'h' && 1 <= r.1 <= 8
    ensures r.0 as int - 'a' as int == c.file && r.1 == c.rank + 1
  {
    (FileChar(c.file), c.rank + 1)
  }

  /** `Display`: "a1" .. "h8". */
  function ToString(c: Coord): (s: string)
  {
    [FileChar(c.file)] + NatToString(c.rank + 1)
  }

  lemma ToStringShape(c: Coord)
    ensures |ToString(c)| == 2
    ensures ToString(c)[0] == FileChar(c.file)
    ensures ToString(c)[1] as int - '1' as int == c.rank
  {
    assert NatToString(c.rank + 1) == [DigitChar(c.rank + 1)];
  }

  /** Distinct coordinates print differently. */
  lemma ToStringInjective(c: Coord, d: Coord)
    requires ToString(c) == ToString(d)
    ensures c == d
  {
    ToStringShape(c);
    ToStringShape(d);
  }

  /** `TryFrom<(NonMaxU8, NonMaxU8)>`. */
  function TryFromNonMax(file: NonMaxU8, rank: NonMaxU8): (r: Result<Coord>)
    ensures r.Ok? <==> file <= 7 && rank <= 7
  {
    New(file, rank)
  }

  /** `TryFrom<(char, u8)>` as written: the char is cut to its low byte, then
      'a' and 1 are subtracted with wrap-around before validating. */
  function TryFromCharU8(file: char, rank: u8): (r: Result<Coord>)
    ensures r.Ok? <==> 'a' as int <= CharAsU8(file) <= 'h' as int && 1 <= rank <= 8
    ensures r.Ok? ==> r.value.file == CharAsU8(file) - 'a' as int && r.value.rank == rank - 1
  {
    New(WrappingSub(CharAsU8(file), 'a' as int), WrappingSub(rank, 1))
  }

  /** The truncation to a byte lets non-ASCII letters through: 'š' (U+0161)
      has the low byte of 'a' and is read as the a-file. */
  lemma TryFromCharU8AcceptsNonAscii()
    ensures TryFromCharU8('\U{0161}', 1) == Ok(Coord(0, 0))
  {
  }

  /** `TryFrom<(char, u8)>` as evidently intended: exactly 'a'..'h' × 1..8. */
  function TryFromCharU8Checked(file: char, rank: u8): (r: Result<Coord>)
    ensures r.Ok? <==> 'a' <= file <= 'h' && 1 <= rank <= 8
    ensures r.Ok? ==> r.value.file == file as int - 'a' as int && r.value.rank == rank - 1
  {
    if (file as int) < 256 then TryFromCharU8(file, rank) else Err(InvalidFile)
  }

  /** `TryFrom<(char, char)>`: the rank char is cut to its low byte and has
      '0' subtracted with wrap-around; the pair then goes through the
      (char, u8) conversion as written, so both chars count by their low byte. */
  function TryFromCharChar(file: char, rank: char): (r: Result<Coord>)
    ensures r.Ok? <==> 'a' as int <= CharAsU8(file) <= 'h' as int && '1' as int <= CharAsU8(rank) <= '8' as int
    ensures r.Ok? ==> (r.value.file == CharAsU8(file) - 'a' as int
                       && r.value.rank == CharAsU8(rank) - '1' as int)
  {
    TryFromCharU8(file, WrappingSub(CharAsU8(rank), '0' as int))
  }

  /** On chars below U+0100 the (char, char) conversion is exactly
      'a'..'h' × '1'..'8'. */
  lemma TryFromCharCharOnBytes(file: char, rank: char)
    requires (file as int) < 256 && (rank as int) < 256
    ensures TryFromCharChar(file, rank).Ok? <==> 'a' <= file <= 'h' && '1' <= rank <= '8'
    ensures TryFromCharChar(file, rank).Ok? ==>
              TryFromCharChar(file, rank) == TryFromCharU8Checked(file, rank as int - '0' as int)
  {
  }

  /** Non-ASCII chars with the low byte of a valid letter or digit are read
      as that letter or digit: ('a', 'ı') and ('š', '1') both give a1. */
  lemma TryFromCharCharAcceptsNonAscii()
    ensures TryFromCharChar('a', '\U{0131}') == Ok(Coord(0, 0))
    ensures TryFromCharChar('\U{0161}', '1') == Ok(Coord(0, 0))
  {
  }

  /** `TryFrom<(&str, u8)>`: the first char of the string with the rank, through
      the (char, u8) conversion as written. */
  function TryFromStrU8(file: string, rank: u8): (r: Result<Coord>)
    ensures file == [] ==> r == Err(InvalidCoords)
    ensures r.Ok? <==> file != [] && 'a' as int <= CharAsU8(file[0]) <= 'h' as int && 1 <= rank <= 8
    ensures r.Ok? ==> r == TryFromCharU8(file[0], rank)
  {
    if file == [] then Err(InvalidCoords) else TryFromCharU8(file[0], rank)
  }

  /** ("š", 1) is a1, as for the (char, u8) conversion. */
  lemma TryFromStrU8AcceptsNonAscii()
    ensures TryFromStrU8("\U{0161}", 1) == Ok(Coord(0, 0))
  {
  }

  /** `TryFrom<&str>`: more than two bytes, or fewer than two chars, is
      `InvalidCoords`; otherwise the two chars as (file, rank). */
  function TryFromStr(s: string): (r: Result<Coord>)
    ensures Utf8Len(s) > 2 || |s| < 2 ==> r == Err(InvalidCoords)
    ensures r.Ok? <==> |s| == 2 && 'a' <= s[0] <= 'h' && '1' <= s[1] <= '8'
  {
    if Utf8Len(s) > 2 then Err(InvalidCoords)
    else if |s| < 2 then Err(InvalidCoords)
    else TryFromCharChar(s[0], s[1])
  }

  /** `TryFrom<(&str, &str)>`: each part must be at most one byte and non-empty. */
  function TryFromStrStr(file: string, rank: string): (r: Result<Coord>)
    ensures Utf8Len(file) > 1 || Utf8Len(rank) > 1 || file == [] || rank == [] ==> r == Err(InvalidCoords)
    ensures r.Ok? <==> |file| == 1 && |rank| == 1 && 'a' <= file[0] <= 'h' && '1' <= rank[0] <= '8'
  {
    if Utf8Len(file) > 1 || Utf8Len(rank) > 1 then Err(InvalidCoords)
    else if file == [] || rank == [] then Err(InvalidCoords)
    else TryFromCharChar(file[0], rank[0])
  }

  /** `TryFrom<u8>`: index `8 * rank + file`. */
  function TryFromIndex(index: u8): (r: Result<Coord>)
    ensures index >= 64 ==> r == Err(IndexOutOfRange)
    ensures index < 64 ==> r.Ok? && 8 * r.value.rank + r.value.file == index
  {
    if index >= 64 then Err(IndexOutOfRange) else New(index % 8, index / 8)
  }

  /** The index of a coordinate, `8 * rank + file`. */
  function ToIndex(c: Coord): (i: nat)
    ensures i < 64
  {
    8 * c.rank + c.file
  }

  /** `From<Coord> for u64`: the file mask and the rank mask intersected. */
  function ToBitmask(c: Coord): (m: Mask)
    ensures m == {ToIndex(c)}
  {
    SquareBit(c.file, c.rank);
    FILES[c.file] * RANKS[c.rank]
  }

  /** The test of the `From<u64>` loops: `bitmask & mask > 1`. */
  predicate Meets(m: Mask, mask: Mask)
  {
    AboveOne(m * mask)
  }

  /** The first `k >= i` whose mask meets `m` in a value above 1, or `|masks|`. */
  function FirstAboveOne(m: Mask, masks: seq<Mask>, i: nat): (k: nat)
    requires i <= |masks|
    ensures i <= k <= |masks|
    ensures k < |masks| ==> Meets(m, masks[k])
    ensures forall j :: i <= j < k ==> !Meets(m, masks[j])
    decreases |masks| - i
  {
    if i == |masks| then i
    else if Meets(m, masks[i]) then i
    else FirstAboveOne(m, masks, i + 1)
  }

  /** The search result is pinned down by the masks it passes and the one it stops at. */
  lemma {:induction false} FirstAboveOneAt(m: Mask, masks: seq<Mask>, i: nat, k: nat)
    requires i <= k <= |masks|
    requires forall j :: i <= j < k ==> !Meets(m, masks[j])
    requires k < |masks| ==> Meets(m, masks[k])
    ensures FirstAboveOne(m, masks, i) == k
    decreases k - i
  {
    if i < k {
      FirstAboveOneAt(m, masks, i + 1, k);
    }
  }

  /** The index the loops of `From<u64>` settle on: the first mask that the
      bitmask meets in a value above 1, or 0 when there is none. */
  function MaskIndex(m: Mask, masks: seq<Mask>): (k: nat)
    requires |masks| == 8
    ensures k < 8
  {
    var k := FirstAboveOne(m, masks, 0);
    if k < 8 then k else 0
  }

  /** `From<u64>`, stated as a function of the mask. */
  function FromBitmask(m: Mask): Coord
  {
    Coord(MaskIndex(m, FILES), MaskIndex(m, RANKS))
  }

  /** `From<u64>` as the library runs it: two searching loops that stop at
      the first file, then the first rank, meeting the mask above 1. */
  method FromBitmaskLoop(m: Mask) returns (c: Coord)
    ensures c == FromBitmask(m)
  {
    var fileIdx := 0;
    var i := 0;
    while i < 8
      invariant 0 <= i <= 8
      invariant FirstAboveOne(m, FILES, 0) == FirstAboveOne(m, FILES, i)
      invariant fileIdx == 0
    {
      if Meets(m, FILES[i]) {
        fileIdx := i;
        break;
      }
      i := i + 1;
    }
    var rankIdx := 0;
    var j := 0;
    while j < 8
      invariant 0 <= j <= 8
      invariant FirstAboveOne(m, RANKS, 0) == FirstAboveOne(m, RANKS, j)
      invariant rankIdx == 0
    {
      if Meets(m, RANKS[j]) {
        rankIdx := j;
        break;
      }
      j := j + 1;
    }
    c := Coord(fileIdx, rankIdx);
  }

  /** A square's bit meets a file (rank) mask only at its own file (rank). */
  lemma {:induction false} SquareAgainstMasks(c: Coord, k: nat)
    requires k < 8
    ensures ToBitmask(c) * FILES[k] == if k == c.file then ToBitmask(c) else {}
    ensures ToBitmask(c) * RANKS[k] == if k == c.rank then ToBitmask(c) else {}
  {
    FileBits(k, ToIndex(c));
    RankBits(k, ToIndex(c));
  }

  /** `Coord::from(u64::from(c)) == c` for every square. */
  lemma {:induction false} BitmaskRoundTrip(c: Coord)
    ensures FromBitmask(ToBitmask(c)) == c
  {
    var m := ToBitmask(c);
    assert MaskIndex(m, FILES) == if AboveOne(m) then c.file else 0 by {
      SquareFileMasks(c);
      MaskIndexAt(m, FILES, c.file);
    }
    assert MaskIndex(m, RANKS) == if AboveOne(m) then c.rank else 0 by {
      SquareRankMasks(c);
      MaskIndexAt(m, RANKS, c.rank);
    }
    if !AboveOne(m) {
      assert ToIndex(c) in m;
    }
  }

  /** A square's bit meets the file masks only at its own file. */
  lemma SquareFileMasks(c: Coord)
    ensures forall k | 0 <= k < 8 :: ToBitmask(c) * FILES[k] == (if k == c.file then ToBitmask(c) else {})
  {
    forall k | 0 <= k < 8
      ensures ToBitmask(c) * FILES[k] == (if k == c.file then ToBitmask(c) else {})
    {
      SquareAgainstMasks(c, k);
    }
  }

  /** A square's bit meets the rank masks only at its own rank. */
  lemma SquareRankMasks(c: Coord)
    ensures forall k | 0 <= k < 8 :: ToBitmask(c) * RANKS[k] == (if k == c.rank then ToBitmask(c) else {})
  {
    forall k | 0 <= k < 8
      ensures ToBitmask(c) * RANKS[k] == (if k == c.rank then ToBitmask(c) else {})
    {
      SquareAgainstMasks(c, k);
    }
  }

  /** When a mask meets exactly one of eight masks, the search settles on
      that one, unless the mask is at most 1 and meets none above 1. */
  lemma MaskIndexAt(m: Mask, masks: seq<Mask>, x: nat)
    requires |masks| == 8 && x < 8
    requires forall k | 0 <= k < 8 :: m * masks[k] == (if k == x then m else {})
    ensures MaskIndex(m, masks) == if AboveOne(m) then x else 0
  {
    if AboveOne(m) {
      assert Meets(m, masks[x]);
      FirstAboveOneAt(m, masks, 0, x);
    } else {
      forall j | 0 <= j < 8
        ensures !Meets(m, masks[j])
      {
        assert m * masks[j] <= m;
      }
      FirstAboveOneAt(m, masks, 0, 8);
    }
  }

  /** `Coord == (char, u8)` and the other `PartialEq` impls: a failed
      conversion compares unequal. */
  predicate EqResult(c: Coord, r: Result<Coord>)
  {
    r.Ok? && r.value == c
  }

  /** `is_eq` and `PartialEq<(char, u8)>`: equal exactly when the pair, its
      char cut to the low byte, names this square. */
  function EqCharU8(c: Coord, file: char, rank: u8): (b: bool)
    ensures b <==> CharAsU8(file) == 'a' as int + c.file && rank == c.rank + 1
  {
    EqResult(c, TryFromCharU8(file, rank))
  }

  /** `PartialEq<&str>`. */
  predicate EqStr(c: Coord, s: string)
  {
    EqResult(c, TryFromStr(s))
  }

  /** A conversion that fails never compares equal; one that succeeds
      compares equal exactly with its own result. */
  lemma EqFailsOnError(c: Coord, r: Result<Coord>)
    ensures r.Err? ==> !EqResult(c, r)
    ensures r.Ok? ==> (EqResult(c, r) <==> c == r.value)
  {
  }

  /** Printing and parsing are inverse. */
  lemma StringRoundTrip(c: Coord)
    ensures TryFromStr(ToString(c)) == Ok(c)
    ensures EqStr(c, ToString(c))
  {
    ToStringShape(c);
    assert Utf8Len(ToString(c)) == 2;
  }

  /** `to_char_u8_coord` and `TryFrom<(char, u8)>` are inverse. */
  lemma CharU8RoundTrip(c: Coord)
    ensures TryFromCharU8(ToCharU8Coord(c).0, ToCharU8Coord(c).1) == Ok(c)
    ensures EqCharU8(c, ToCharU8Coord(c).0, ToCharU8Coord(c).1)
  {
  }

  /** Every square comes back from its own index. */
  lemma CoordIndexRoundTrip(c: Coord)
    ensures TryFromIndex(ToIndex(c)) == Ok(c)
  {
  }

  /** `TryFrom<u8>` and the index are inverse on 0..63. */
  lemma IndexRoundTrip(index: nat)
    requires index < 64
    ensures TryFromIndex(index).Ok? && ToIndex(TryFromIndex(index).value) == index
  {
  }
}
