// The `u64` bitboard constants of the library: one mask per file, one per
// rank, the light and dark square sets, and one single-bit mask per square.
// Bit `8 * rank + file` stands for the square (file, rank), so a1 is bit 0
// and h8 is bit 63.
//
// A `u64` mask is modelled as the set of the positions of its one bits:
// `a & b` is set intersection, `a | b` union, `a ^ b` symmetric difference,
// `a > 0` non-emptiness and `a > 1` the presence of a bit other than bit 0.
// Each constant is defined from the library's own hexadecimal literal.

module Bitmask {

  /** A bit position of a `u64`, which is also a square index. */
  type Square = b: nat | b < 64

  /** A `u64`, as the set of its one bits. */
  type Mask = set<Square>

  /** Whether bit `b` of the machine word `m` is set. */
  predicate Bit(m: bv64, b: nat)
    requires b < 64
  {
    (m >> b) & 1 == 1
  }

  /** The one bits of a machine word. */
  function BitsOf(m: bv64): Mask
  {
    set b: Square | 0 <= b < 64 && Bit(m, b)
  }

  /** `x > 0` for a `u64`. */
  predicate NonZero(m: Mask) { m != {} }

  /** `x > 1` for a `u64`: some bit other than bit 0 is set. */
  predicate AboveOne(m: Mask) { exists b :: b in m && b > 0 }

  /** `1 << i`. */
  function SingleBit(i: Square): (m: Mask)
    ensures BitsOf((1 as bv64) << i) == m
  {
    var m := BitsOf((1 as bv64) << i);
    forall b: Square ensures b in m <==> b == i {
      ShiftedBit(i, b);
    }
    {i}
  }

  lemma ShiftedBit(i: Square, b: Square)
    ensures Bit((1 as bv64) << i, b) <==> b == i
  {
    if b < i {
      LowBitClear(i, b);
    } else if b > i {
      HighBitClear(i, b);
    }
  }

  /** The bits below bit `i` of `1 << i` are clear; the shift amount is
      split into quarters, which the solver handles far more cheaply than
      the whole range at once. */
  lemma LowBitClear(i: Square, b: Square)
    requires b < i
    ensures !Bit((1 as bv64) << i, b)
  {
    if i < 16 {
      LowBitClear0(i, b);
    } else if i < 32 {
      LowBitClear1(i, b);
    } else if i < 48 {
      LowBitClear2(i, b);
    } else {
      LowBitClear3(i, b);
    }
  }

  /** The bits above bit `i` of `1 << i` are clear. */
  lemma HighBitClear(i: Square, b: Square)
    requires b > i
    ensures !Bit((1 as bv64) << i, b)
  {
    if i < 16 {
      HighBitClear0(i, b);
    } else if i < 32 {
      HighBitClear1(i, b);
    } else if i < 48 {
      HighBitClear2(i, b);
    } else {
      HighBitClear3(i, b);
    }
  }

  lemma LowBitClear0(i: Square, b: Square)
    requires b < i && 0 <= i < 16
    ensures !Bit((1 as bv64) << i, b)
  {
  }

  lemma HighBitClear0(i: Square, b: Square)
    requires b > i && 0 <= i < 16
    ensures !Bit((1 as bv64) << i, b)
  {
  }

  lemma LowBitClear1(i: Square, b: Square)
    requires b < i && 16 <= i < 32
    ensures !Bit((1 as bv64) << i, b)
  {
  }

  lemma HighBitClear1(i: Square, b: Square)
    requires b > i && 16 <= i < 32
    ensures !Bit((1 as bv64) << i, b)
  {
  }

  lemma LowBitClear2(i: Square, b: Square)
    requires b < i && 32 <= i < 48
    ensures !Bit((1 as bv64) << i, b)
  {
  }

  lemma HighBitClear2(i: Square, b: Square)
    requires b > i && 32 <= i < 48
    ensures !Bit((1 as bv64) << i, b)
  {
  }

  lemma LowBitClear3(i: Square, b: Square)
    requires b < i && 48 <= i < 64
    ensures !Bit((1 as bv64) << i, b)
  {
  }

  lemma HighBitClear3(i: Square, b: Square)
    requires b > i && 48 <= i < 64
    ensures !Bit((1 as bv64) << i, b)
  {
  }

  const FILE_A: Mask := BitsOf(0x101010101010101)
  const FILE_B: Mask := BitsOf(0x202020202020202)
  const FILE_C: Mask := BitsOf(0x404040404040404)
  const FILE_D: Mask := BitsOf(0x808080808080808)
  const FILE_E: Mask := BitsOf(0x1010101010101010)
  const FILE_F: Mask := BitsOf(0x2020202020202020)
  const FILE_G: Mask := BitsOf(0x4040404040404040)
  const FILE_H: Mask := BitsOf(0x8080808080808080)
  const FILES: seq<Mask> := [FILE_A, FILE_B, FILE_C, FILE_D, FILE_E, FILE_F, FILE_G, FILE_H]

  const RANK_1: Mask := BitsOf(0xFF)
  const RANK_2: Mask := BitsOf(0xFF00)
  const RANK_3: Mask := BitsOf(0xFF0000)
  const RANK_4: Mask := BitsOf(0xFF000000)
  const RANK_5: Mask := BitsOf(0xFF00000000)
  const RANK_6: Mask := BitsOf(0xFF0000000000)
  const RANK_7: Mask := BitsOf(0xFF000000000000)
  const RANK_8: Mask := BitsOf(0xFF00000000000000)
  const RANKS: seq<Mask> := [RANK_1, RANK_2, RANK_3, RANK_4, RANK_5, RANK_6, RANK_7, RANK_8]

  const LIGHT_SQUARES: Mask := BitsOf(0x55AA55AA55AA55AA)
  const DARK_SQUARES: Mask := BitsOf(0xAA55AA55AA55AA55)

  const A1: Mask := FILE_A * RANK_1
  const A2: Mask := FILE_A * RANK_2
  const A3: Mask := FILE_A * RANK_3
  const A4: Mask := FILE_A * RANK_4
  const A5: Mask := FILE_A * RANK_5
  const A6: Mask := FILE_A * RANK_6
  const A7: Mask := FILE_A * RANK_7
  const A8: Mask := FILE_A * RANK_8
  const B1: Mask := FILE_B * RANK_1
  const B2: Mask := FILE_B * RANK_2
  const B3: Mask := FILE_B * RANK_3
  const B4: Mask := FILE_B * RANK_4
  const B5: Mask := FILE_B * RANK_5
  const B6: Mask := FILE_B * RANK_6
  const B7: Mask := FILE_B * RANK_7
  const B8: Mask := FILE_B * RANK_8
  const C1: Mask := FILE_C * RANK_1
  const C2: Mask := FILE_C * RANK_2
  const C3: Mask := FILE_C * RANK_3
  const C4: Mask := FILE_C * RANK_4
  const C5: Mask := FILE_C * RANK_5
  const C6: Mask := FILE_C * RANK_6
  const C7: Mask := FILE_C * RANK_7
  const C8: Mask := FILE_C * RANK_8
  const D1: Mask := FILE_D * RANK_1
  const D2: Mask := FILE_D * RANK_2
  const D3: Mask := FILE_D * RANK_3
  const D4: Mask := FILE_D * RANK_4
  const D5: Mask := FILE_D * RANK_5
  const D6: Mask := FILE_D * RANK_6
  const D7: Mask := FILE_D * RANK_7
  const D8: Mask := FILE_D * RANK_8
  const E1: Mask := FILE_E * RANK_1
  const E2: Mask := FILE_E * RANK_2
  const E3: Mask := FILE_E * RANK_3
  const E4: Mask := FILE_E * RANK_4
  const E5: Mask := FILE_E * RANK_5
  const E6: Mask := FILE_E * RANK_6
  const E7: Mask := FILE_E * RANK_7
  const E8: Mask := FILE_E * RANK_8
  const F1: Mask := FILE_F * RANK_1
  const F2: Mask := FILE_F * RANK_2
  const F3: Mask := FILE_F * RANK_3
  const F4: Mask := FILE_F * RANK_4
  const F5: Mask := FILE_F * RANK_5
  const F6: Mask := FILE_F * RANK_6
  const F7: Mask := FILE_F * RANK_7
  const F8: Mask := FILE_F * RANK_8
  const G1: Mask := FILE_G * RANK_1
  const G2: Mask := FILE_G * RANK_2
  const G3: Mask := FILE_G * RANK_3
  const G4: Mask := FILE_G * RANK_4
  const G5: Mask := FILE_G * RANK_5
  const G6: Mask := FILE_G * RANK_6
  const G7: Mask := FILE_G * RANK_7
  const G8: Mask := FILE_G * RANK_8
  const H1: Mask := FILE_H * RANK_1
  const H2: Mask := FILE_H * RANK_2
  const H3: Mask := FILE_H * RANK_3
  const H4: Mask := FILE_H * RANK_4
  const H5: Mask := FILE_H * RANK_5
  const H6: Mask := FILE_H * RANK_6
  const H7: Mask := FILE_H * RANK_7
  const H8: Mask := FILE_H * RANK_8

  /** All 64 squares, the word with every bit set. */
  const ALL_SQUARES: Mask := BitsOf(0xFFFF_FFFF_FFFF_FFFF)

  lemma AllSquaresFull(b: Square)
    ensures b in ALL_SQUARES
  {
  }

  /** `FILES[i]` holds exactly the bits `8k + i`. */
  lemma FileBits(i: nat, b: Square)
    requires i < 8
    ensures b in FILES[i] <==> b % 8 == i
  {
    match i
    case 0 => FileABits(b);
    case 1 => FileBBits(b);
    case 2 => FileCBits(b);
    case 3 => FileDBits(b);
    case 4 => FileEBits(b);
    case 5 => FileFBits(b);
    case 6 => FileGBits(b);
    case 7 => FileHBits(b);
  }

  lemma FileABits(b: Square)
    ensures b in FILE_A <==> b % 8 == 0
  {
  }

  lemma FileBBits(b: Square)
    ensures b in FILE_B <==> b % 8 == 1
  {
  }

  lemma FileCBits(b: Square)
    ensures b in FILE_C <==> b % 8 == 2
  {
  }

  lemma FileDBits(b: Square)
    ensures b in FILE_D <==> b % 8 == 3
  {
  }

  lemma FileEBits(b: Square)
    ensures b in FILE_E <==> b % 8 == 4
  {
  }

  lemma FileFBits(b: Square)
    ensures b in FILE_F <==> b % 8 == 5
  {
  }

  lemma FileGBits(b: Square)
    ensures b in FILE_G <==> b % 8 == 6
  {
  }

  lemma FileHBits(b: Square)
    ensures b in FILE_H <==> b % 8 == 7
  {
  }

  /** `RANKS[j]` holds exactly the bits `8j .. 8j + 7`. */
  lemma RankBits(j: nat, b: Square)
    requires j < 8
    ensures b in RANKS[j] <==> b / 8 == j
  {
    match j
    case 0 => case 1 => case 2 => case 3 => case 4 => case 5 => case 6 => case 7 =>
  }

  /** A file mask and a rank mask meet in the single bit of their square. */
  lemma {:induction false} SquareBit(i: nat, j: nat)
    requires i < 8 && j < 8
    ensures FILES[i] * RANKS[j] == {8 * j + i}
  {
    forall b: Square
      ensures b in FILES[i] * RANKS[j] <==> b == 8 * j + i
    {
      FileBits(i, b);
      RankBits(j, b);
    }
  }

  /** Every named square constant is the single bit `8 (n - 1) + (x - 'a')`;
      in particular `A1` is bit 0 and `H8` bit 63. */
  lemma {:induction false} SquareConstants()
    ensures A1 == {0} && A2 == {8} && A3 == {16} && A4 == {24} && A5 == {32} && A6 == {40} && A7 == {48} && A8 == {56} &&
      B1 == {1} && B2 == {9} && B3 == {17} && B4 == {25} && B5 == {33} && B6 == {41} && B7 == {49} && B8 == {57} &&
      C1 == {2} && C2 == {10} && C3 == {18} && C4 == {26} && C5 == {34} && C6 == {42} && C7 == {50} && C8 == {58} &&
      D1 == {3} && D2 == {11} && D3 == {19} && D4 == {27} && D5 == {35} && D6 == {43} && D7 == {51} && D8 == {59} &&
      E1 == {4} && E2 == {12} && E3 == {20} && E4 == {28} && E5 == {36} && E6 == {44} && E7 == {52} && E8 == {60} &&
      F1 == {5} && F2 == {13} && F3 == {21} && F4 == {29} && F5 == {37} && F6 == {45} && F7 == {53} && F8 == {61} &&
      G1 == {6} && G2 == {14} && G3 == {22} && G4 == {30} && G5 == {38} && G6 == {46} && G7 == {54} && G8 == {62} &&
      H1 == {7} && H2 == {15} && H3 == {23} && H4 == {31} && H5 == {39} && H6 == {47} && H7 == {55} && H8 == {63}
  {
    SquareBit(0, 0); assert A1 == {0};
    SquareBit(0, 1); assert A2 == {8};
    SquareBit(0, 2); assert A3 == {16};
    SquareBit(0, 3); assert A4 == {24};
    SquareBit(0, 4); assert A5 == {32};
    SquareBit(0, 5); assert A6 == {40};
    SquareBit(0, 6); assert A7 == {48};
    SquareBit(0, 7); assert A8 == {56};
    SquareBit(1, 0); assert B1 == {1};
    SquareBit(1, 1); assert B2 == {9};
    SquareBit(1, 2); assert B3 == {17};
    SquareBit(1, 3); assert B4 == {25};
    SquareBit(1, 4); assert B5 == {33};
    SquareBit(1, 5); assert B6 == {41};
    SquareBit(1, 6); assert B7 == {49};
    SquareBit(1, 7); assert B8 == {57};
    SquareBit(2, 0); assert C1 == {2};
    SquareBit(2, 1); assert C2 == {10};
    SquareBit(2, 2); assert C3 == {18};
    SquareBit(2, 3); assert C4 == {26};
    SquareBit(2, 4); assert C5 == {34};
    SquareBit(2, 5); assert C6 == {42};
    SquareBit(2, 6); assert C7 == {50};
    SquareBit(2, 7); assert C8 == {58};
    SquareBit(3, 0); assert D1 == {3};
    SquareBit(3, 1); assert D2 == {11};
    SquareBit(3, 2); assert D3 == {19};
    SquareBit(3, 3); assert D4 == {27};
    SquareBit(3, 4); assert D5 == {35};
    SquareBit(3, 5); assert D6 == {43};
    SquareBit(3, 6); assert D7 == {51};
    SquareBit(3, 7); assert D8 == {59};
    SquareBit(4, 0); assert E1 == {4};
    SquareBit(4, 1); assert E2 == {12};
    SquareBit(4, 2); assert E3 == {20};
    SquareBit(4, 3); assert E4 == {28};
    SquareBit(4, 4); assert E5 == {36};
    SquareBit(4, 5); assert E6 == {44};
    SquareBit(4, 6); assert E7 == {52};
    SquareBit(4, 7); assert E8 == {60};
    SquareBit(5, 0); assert F1 == {5};
    SquareBit(5, 1); assert F2 == {13};
    SquareBit(5, 2); assert F3 == {21};
    SquareBit(5, 3); assert F4 == {29};
    SquareBit(5, 4); assert F5 == {37};
    SquareBit(5, 5); assert F6 == {45};
    SquareBit(5, 6); assert F7 == {53};
    SquareBit(5, 7); assert F8 == {61};
    SquareBit(6, 0); assert G1 == {6};
    SquareBit(6, 1); assert G2 == {14};
    SquareBit(6, 2); assert G3 == {22};
    SquareBit(6, 3); assert G4 == {30};
    SquareBit(6, 4); assert G5 == {38};
    SquareBit(6, 5); assert G6 == {46};
    SquareBit(6, 6); assert G7 == {54};
    SquareBit(6, 7); assert G8 == {62};
    SquareBit(7, 0); assert H1 == {7};
    SquareBit(7, 1); assert H2 == {15};
    SquareBit(7, 2); assert H3 == {23};
    SquareBit(7, 3); assert H4 == {31};
    SquareBit(7, 4); assert H5 == {39};
    SquareBit(7, 5); assert H6 == {47};
    SquareBit(7, 6); assert H7 == {55};
    SquareBit(7, 7); assert H8 == {63};
  }

  /** Light squares are those whose file and rank indices differ in parity. */
  lemma LightSquareParity(b: Square)
    ensures b in LIGHT_SQUARES <==> (b % 8 + b / 8) % 2 == 1
    ensures b in DARK_SQUARES <==> (b % 8 + b / 8) % 2 == 0
  {
  }

  /** Light and dark squares partition the board; a1 is dark. */
  lemma {:induction false} LightDarkPartition()
    ensures LIGHT_SQUARES * DARK_SQUARES == {}
    ensures LIGHT_SQUARES + DARK_SQUARES == ALL_SQUARES
    ensures 0 !in LIGHT_SQUARES && 0 in DARK_SQUARES
  {
    forall b: Square
      ensures b !in LIGHT_SQUARES * DARK_SQUARES
      ensures b in LIGHT_SQUARES + DARK_SQUARES <==> b in ALL_SQUARES
    {
      LightSquareParity(b);
      AllSquaresFull(b);
    }
    LightSquareParity(0);
  }

  /** Two different files share no square. */
  lemma {:induction false} FilesDisjoint(i: nat, k: nat)
    requires i < 8 && k < 8 && i != k
    ensures FILES[i] * FILES[k] == {}
  {
    forall b: Square
      ensures b !in FILES[i] * FILES[k]
    {
      FileBits(i, b);
      FileBits(k, b);
    }
  }

  /** Two different ranks share no square. */
  lemma {:induction false} RanksDisjoint(j: nat, k: nat)
    requires j < 8 && k < 8 && j != k
    ensures RANKS[j] * RANKS[k] == {}
  {
    forall b: Square
      ensures b !in RANKS[j] * RANKS[k]
    {
      RankBits(j, b);
      RankBits(k, b);
    }
  }

  /** The eight files together cover the board, and so do the eight ranks. */
  lemma {:induction false} FilesAndRanksCover()
    ensures FILE_A + FILE_B + FILE_C + FILE_D + FILE_E + FILE_F + FILE_G + FILE_H == ALL_SQUARES
    ensures RANK_1 + RANK_2 + RANK_3 + RANK_4 + RANK_5 + RANK_6 + RANK_7 + RANK_8 == ALL_SQUARES
  {
    forall b: Square
      ensures b in FILES[b % 8] && b in RANKS[b / 8] && b in ALL_SQUARES
    {
      FileBits(b % 8, b);
      RankBits(b / 8, b);
      AllSquaresFull(b);
    }
  }
}
