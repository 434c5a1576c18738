/** The bitwise CRC-32 (reflected, polynomial 0xEDB88320) that guards the stored
    record, and what it detects. The algorithm is the one of section 8 of RFC
    1952 and section 3.2.9 of IEEE 802.3. */
module Crc32 {
  import opened Config

  const POLY: bv32 := 0xEDB8_8320
  const INITIAL: bv32 := 0xFFFF_FFFF

  /** Addition over GF(2). */
  function Xor(a: bv32, b: bv32): bv32 {
    a ^ b
  }

  function Not(a: bv32): bv32 {
    !a
  }

  function Half(a: bv32): bv32 {
    a >> 1
  }

  predicate Even(a: bv32) {
    a & 1 == 0
  }

  /** One shift of the register. */
  function StepBit(crc: bv32): bv32 {
    (crc >> 1) ^ (POLY & (0 - (crc & 1)))
  }

  function StepBits(crc: bv32, n: nat): bv32
    decreases n
  {
    if n == 0 then crc else StepBits(StepBit(crc), n - 1)
  }

  /** One byte of input: xor it in, then eight shifts. */
  function FeedByte(crc: bv32, b: byte): bv32 {
    StepBits(Xor(crc, b as bv32), 8)
  }

  function Feed(crc: bv32, data: seq<byte>): bv32
    decreases |data|
  {
    if data == [] then crc else Feed(FeedByte(crc, data[0]), data[1..])
  }

  /** The CRC of a block of bytes. */
  function Crc(data: seq<byte>): bv32 {
    Not(Feed(INITIAL, data))
  }

  lemma {:induction false} FeedConcat(crc: bv32, a: seq<byte>, b: seq<byte>)
    ensures Feed(crc, a + b) == Feed(Feed(crc, a), b)
    decreases |a|
  {
    if a == [] {
      assert a + b == b;
    } else {
      assert (a + b)[1..] == a[1..] + b;
      FeedConcat(FeedByte(crc, a[0]), a[1..], b);
    }
  }

  /** The loop of the firmware: eight conditional shifts for every byte. */
  method ComputeCrc32(data: seq<byte>) returns (r: bv32)
    ensures r == Crc(data)
  {
    hide Xor, StepBit;
    var crc := INITIAL;
    for i := 0 to |data|
      invariant Feed(crc, data[i..]) == Feed(INITIAL, data)
    {
      ghost var before := crc;
      assert data[i..][1..] == data[i + 1..];
      crc := Xor(crc, data[i] as bv32);
      for k := 0 to 8
        invariant StepBits(crc, 8 - k) == FeedByte(before, data[i])
      {
        crc := StepBit(crc);
      }
    }
    r := Not(crc);
  }

  lemma {:induction false} XorIs(a: bv32, b: bv32)
    ensures Xor(a, b) == a ^ b
  {
  }

  // ---- the register step over GF(2) ----

  /** The polynomial's top bit is set, so the step loses nothing. */
  lemma {:induction false} StepBitInjective(a: bv32, b: bv32)
    requires StepBit(a) == StepBit(b)
    ensures a == b
  {
  }

  lemma {:induction false} StepBitsInjective(a: bv32, b: bv32, n: nat)
    requires StepBits(a, n) == StepBits(b, n)
    ensures a == b
    decreases n
  {
    if n == 0 {
    } else {
      StepBitsInjective(StepBit(a), StepBit(b), n - 1);
      StepBitInjective(a, b);
    }
  }

  lemma {:induction false} StepBitsAdd(a: bv32, m: nat, n: nat)
    ensures StepBits(a, m + n) == StepBits(StepBits(a, m), n)
    decreases m
  {
    if m == 0 {
    } else {
      StepBitsAdd(StepBit(a), m - 1, n);
    }
  }

  /** A difference that has not reached the low bit only shifts. */
  lemma {:induction false} StepBitShifts(x: bv32, y: bv32)
    requires Even(y)
    ensures StepBit(Xor(x, y)) == Xor(StepBit(x), Half(y))
  {
    RawShift(x, y);
    XorIs(x, y);
    XorIs(StepBit(x), y >> 1);
    hide StepBit, Xor;
  }

  lemma {:induction false} RawShift(x: bv32, y: bv32)
    requires y & 1 == 0
    ensures StepBit(x ^ y) == StepBit(x) ^ (y >> 1)
  {
    ShiftOfXor(x, y);
    LowBitOfXor(x, y);
    XorSwaps(x >> 1, y >> 1, POLY & (0 - (x & 1)));
  }

  lemma {:induction false} ShiftOfXor(x: bv32, y: bv32)
    ensures (x ^ y) >> 1 == (x >> 1) ^ (y >> 1)
  {
  }

  lemma {:induction false} LowBitOfXor(x: bv32, y: bv32)
    requires y & 1 == 0
    ensures (x ^ y) & 1 == x & 1
  {
  }

  lemma {:induction false} XorSwaps(a: bv32, b: bv32, c: bv32)
    ensures (a ^ b) ^ c == (a ^ c) ^ b
  {
  }

  function ShiftDown(y: bv32, n: nat): bv32
    decreases n
  {
    if n == 0 then y else ShiftDown(Half(y), n - 1)
  }

  ghost predicate LowZero(y: bv32, n: nat)
    decreases n
  {
    n == 0 || (Even(y) && LowZero(Half(y), n - 1))
  }

  /** n shifts of a difference that starts n bits up. */
  lemma {:induction false} StepBitsShift(x: bv32, y: bv32, n: nat)
    requires LowZero(y, n)
    ensures StepBits(Xor(x, y), n) == Xor(StepBits(x, n), ShiftDown(y, n))
    decreases n
  {
    hide StepBit, Xor, Half, Even;
    if n == 0 {
    } else {
      StepBitShifts(x, y);
      StepBitsShift(StepBit(x), Half(y), n - 1);
    }
  }

  /** Four bytes as a little-endian word. */
  function Word(a: byte, b: byte, c: byte, d: byte): bv32 {
    (a as bv32) | ((b as bv32) << 8) | ((c as bv32) << 16) | ((d as bv32) << 24)
  }

  lemma {:induction false} WordInjective(a: byte, b: byte, c: byte, d: byte, a': byte, b': byte, c': byte, d': byte)
    requires Word(a, b, c, d) == Word(a', b', c', d')
    ensures a == a' && b == b' && c == c' && d == d'
  {
  }

  /** The low byte of a word and the rest of it. */
  lemma {:induction false} WordSplit(r: bv32, a: byte, b: byte, c: byte, d: byte)
    ensures var rest := Word(0, b, c, d);
            && Xor(r, Word(a, b, c, d)) == Xor(Xor(r, a as bv32), rest)
            && LowZero(rest, 8) && ShiftDown(rest, 8) == Word(b, c, d, 0)
  {
    hide Xor, LowZero, ShiftDown, Word;
    WordLow(a, b, c, d);
    XorAssoc(r, a as bv32, Word(0, b, c, d));
    WordHigh(b, c, d);
  }

  lemma {:induction false} WordLow(a: byte, b: byte, c: byte, d: byte)
    ensures Word(a, b, c, d) == Xor(a as bv32, Word(0, b, c, d))
  {
  }

  lemma {:induction false} WordHigh(b: byte, c: byte, d: byte)
    ensures LowZero(Word(0, b, c, d), 8) && ShiftDown(Word(0, b, c, d), 8) == Word(b, c, d, 0)
  {
    hide LowZero, ShiftDown, Word, LowByteClear, ByteDown;
    WordBytes(b, c, d);
    LowByteZero(Word(0, b, c, d));
  }

  predicate LowByteClear(w: bv32) {
    w & 0xFF == 0
  }

  function ByteDown(w: bv32): bv32 {
    w >> 8
  }

  lemma {:induction false} WordBytes(b: byte, c: byte, d: byte)
    ensures LowByteClear(Word(0, b, c, d)) && ByteDown(Word(0, b, c, d)) == Word(b, c, d, 0)
  {
  }

  lemma {:induction false} XorAssoc(x: bv32, y: bv32, z: bv32)
    ensures Xor(x, Xor(y, z)) == Xor(Xor(x, y), z)
  {
  }

  lemma {:induction false} LowByteZero(y: bv32)
    requires LowByteClear(y)
    ensures LowZero(y, 8) && ShiftDown(y, 8) == ByteDown(y)
  {
  }

  /** Feeding the low byte of a word: eight of its 32 shifts. */
  lemma {:induction false} FeedLowByte(r: bv32, a: byte, b: byte, c: byte, d: byte, n: nat)
    ensures StepBits(Xor(r, Word(a, b, c, d)), 8 + n) == StepBits(Xor(FeedByte(r, a), Word(b, c, d, 0)), n)
  {
    hide StepBits, Xor, Word, LowZero, ShiftDown;
    WordSplit(r, a, b, c, d);
    StepBitsAdd(Xor(r, Word(a, b, c, d)), 8, n);
    StepBitsShift(Xor(r, a as bv32), Word(0, b, c, d), 8);
  }

  /** Feeding four bytes is xoring in their little-endian word and shifting 32 times. */
  lemma {:induction false} FeedWord(r: bv32, a: byte, b: byte, c: byte, d: byte)
    ensures FeedByte(FeedByte(FeedByte(FeedByte(r, a), b), c), d) == StepBits(Xor(r, Word(a, b, c, d)), 32)
  {
    hide FeedByte, StepBits, Xor, Word;
    var r1 := FeedByte(r, a);
    var r2 := FeedByte(r1, b);
    var r3 := FeedByte(r2, c);
    FeedLowByte(r, a, b, c, d, 24);
    FeedLowByte(r1, b, c, d, 0, 16);
    FeedLowByte(r2, c, d, 0, 0, 8);
    FeedLowByte(r3, d, 0, 0, 0, 0);
    NothingLeft(FeedByte(r3, d));
  }

  lemma {:induction false} NothingLeft(r: bv32)
    ensures StepBits(Xor(r, Word(0, 0, 0, 0)), 0) == r
  {
  }

  // ---- the message as a stream of bits, low bit of each byte first ----

  function Bit(b: byte, i: nat): bool
    requires i < 8
  {
    if i == 0 then b & 1 != 0 else if i == 1 then b & 2 != 0 else if i == 2 then b & 4 != 0
    else if i == 3 then b & 8 != 0 else if i == 4 then b & 16 != 0 else if i == 5 then b & 32 != 0
    else if i == 6 then b & 64 != 0 else b & 128 != 0
  }

  /** Bit j of the stream that `data` puts on the wire. */
  function BitAt(data: seq<byte>, j: nat): bool
    requires j < 8 * |data|
  {
    Bit(data[j / 8], j % 8)
  }

  function BitWord(b: bool): bv32 {
    if b then 1 else 0
  }

  function FeedBit(crc: bv32, b: bool): bv32 {
    StepBit(Xor(crc, BitWord(b)))
  }

  function FeedRange(crc: bv32, data: seq<byte>, i: nat, j: nat): bv32
    requires i <= j <= 8 * |data|
    decreases j - i
  {
    if i == j then crc else FeedRange(FeedBit(crc, BitAt(data, i)), data, i + 1, j)
  }

  lemma {:induction false} FeedRangeSplit(crc: bv32, data: seq<byte>, i: nat, m: nat, j: nat)
    requires i <= m <= j <= 8 * |data|
    ensures FeedRange(crc, data, i, j) == FeedRange(FeedRange(crc, data, i, m), data, m, j)
    decreases m - i
  {
    hide FeedBit;
    if i >= m {
    } else {
      FeedRangeSplit(FeedBit(crc, BitAt(data, i)), data, i + 1, m, j);
    }
  }

  ghost predicate SameBits(p: seq<byte>, q: seq<byte>, i: nat, j: nat)
    requires |p| == |q| && j <= 8 * |p|
  {
    forall k :: i <= k < j ==> BitAt(p, k) == BitAt(q, k)
  }

  lemma {:induction false} FeedRangeSame(crc: bv32, p: seq<byte>, q: seq<byte>, i: nat, j: nat)
    requires |p| == |q| && i <= j <= 8 * |p| && SameBits(p, q, i, j)
    ensures FeedRange(crc, p, i, j) == FeedRange(crc, q, i, j)
    decreases j - i
  {
    hide FeedBit, BitAt;
    if i >= j {
    } else {
      FeedRangeSame(FeedBit(crc, BitAt(p, i)), p, q, i + 1, j);
    }
  }

  lemma {:induction false} FeedRangeInjective(r: bv32, s: bv32, data: seq<byte>, i: nat, j: nat)
    requires i <= j <= 8 * |data| && FeedRange(r, data, i, j) == FeedRange(s, data, i, j)
    ensures r == s
    decreases j - i
  {
    hide BitAt, FeedBit;
    if i >= j {
    } else {
      var b := BitAt(data, i);
      FeedRangeInjective(FeedBit(r, b), FeedBit(s, b), data, i + 1, j);
      FeedBitInjective(r, s, b);
    }
  }

  lemma {:induction false} FeedBitInjective(r: bv32, s: bv32, b: bool)
    requires FeedBit(r, b) == FeedBit(s, b)
    ensures r == s
  {
    StepBitInjective(Xor(r, BitWord(b)), Xor(s, BitWord(b)));
    hide StepBit;
  }

  /** The eight stream bits from j on, as a byte. */
  function Gather(data: seq<byte>, j: nat): byte
    requires j + 8 <= 8 * |data|
  {
    Pack(BitAt(data, j), BitAt(data, j + 1), BitAt(data, j + 2), BitAt(data, j + 3),
         BitAt(data, j + 4), BitAt(data, j + 5), BitAt(data, j + 6), BitAt(data, j + 7))
  }

  function Pack(b0: bool, b1: bool, b2: bool, b3: bool, b4: bool, b5: bool, b6: bool, b7: bool): byte {
    (if b0 then 1 else 0) | (if b1 then 2 else 0) | (if b2 then 4 else 0) | (if b3 then 8 else 0) |
    (if b4 then 16 else 0) | (if b5 then 32 else 0) | (if b6 then 64 else 0) | (if b7 then 128 else 0)
  }

  lemma {:induction false} PackInjective(b: byte, b0: bool, b1: bool, b2: bool, b3: bool, b4: bool, b5: bool, b6: bool, b7: bool)
    requires b == Pack(b0, b1, b2, b3, b4, b5, b6, b7)
    ensures Bit(b, 0) == b0 && Bit(b, 1) == b1 && Bit(b, 2) == b2 && Bit(b, 3) == b3
    ensures Bit(b, 4) == b4 && Bit(b, 5) == b5 && Bit(b, 6) == b6 && Bit(b, 7) == b7
  {
  }

  /** One bit of a word xored in at once is the same as feeding it. */
  lemma {:induction false} PeelBit(r: bv32, w: bv32)
    ensures StepBit(Xor(r, w)) == Xor(FeedBit(r, !Even(w)), Half(w))
  {
    hide StepBit, Xor, Even, Half, BitWord, ClearLow;
    LowBitSplit(w);
    XorAssoc(r, BitWord(!Even(w)), ClearLow(w));
    StepBitShifts(Xor(r, BitWord(!Even(w))), ClearLow(w));
  }

  function ClearLow(w: bv32): bv32 {
    w & 0xFFFF_FFFE
  }

  lemma {:induction false} LowBitSplit(w: bv32)
    ensures w == Xor(BitWord(!Even(w)), ClearLow(w)) && Even(ClearLow(w)) && Half(ClearLow(w)) == Half(w)
  {
  }

  /** The next n bits of w, low bit first, fed one at a time. */
  function FeedLow(r: bv32, w: bv32, n: nat): bv32
    decreases n
  {
    if n == 0 then r else FeedLow(FeedBit(r, !Even(w)), Half(w), n - 1)
  }

  lemma {:induction false} FeedLowIsXor(r: bv32, w: bv32, n: nat)
    ensures StepBits(Xor(r, w), n) == Xor(FeedLow(r, w, n), ShiftDown(w, n))
    decreases n
  {
    hide StepBit, Xor, Half, Even, FeedBit;
    if n == 0 {
    } else {
      PeelBit(r, w);
      FeedLowIsXor(FeedBit(r, !Even(w)), Half(w), n - 1);
    }
  }

  lemma {:induction false} ByteRunsOut(b: byte)
    ensures ShiftDown(b as bv32, 8) == 0
  {
  }

  lemma {:induction false} XorZero(r: bv32)
    ensures Xor(r, 0) == r
  {
  }

  /** A byte is its eight bits, low bit first. */
  lemma {:induction false} FeedByteIsBits(r: bv32, b: byte)
    ensures FeedByte(r, b) == FeedLow(r, b as bv32, 8)
  {
    hide StepBits, FeedLow, ShiftDown, Xor;
    FeedLowIsXor(r, b as bv32, 8);
    ByteRunsOut(b);
    XorZero(FeedLow(r, b as bv32, 8));
  }

  /** The bits of a byte met by feeding it, as Bit numbers them. */
  lemma {:induction false} LowBits(b: byte, i: nat)
    requires i < 8
    ensures Bit(b, i) == !Even(ShiftDown(b as bv32, i))
  {
    match i {
      case 0 => case 1 => case 2 => case 3 => case 4 => case 5 => case 6 => case _ =>
    }
  }

  // ---- any 32 consecutive bits of the stream are one word ----

  lemma {:induction false} FeedRangeLow(r: bv32, data: seq<byte>, j: nat, w: bv32, n: nat)
    requires j + n <= 8 * |data|
    requires forall i :: 0 <= i < n ==> BitAt(data, j + i) == !Even(ShiftDown(w, i))
    ensures FeedRange(r, data, j, j + n) == FeedLow(r, w, n)
    decreases n
  {
    hide FeedBit, BitAt, Even, Half;
    if n == 0 {
    } else {
      assert BitAt(data, j + 0) == !Even(ShiftDown(w, 0));
      forall i | 0 <= i < n - 1 ensures BitAt(data, j + 1 + i) == !Even(ShiftDown(Half(w), i)) {
        assert BitAt(data, j + (i + 1)) == !Even(ShiftDown(w, i + 1));
      }
      FeedRangeLow(FeedBit(r, BitAt(data, j)), data, j + 1, Half(w), n - 1);
    }
  }

  lemma {:induction false} GatherBits(data: seq<byte>, j: nat, i: nat)
    requires j + 8 <= 8 * |data| && i < 8
    ensures Bit(Gather(data, j), i) == BitAt(data, j + i)
  {
    hide BitAt, Bit, Pack;
    PackInjective(Gather(data, j), BitAt(data, j), BitAt(data, j + 1), BitAt(data, j + 2), BitAt(data, j + 3),
                  BitAt(data, j + 4), BitAt(data, j + 5), BitAt(data, j + 6), BitAt(data, j + 7));
  }

  /** Eight stream bits, byte-aligned or not, act as the byte they make up. */
  lemma {:induction false} FeedRangeByte(r: bv32, data: seq<byte>, j: nat)
    requires j + 8 <= 8 * |data|
    ensures FeedRange(r, data, j, j + 8) == FeedByte(r, Gather(data, j))
  {
    hide Gather, FeedRange, FeedLow, FeedByte, BitAt, Bit, ShiftDown, Even;
    var g := Gather(data, j);
    var w := g as bv32;
    forall i | 0 <= i < 8 ensures BitAt(data, j + i) == !Even(ShiftDown(w, i)) {
      GatherBits(data, j, i);
      LowBits(g, i);
    }
    FeedRangeLow(r, data, j, w, 8);
    FeedByteIsBits(r, g);
  }

  lemma {:induction false} PackOfBits(b: byte)
    ensures Pack(Bit(b, 0), Bit(b, 1), Bit(b, 2), Bit(b, 3), Bit(b, 4), Bit(b, 5), Bit(b, 6), Bit(b, 7)) == b
  {
  }

  lemma {:induction false} GatherAligned(data: seq<byte>, k: nat)
    requires k < |data|
    ensures Gather(data, 8 * k) == data[k]
  {
    hide Bit, Pack;
    PackOfBits(data[k]);
  }

  /** Feeding bytes is feeding the stream of their bits. */
  lemma {:induction false} FeedIsRange(r: bv32, data: seq<byte>, k: nat)
    requires k <= |data|
    ensures Feed(r, data[k..]) == FeedRange(r, data, 8 * k, 8 * |data|)
    decreases |data| - k
  {
    hide FeedByte, Gather;
    if k >= |data| {
    } else {
      assert data[k..][1..] == data[k + 1..];
      FeedRangeByte(r, data, 8 * k);
      GatherAligned(data, k);
      FeedRangeSplit(r, data, 8 * k, 8 * k + 8, 8 * |data|);
      FeedIsRange(FeedByte(r, data[k]), data, k + 1);
    }
  }

  function WordAt(data: seq<byte>, j: nat): bv32
    requires j + 32 <= 8 * |data|
  {
    Word(Gather(data, j), Gather(data, j + 8), Gather(data, j + 16), Gather(data, j + 24))
  }

  /** 32 consecutive bits act as one word xored into the register. */
  lemma {:induction false} FeedWindow(r: bv32, data: seq<byte>, j: nat)
    requires j + 32 <= 8 * |data|
    ensures FeedRange(r, data, j, j + 32) == StepBits(Xor(r, WordAt(data, j)), 32)
  {
    hide FeedRange, FeedByte, Gather, StepBits, Xor, Word;
    var r1 := FeedRange(r, data, j, j + 8);
    var r2 := FeedRange(r, data, j, j + 16);
    var r3 := FeedRange(r, data, j, j + 24);
    FeedRangeSplit(r, data, j, j + 8, j + 16);
    FeedRangeSplit(r, data, j, j + 16, j + 24);
    FeedRangeSplit(r, data, j, j + 24, j + 32);
    FeedRangeByte(r, data, j);
    FeedRangeByte(r1, data, j + 8);
    FeedRangeByte(r2, data, j + 16);
    FeedRangeByte(r3, data, j + 24);
    FeedWord(r, Gather(data, j), Gather(data, j + 8), Gather(data, j + 16), Gather(data, j + 24));
  }

  lemma {:induction false} XorCancel(r: bv32, a: bv32, b: bv32)
    requires Xor(r, a) == Xor(r, b)
    ensures a == b
  {
  }

  /** Two windows that take the register to the same value hold the same bits. */
  lemma {:induction false} WindowInjective(r: bv32, p: seq<byte>, q: seq<byte>, j: nat)
    requires |p| == |q| && j + 32 <= 8 * |p|
    requires FeedRange(r, p, j, j + 32) == FeedRange(r, q, j, j + 32)
    ensures SameBits(p, q, j, j + 32)
  {
    hide FeedRange, Gather, StepBits, Xor, Word, Bit, BitAt;
    FeedWindow(r, p, j);
    FeedWindow(r, q, j);
    StepBitsInjective(Xor(r, WordAt(p, j)), Xor(r, WordAt(q, j)), 32);
    XorCancel(r, WordAt(p, j), WordAt(q, j));
    WordInjective(Gather(p, j), Gather(p, j + 8), Gather(p, j + 16), Gather(p, j + 24),
                  Gather(q, j), Gather(q, j + 8), Gather(q, j + 16), Gather(q, j + 24));
    forall k | j <= k < j + 32 ensures BitAt(p, k) == BitAt(q, k) {
      var base := j + (k - j) / 8 * 8;
      GatherBits(p, base, k - base);
      GatherBits(q, base, k - base);
    }
  }

  // ---- the record check ----

  /** Little-endian bytes of a word, as put32 writes them. */
  function WordBytesOf(w: bv32): (b: seq<byte>)
    ensures |b| == 4
  {
    [(w & 0xFF) as byte, ((w >> 8) & 0xFF) as byte, ((w >> 16) & 0xFF) as byte, ((w >> 24) & 0xFF) as byte]
  }

  lemma {:induction false} WordOfBytes(w: bv32)
    ensures Word(WordBytesOf(w)[0], WordBytesOf(w)[1], WordBytesOf(w)[2], WordBytesOf(w)[3]) == w
  {
  }

  /** The check a reader of `body + crc` makes. */
  predicate CrcMatches(body: seq<byte>, crc: seq<byte>)
    requires |crc| == 4
  {
    Word(crc[0], crc[1], crc[2], crc[3]) == Crc(body)
  }

  lemma {:induction false} FeedFour(r: bv32, b: seq<byte>)
    requires |b| == 4
    ensures Feed(r, b) == FeedByte(FeedByte(FeedByte(FeedByte(r, b[0]), b[1]), b[2]), b[3])
  {
    hide FeedByte;
    assert b[1..][1..] == b[2..] && b[2..][1..] == b[3..] && b[3..][1..] == [];
    assert Feed(r, b) == Feed(FeedByte(r, b[0]), b[1..]);
    var r1 := FeedByte(r, b[0]);
    assert Feed(r1, b[1..]) == Feed(FeedByte(r1, b[1]), b[2..]);
    var r2 := FeedByte(r1, b[1]);
    assert Feed(r2, b[2..]) == Feed(FeedByte(r2, b[2]), b[3..]);
    var r3 := FeedByte(r2, b[2]);
    assert Feed(r3, b[3..]) == Feed(FeedByte(r3, b[3]), []);
  }

  /** Where an intact record always leaves the register. */
  function Residue(): bv32 {
    StepBits(0xFFFF_FFFF, 32)
  }

  /** The register an intact record leaves, as a number. */
  lemma {:induction false} ResidueIs()
    ensures Residue() == 0xDEBB_20E3
  {
    StepBitsAdd(0xFFFF_FFFF, 16, 16);
    StepBitsAdd(0xFFFF_FFFF, 8, 8);
    StepBitsAdd(0xBE26_ED00, 8, 8);
    EightSteps();
    hide StepBits;
  }

  lemma {:induction false} EightSteps()
    ensures StepBits(0xFFFF_FFFF, 8) == 0x2DFD_1072 && StepBits(0x2DFD_1072, 8) == 0xBE26_ED00
    ensures StepBits(0xBE26_ED00, 8) == 0x00BE_26ED && StepBits(0x00BE_26ED, 8) == 0xDEBB_20E3
  {
  }

  lemma {:induction false} XorNot(r: bv32)
    ensures Xor(r, Not(r)) == 0xFFFF_FFFF
  {
  }

  /** The residue lemma: a body followed by four bytes passes the check exactly
      when the register ends on the standard's residue. */
  lemma {:induction false} MatchesIffResidue(body: seq<byte>, crc: seq<byte>)
    requires |crc| == 4
    ensures CrcMatches(body, crc) <==> Feed(INITIAL, body + crc) == 0xDEBB_20E3
  {
    hide FeedByte, StepBits, Xor, Word, Not;
    ResidueIs();
    var r := Feed(INITIAL, body);
    var w := Word(crc[0], crc[1], crc[2], crc[3]);
    FeedConcat(INITIAL, body, crc);
    FeedFour(r, crc);
    FeedWord(r, crc[0], crc[1], crc[2], crc[3]);
    XorNot(r);
    if Feed(INITIAL, body + crc) == Residue() {
      StepBitsInjective(Xor(r, w), 0xFFFF_FFFF, 32);
      XorCancel(r, w, Not(r));
    }
  }

  /** A burst: every changed bit of the stream lies in one window of 32. */
  ghost predicate ConfinedTo(p: seq<byte>, q: seq<byte>, j: nat)
    requires |p| == |q| && j + 32 <= 8 * |p|
  {
    SameBits(p, q, 0, j) && SameBits(p, q, j + 32, 8 * |p|)
  }

  lemma {:induction false} SameBitsSameBytes(p: seq<byte>, q: seq<byte>)
    requires |p| == |q| && SameBits(p, q, 0, 8 * |p|)
    ensures p == q
  {
    hide Bit, Pack;
    forall k | 0 <= k < |p| ensures p[k] == q[k] {
      GatherAligned(p, k);
      GatherAligned(q, k);
      assert forall i: nat {:trigger BitAt(p, 8 * k + i)} :: i < 8 ==> BitAt(p, 8 * k + i) == BitAt(q, 8 * k + i);
      hide BitAt;
    }
  }

  /** Two streams that differ only inside one window end on different registers. */
  lemma {:induction false} BurstMovesRegister(r: bv32, p: seq<byte>, q: seq<byte>, j: nat)
    requires |p| == |q| && j + 32 <= 8 * |p| && ConfinedTo(p, q, j) && p != q
    ensures FeedRange(r, p, 0, 8 * |p|) != FeedRange(r, q, 0, 8 * |p|)
  {
    hide FeedRange, BitAt;
    var n := 8 * |p|;
    FeedRangeSplit(r, p, 0, j, n);
    FeedRangeSplit(r, q, 0, j, n);
    FeedRangeSame(r, p, q, 0, j);
    var s := FeedRange(r, p, 0, j);
    FeedRangeSplit(s, p, j, j + 32, n);
    FeedRangeSplit(s, q, j, j + 32, n);
    var a, b := FeedRange(s, p, j, j + 32), FeedRange(s, q, j, j + 32);
    FeedRangeSame(b, p, q, j + 32, n);
    if FeedRange(r, p, 0, n) == FeedRange(r, q, 0, n) {
      FeedRangeInjective(a, b, p, j + 32, n);
      WindowInjective(s, p, q, j);
      SameBitsSameBytes(p, q);
    }
  }

  /** Error detection. Take any body followed by its CRC and change it, body or
      CRC or both, only inside some 32 consecutive bits: the check fails. */
  lemma {:induction false} BurstIsDetected(body: seq<byte>, crc: seq<byte>, body': seq<byte>, crc': seq<byte>, j: nat)
    requires |crc| == |crc'| == 4 && |body| == |body'| && CrcMatches(body, crc)
    requires j + 32 <= 8 * (|body| + 4) && ConfinedTo(body + crc, body' + crc', j)
    requires body + crc != body' + crc'
    ensures !CrcMatches(body', crc')
  {
    hide ConfinedTo, FeedRange, Feed, CrcMatches;
    MatchesIffResidue(body, crc);
    MatchesIffResidue(body', crc');
    BurstMovesRegister(INITIAL, body + crc, body' + crc', j);
    FeedIsRange(INITIAL, body + crc, 0);
    FeedIsRange(INITIAL, body' + crc', 0);
    assert (body + crc)[0..] == body + crc && (body' + crc')[0..] == body' + crc';
  }

  /** Every record the writer makes passes the check. */
  lemma {:induction false} OwnCrcMatches(body: seq<byte>)
    ensures CrcMatches(body, WordBytesOf(Crc(body)))
  {
    WordOfBytes(Crc(body));
    hide Feed, Word;
  }
}