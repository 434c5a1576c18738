/** The checksum by its definition: section 3.2.9 of IEEE 802.3 as long division
    of bit sequences over GF(2), and the register of Crc32 computing it. */
module CrcDivision {
  import opened Config
  import opened Crc32

  /** The exponents of the generator polynomial. */
  const EXPONENTS: set<nat> := {32, 26, 23, 22, 16, 12, 11, 10, 8, 7, 5, 4, 2, 1, 0}

  /** Its coefficients, highest power first. */
  function Generator(): (g: seq<bool>)
    ensures |g| == 33
  {
    seq(33, j requires 0 <= j < 33 => 32 - j in EXPONENTS)
  }

  /** Subtract the generator from the leading coefficients. */
  function Subtract(s: seq<bool>): (d: seq<bool>)
    requires |s| > 32
    ensures |d| == |s|
  {
    seq(|s|, i requires 0 <= i < |s| => s[i] != (i <= 32 && Generator()[i]))
  }

  /** Long division by the generator: what is left below the power 32. */
  function Remainder(s: seq<bool>): (r: seq<bool>)
    ensures |r| == if |s| <= 32 then |s| else 32
    decreases |s|
  {
    if |s| <= 32 then s else Remainder((if s[0] then Subtract(s) else s)[1..])
  }

  /** The bits of a block in the order of the wire, low bit of each byte first. */
  function Bits(data: seq<byte>): (s: seq<bool>)
    ensures |s| == 8 * |data|
  {
    seq(8 * |data|, j requires 0 <= j < 8 * |data| => BitAt(data, j))
  }

  /** The block times x^32, its first 32 coefficients complemented. */
  function Dividend(data: seq<byte>): (s: seq<bool>)
    ensures |s| == 8 * |data| + 32
  {
    seq(8 * |data| + 32, i requires 0 <= i < 8 * |data| + 32 => (i < 32) != (i < 8 * |data| && BitAt(data, i)))
  }

  /** The frame check sequence of a block, highest power first. */
  function CheckSequence(data: seq<byte>): (c: seq<bool>)
    ensures |c| == 32
  {
    var r := Remainder(Dividend(data));
    seq(32, i requires 0 <= i < 32 => !r[i])
  }

  // ---- the register as coefficients: its low bit is the highest power ----

  function Mask(i: nat): bv32
    requires i < 32
  {
    if i == 0 then 0x1 else if i == 1 then 0x2 else if i == 2 then 0x4 else if i == 3 then 0x8
    else if i == 4 then 0x10 else if i == 5 then 0x20 else if i == 6 then 0x40 else if i == 7 then 0x80
    else if i == 8 then 0x100 else if i == 9 then 0x200 else if i == 10 then 0x400 else if i == 11 then 0x800
    else if i == 12 then 0x1000 else if i == 13 then 0x2000 else if i == 14 then 0x4000
    else if i == 15 then 0x8000 else if i == 16 then 0x10000 else if i == 17 then 0x20000
    else if i == 18 then 0x40000 else if i == 19 then 0x80000 else if i == 20 then 0x100000
    else if i == 21 then 0x200000 else if i == 22 then 0x400000 else if i == 23 then 0x800000
    else if i == 24 then 0x1000000 else if i == 25 then 0x2000000 else if i == 26 then 0x4000000
    else if i == 27 then 0x8000000 else if i == 28 then 0x10000000 else if i == 29 then 0x20000000
    else if i == 30 then 0x40000000 else 0x8000_0000
  }

  predicate Has(r: bv32, m: bv32) {
    r & m != 0
  }

  predicate RegBit(r: bv32, i: nat)
    requires i < 32
  {
    Has(r, Mask(i))
  }

  /** The bits of a word, low bit first. */
  function WordBits(r: bv32): (s: seq<bool>)
    ensures |s| == 32
  {
    seq(32, i requires 0 <= i < 32 => RegBit(r, i))
  }

  /** Masks are single bits, each twice the one before. */
  lemma {:induction false} MaskSingle(i: nat)
    requires i < 32
    ensures Single(Mask(i))
  {
  }

  lemma {:induction false} MaskNext(i: nat)
    requires i < 32
    ensures i < 31 ==> Top(Mask(i)) == 0 && Mask(i + 1) == Mask(i) << 1
    ensures i == 31 ==> Mask(i) == 0x8000_0000
  {
    if i < 31 {
      if i < 8 { MaskFirst(i); } else if i < 16 { MaskSecond(i); } else if i < 24 { MaskThird(i); } else { MaskFourth(i); }
      hide Mask, Top;
    }
  }

  lemma {:induction false} MaskFirst(i: nat)
    requires 0 <= i < 8
    ensures Top(Mask(i)) == 0 && Mask(i + 1) == Mask(i) << 1
  {
  }

  lemma {:induction false} MaskSecond(i: nat)
    requires 8 <= i < 16
    ensures Top(Mask(i)) == 0 && Mask(i + 1) == Mask(i) << 1
  {
  }

  lemma {:induction false} MaskThird(i: nat)
    requires 16 <= i < 24
    ensures Top(Mask(i)) == 0 && Mask(i + 1) == Mask(i) << 1
  {
  }

  lemma {:induction false} MaskFourth(i: nat)
    requires 24 <= i < 31
    ensures Top(Mask(i)) == 0 && Mask(i + 1) == Mask(i) << 1
  {
  }

  predicate Single(m: bv32) {
    m != 0 && m & (m - 1) == 0
  }

  function Top(m: bv32): bv32 {
    m & 0x8000_0000
  }

  lemma {:induction false} HalfHas(r: bv32, m: bv32)
    requires Top(m) == 0
    ensures Has(Half(r), m) <==> Has(r, m << 1)
  {
  }

  lemma {:induction false} XorHas(a: bv32, b: bv32, m: bv32)
    requires Single(m)
    ensures Has(a ^ b, m) <==> Has(a, m) != Has(b, m)
  {
    AllOrNothing(a, m);
    AllOrNothing(b, m);
    AndXor(a, b, m);
  }

  lemma {:induction false} AllOrNothing(a: bv32, m: bv32)
    requires Single(m)
    ensures a & m == 0 || a & m == m
  {
  }

  lemma {:induction false} AndXor(a: bv32, b: bv32, m: bv32)
    ensures (a ^ b) & m == (a & m) ^ (b & m)
  {
  }

  lemma {:induction false} HalfBit(r: bv32, i: nat)
    requires i < 32
    ensures RegBit(Half(r), i) <==> i < 31 && RegBit(r, i + 1)
  {
    MaskNext(i);
    if i < 31 { HalfHas(r, Mask(i)); } else { assert !Has(Half(r), 0x8000_0000); }
    hide Mask, Has, Half;
  }

  lemma {:induction false} XorBit(a: bv32, b: bv32, i: nat)
    requires i < 32
    ensures RegBit(a ^ b, i) <==> RegBit(a, i) != RegBit(b, i)
  {
    MaskSingle(i);
    XorHas(a, b, Mask(i));
    hide Mask, Has;
  }

  lemma {:induction false} NotBit(r: bv32, i: nat)
    requires i < 32
    ensures RegBit(Not(r), i) <==> !RegBit(r, i)
  {
    assert Not(r) == r ^ INITIAL;
    XorBit(r, INITIAL, i);
    InitialBit(i);
    hide RegBit, Not;
  }

  lemma {:induction false} InitialBit(i: nat)
    requires i < 32
    ensures RegBit(INITIAL, i)
  {
  }

  /** The constant of the register is the generator below x^32, reversed. */
  lemma {:induction false} PolyBit(i: nat)
    requires i < 32
    ensures RegBit(POLY, i) <==> 31 - i in EXPONENTS
  {
  }

  /** One input bit: the low bit and the input decide whether the constant is
      added. */
  lemma {:induction false} FeedBitAs(r: bv32, b: bool)
    ensures FeedBit(r, b) == if RegBit(r, 0) != b then Half(r) ^ POLY else Half(r)
  {
  }

  lemma {:induction false} FedBit(r: bv32, b: bool, i: nat)
    requires i < 32
    ensures RegBit(FeedBit(r, b), i) <==>
              (i < 31 && RegBit(r, i + 1)) != (RegBit(r, 0) != b && 31 - i in EXPONENTS)
  {
    FeedBitAs(r, b);
    HalfBit(r, i);
    XorBit(Half(r), POLY, i);
    PolyBit(i);
    hide RegBit, FeedBit, Half, EXPONENTS;
  }

  // ---- the register divides ----

  /** What is left to divide when the register is r and the input from bit k on
      is still to come. */
  function Left(r: bv32, data: seq<byte>, k: nat): (s: seq<bool>)
    requires k <= 8 * |data|
    ensures |s| == 8 * |data| - k + 32
  {
    seq(8 * |data| - k + 32, i requires 0 <= i < 8 * |data| - k + 32 =>
      (i < 32 && RegBit(r, i)) != (k + i < 8 * |data| && BitAt(data, k + i)))
  }

  lemma {:induction false} DivideOne(r: bv32, data: seq<byte>, k: nat)
    requires k < 8 * |data|
    ensures var s := Left(r, data, k);
            (if s[0] then Subtract(s) else s)[1..] == Left(FeedBit(r, BitAt(data, k)), data, k + 1)
  {
    hide RegBit, FeedBit, BitAt, EXPONENTS;
    var s := Left(r, data, k);
    var d := (if s[0] then Subtract(s) else s)[1..];
    var t := Left(FeedBit(r, BitAt(data, k)), data, k + 1);
    assert s[0] == (RegBit(r, 0) != BitAt(data, k));
    forall i | 0 <= i < |t| ensures d[i] == t[i] {
      DividedAt(r, data, k, i);
    }
  }

  lemma {:induction false} DividedAt(r: bv32, data: seq<byte>, k: nat, i: nat)
    requires k < 8 * |data| && i < 8 * |data| - (k + 1) + 32
    ensures var s := Left(r, data, k);
            (if s[0] then Subtract(s) else s)[i + 1] == Left(FeedBit(r, BitAt(data, k)), data, k + 1)[i]
  {
    hide RegBit, FeedBit, BitAt, EXPONENTS;
    var s := Left(r, data, k);
    assert s[0] == (RegBit(r, 0) != BitAt(data, k));
    assert s[i + 1] == ((i + 1 < 32 && RegBit(r, i + 1)) != (k + (i + 1) < 8 * |data| && BitAt(data, k + (i + 1))));
    assert k + (i + 1) == k + 1 + i;
    if i < 32 {
      FedBit(r, BitAt(data, k), i);
      assert Generator()[i + 1] == (31 - i in EXPONENTS);
    }
  }

  lemma {:induction false} RegisterDivides(r: bv32, data: seq<byte>, k: nat)
    requires k <= 8 * |data|
    ensures Remainder(Left(r, data, k)) == WordBits(FeedRange(r, data, k, 8 * |data|))
    decreases 8 * |data| - k
  {
    hide RegBit, FeedBit, BitAt, Left, Subtract;
    if k == 8 * |data| {
      NothingToCome(r, data);
    } else {
      DivideOne(r, data, k);
      RegisterDivides(FeedBit(r, BitAt(data, k)), data, k + 1);
    }
  }

  lemma {:induction false} NothingToCome(r: bv32, data: seq<byte>)
    ensures Left(r, data, 8 * |data|) == WordBits(r)
  {
    hide RegBit, BitAt;
  }

  /** For every block the checksum is the complemented remainder of the standard's
      division, bit for bit, its low bit being the highest power. */
  lemma {:induction false} CrcIsCheckSequence(data: seq<byte>)
    ensures WordBits(Crc(data)) == CheckSequence(data)
  {
    hide RegBit, Remainder, Feed, FeedRange, Not, BitAt;
    assert Left(INITIAL, data, 0) == Dividend(data) by {
      forall i | 0 <= i < 32 ensures RegBit(INITIAL, i) { InitialBit(i); }
    }
    RegisterDivides(INITIAL, data, 0);
    FeedIsRange(INITIAL, data, 0);
    assert data[0..] == data;
    var r := Feed(INITIAL, data);
    forall i | 0 <= i < 32 ensures RegBit(Not(r), i) == !RegBit(r, i) { NotBit(r, i); }
  }

  /** And no other word has these bits. */
  lemma {:induction false} BitsIdentifyWord(a: bv32, b: bv32)
    requires WordBits(a) == WordBits(b)
    ensures a == b
  {
    hide RegBit;
    forall i | 0 <= i < 32 ensures RegBit(a, i) == RegBit(b, i) {
      assert WordBits(a)[i] == WordBits(b)[i];
    }
    SameBitsSameWord(a, b);
  }

  lemma {:induction false} SameBitsSameWord(a: bv32, b: bv32)
    requires forall i {:trigger RegBit(a, i)} :: 0 <= i < 32 ==> RegBit(a, i) == RegBit(b, i)
    ensures a == b
  {
    hide RegBit;
    var x := a ^ b;
    forall i {:trigger RegBit(x, i)} | 0 <= i < 32 ensures !RegBit(x, i) {
      assert RegBit(a, i) == RegBit(b, i);
      XorBit(a, b, i);
    }
    NoBits(x);
    assert a ^ b == 0 ==> a == b;
  }

  lemma {:induction false} NoBits(x: bv32)
    requires forall i {:trigger RegBit(x, i)} :: 0 <= i < 32 ==> !RegBit(x, i)
    ensures x == 0
  {
    assert !RegBit(x, 0) && !RegBit(x, 1) && !RegBit(x, 2) && !RegBit(x, 3) &&
           !RegBit(x, 4) && !RegBit(x, 5) && !RegBit(x, 6) && !RegBit(x, 7);
    assert !RegBit(x, 8) && !RegBit(x, 9) && !RegBit(x, 10) && !RegBit(x, 11) &&
           !RegBit(x, 12) && !RegBit(x, 13) && !RegBit(x, 14) && !RegBit(x, 15);
    assert !RegBit(x, 16) && !RegBit(x, 17) && !RegBit(x, 18) && !RegBit(x, 19) &&
           !RegBit(x, 20) && !RegBit(x, 21) && !RegBit(x, 22) && !RegBit(x, 23);
    assert !RegBit(x, 24) && !RegBit(x, 25) && !RegBit(x, 26) && !RegBit(x, 27) &&
           !RegBit(x, 28) && !RegBit(x, 29) && !RegBit(x, 30) && !RegBit(x, 31);
    assert x & 0xFF == 0;
    assert x & 0xFF00 == 0;
    assert x & 0xFF_0000 == 0;
    assert x & 0xFF00_0000 == 0;
  }
}
