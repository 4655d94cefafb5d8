/**
  CRC-16/CCITT-FALSE on a machine word: generator x^16 + x^12 + x^5 + 1, initial value 0xFFFF, no
  final xor. The driver's double loop is proved to be the division register of `Division` fed with
  the message, most significant bit first. Bit-vector facts stay in lemmas of their own.
*/
module Crc {
  import opened Words
  import opened Division
  import Checksum

  const INITIAL: bv16 := 0xFFFF

  function BitStep(c: bv16): bv16 {
    if c & 0x8000 != 0 then (c << 1) ^ 0x1021 else c << 1
  }

  function Load(b: byte): bv16 {
    ((b as bv8) as bv16) << 8
  }

  // ---------------------------------------------------------------------------
  // A word read as a division register

  function Mask(i: nat): (m: bv16)
    requires i < 16
    ensures m & (m - 1) == 0
  {
    match i
    case 0 => 0x8000
    case 1 => 0x4000
    case 2 => 0x2000
    case 3 => 0x1000
    case 4 => 0x0800
    case 5 => 0x0400
    case 6 => 0x0200
    case 7 => 0x0100
    case 8 => 0x0080
    case 9 => 0x0040
    case 10 => 0x0020
    case 11 => 0x0010
    case 12 => 0x0008
    case 13 => 0x0004
    case 14 => 0x0002
    case _ => 0x0001
  }

  predicate BitAt(c: bv16, i: nat)
    requires i < 16
  {
    c & Mask(i) != 0
  }

  function Register16(c: bv16): (r: Register)
    ensures forall i :: 0 <= i < 16 ==> r[i] == BitAt(c, i)
  {
    seq(16, i requires 0 <= i < 16 => BitAt(c, i))
  }

  predicate BitAt8(v: bv8, i: nat) {
    match i
    case 0 => v & 0x80 != 0
    case 1 => v & 0x40 != 0
    case 2 => v & 0x20 != 0
    case 3 => v & 0x10 != 0
    case 4 => v & 0x08 != 0
    case 5 => v & 0x04 != 0
    case 6 => v & 0x02 != 0
    case 7 => v & 0x01 != 0
    case _ => false
  }

  function Bits8(v: bv8): (s: bits)
    ensures |s| == 8 && forall i :: 0 <= i < 8 ==> s[i] == BitAt8(v, i)
  {
    seq(8, i requires 0 <= i < 8 => BitAt8(v, i))
  }

  lemma XorAt(c: bv16, d: bv16, mask: bv16)
    requires mask & (mask - 1) == 0
    ensures ((c ^ d) & mask != 0) == ((c & mask != 0) != (d & mask != 0))
  {
  }

  lemma LeftAt(c: bv16, i: nat)
    requires i < 16
    ensures BitAt(c << 1, i) == (i < 15 && BitAt(c, i + 1))
  {
  }

  lemma LoadAt(v: bv8, i: nat)
    requires i < 16
    ensures BitAt((v as bv16) << 8, i) == BitAt8(v, i)
  {
  }

  lemma UpperAt(c: bv16, i: nat)
    requires i < 8
    ensures BitAt(c, i) == BitAt8((c >> 8) as bv8, i)
  {
  }

  lemma LowerAt(c: bv16, i: nat)
    requires i < 8
    ensures BitAt(c, i + 8) == BitAt8((c & 0xFF) as bv8, i)
  {
  }

  lemma RegisterOfLeft(c: bv16)
    ensures Register16(c << 1) == Register16(c)[1..] + [false]
  {
    var r, s := Register16(c), Register16(c << 1);
    forall i | 0 <= i < 16 ensures s[i] == (r[1..] + [false])[i] {
      LeftAt(c, i);
    }
  }

  lemma BitAtXor(c: bv16, d: bv16, i: nat)
    requires i < 16
    ensures BitAt(c ^ d, i) == (BitAt(c, i) != BitAt(d, i))
  {
    XorAt(c, d, Mask(i));
  }

  lemma RegisterOfSum(c: bv16, d: bv16, sum: bv16)
    requires forall i :: 0 <= i < 16 ==> BitAt(sum, i) == (BitAt(c, i) != BitAt(d, i))
    ensures Register16(sum) == Xor(Register16(c), Register16(d))
  {
  }

  lemma RegisterOfXor(c: bv16, d: bv16)
    ensures Register16(c ^ d) == Xor(Register16(c), Register16(d))
  {
    var sum := c ^ d;
    forall i | 0 <= i < 16 ensures BitAt(sum, i) == (BitAt(c, i) != BitAt(d, i)) {
      BitAtXor(c, d, i);
    }
    RegisterOfSum(c, d, sum);
  }

  lemma RegisterOfGenerator()
    ensures Register16(0x1021) == Generator()
  {
  }

  lemma BitStepIsShift(c: bv16)
    ensures Register16(BitStep(c)) == Shift(Register16(c))
  {
    RegisterOfLeft(c);
    RegisterOfXor(c << 1, 0x1021);
    RegisterOfGenerator();
  }

  lemma RegisterOfInitial()
    ensures Register16(INITIAL) == Checksum.Start()
  {
  }

  lemma ByteRoundTrip(b: byte)
    ensures (b as bv8) as int == b
  {
    if b < 0x20 {
    } else if b < 0x40 {
    } else if b < 0x60 {
    } else if b < 0x80 {
    } else if b < 0xA0 {
    } else if b < 0xC0 {
    } else if b < 0xE0 {
    }
  }

  lemma {:induction false} TwoDigits(s: bits)
    requires |s| >= 2
    ensures Checksum.Value(s) ==
      4 * Checksum.Value(s[..|s| - 2]) + 2 * Checksum.One(s[|s| - 2]) + Checksum.One(s[|s| - 1])
  {
    assert s[..|s| - 1][..|s| - 2] == s[..|s| - 2];
  }

  lemma EightDigits(s: bits)
    requires |s| == 8
    ensures Checksum.Value(s) == Weight(s)
  {
    hide Checksum.Value, Checksum.One;
    var s6, s4, s2 := s[..6], s[..4], s[..2];
    assert s6[..4] == s4 && s4[..2] == s2 && s2[..0] == [];
    TwoDigits(s);
    TwoDigits(s6);
    TwoDigits(s4);
    TwoDigits(s2);
    Checksum.ValueBelow([]);
  }

  function Weight(s: bits): nat
    requires |s| == 8
  {
    128 * Checksum.One(s[0]) + 64 * Checksum.One(s[1]) + 32 * Checksum.One(s[2]) + 16 * Checksum.One(s[3])
    + 8 * Checksum.One(s[4]) + 4 * Checksum.One(s[5]) + 2 * Checksum.One(s[6]) + Checksum.One(s[7])
  }

  lemma WeightOfByte(v: bv8)
    ensures v as int == Weight(Bits8(v))
  {
  }

  lemma IntOfByte(v: bv8)
    ensures v as int == Checksum.Value(Bits8(v))
  {
    WeightOfByte(v);
    EightDigits(Bits8(v));
  }

  lemma Bits8OfByte(b: byte)
    ensures Bits8(b as bv8) == Checksum.BitsOf(b)
  {
    hide Bits8;
    ByteRoundTrip(b);
    IntOfByte(b as bv8);
    Checksum.DigitsOfValue(Bits8(b as bv8));
  }

  lemma RegisterOfLoad(b: byte)
    ensures Register16(Load(b)) == Pad(Checksum.BitsOf(b))
  {
    hide Checksum.BitsOf;
    Bits8OfByte(b);
    var r, s := Register16(Load(b)), Pad(Bits8(b as bv8));
    forall i | 0 <= i < 16 ensures r[i] == s[i] {
      LoadAt(b as bv8, i);
    }
  }

  lemma WordValue(c: bv16)
    ensures c as int == ((c >> 8) as bv8) as int * 0x100 + ((c & 0xFF) as bv8) as int
  {
  }

  lemma RegisterHalves(c: bv16, upper: bv8, lower: bv8)
    requires upper == (c >> 8) as bv8 && lower == (c & 0xFF) as bv8
    ensures Register16(c)[..8] == Bits8(upper) && Register16(c)[8..] == Bits8(lower)
  {
    var r, s := Register16(c), Bits8(upper) + Bits8(lower);
    forall i | 0 <= i < 8 ensures r[i] == s[i] {
      UpperAt(c, i);
    }
    forall i | 8 <= i < 16 ensures r[i] == s[i] {
      LowerAt(c, i - 8);
    }
  }

  /** The word's value is the number its register spells. */
  lemma ValueIsNumber(c: bv16)
    ensures c as int == Checksum.Number(Register16(c))
  {
    hide Checksum.Value, Bits8, Register16;
    var upper, lower := (c >> 8) as bv8, (c & 0xFF) as bv8;
    WordValue(c);
    IntOfByte(upper);
    IntOfByte(lower);
    RegisterHalves(c, upper, lower);
    Checksum.ValueAppend(Bits8(upper), Bits8(lower));
    Checksum.Powers();
    assert Register16(c) == Bits8(upper) + Bits8(lower);
  }

  // ---------------------------------------------------------------------------
  // The loops

  lemma {:induction false} ShiftsSnoc(r: Register, n: nat)
    ensures Shifts(r, n + 1) == Shift(Shifts(r, n))
    decreases n
  {
    if n > 0 {
      ShiftsSnoc(Shift(r), n - 1);
    }
  }

  /** The body of the outer loop, protocol.hpp:71-76: eight bits of the message enter the register. */
  method FeedByte(c: bv16, b: byte) returns (crc: bv16)
    ensures Register16(crc) == Feed(Register16(c), Checksum.BitsOf(b))
  {
    hide BitStep, Load, Shift, Register16, Checksum.BitsOf;
    crc := c ^ Load(b);
    ghost var loaded := Register16(crc);
    for bit := 0 to 8
      invariant Register16(crc) == Shifts(loaded, bit)
    {
      BitStepIsShift(crc);
      ShiftsSnoc(loaded, bit);
      crc := BitStep(crc);
    }
    RegisterOfXor(c, Load(b));
    RegisterOfLoad(b);
    FeedIsAddAndShift(Register16(c), Checksum.BitsOf(b));
  }

  /** crc16_ccitt_false, protocol.hpp:65-79: the remainder of the covered bytes. */
  method Crc16(data: bytes, offset: nat, len: nat) returns (crc: u16)
    requires offset + len <= |data|
    ensures crc == Checksum.Of(data[offset..offset + len])
  {
    hide Register16, Checksum.Number, Checksum.BitsOf;
    var word := INITIAL;
    RegisterOfInitial();
    for i := offset to offset + len
      invariant Register16(word) == Checksum.Remainder(data[offset..i])
    {
      var next := FeedByte(word, data[i]);
      assert data[offset..i + 1][..i - offset] == data[offset..i];
      FeedAppend(Checksum.Start(), Checksum.Bits(data[offset..i]), Checksum.BitsOf(data[i]));
      word := next;
    }
    ValueIsNumber(word);
    crc := word as int;
  }
}
