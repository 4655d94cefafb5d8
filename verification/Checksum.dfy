/**
  The frame check sequence of CRC-16/CCITT-FALSE, as polynomial division: the message is fed to
  the register of `Division`, which starts at all ones, and the remainder is read off as a number.
*/
module Checksum {
  import opened Words
  import opened Division

  function Start(): (r: Register)
    ensures forall i :: 0 <= i < 16 ==> r[i]
  {
    seq(16, _ => true)
  }

  function Digits(v: nat, n: nat): (s: bits)
    ensures |s| == n
  {
    if n == 0 then [] else Digits(v / 2, n - 1) + [v % 2 == 1]
  }

  function One(bit: bool): nat {
    if bit then 1 else 0
  }

  /** The number a bit string spells, most significant bit first. */
  function Value(s: bits): nat {
    if s == [] then 0 else 2 * Value(s[..|s| - 1]) + One(s[|s| - 1])
  }

  function BitsOf(b: byte): (s: bits)
    ensures |s| == 8
  {
    Digits(b, 8)
  }

  /** The bits of a message in the order they are sent, most significant bit of each byte first. */
  function Bits(data: bytes): (s: bits)
    ensures |s| == 8 * |data|
  {
    if data == [] then [] else Bits(data[..|data| - 1]) + BitsOf(data[|data| - 1])
  }

  function Number(r: Register): u16 {
    ValueBound(r);
    Value(r)
  }

  function Remainder(data: bytes): Register {
    Feed(Start(), Bits(data))
  }

  function Of(data: bytes): u16 {
    Number(Remainder(data))
  }

  // ---------------------------------------------------------------------------
  // Numbers and their bits

  function Power(n: nat): nat {
    if n == 0 then 1 else 2 * Power(n - 1)
  }

  lemma Powers()
    ensures Power(8) == 0x100 && Power(16) == 0x1_0000
  {
    assert Power(8) == 0x100;
  }

  lemma {:induction false} ValueBelow(s: bits)
    ensures Value(s) < Power(|s|)
  {
    if s != [] {
      ValueBelow(s[..|s| - 1]);
    }
  }

  lemma ValueBound(r: Register)
    ensures Value(r) < 0x1_0000
  {
    ValueBelow(r);
    Powers();
  }

  lemma {:induction false} ValueOfDigits(v: nat, n: nat)
    requires v < Power(n)
    ensures Value(Digits(v, n)) == v
  {
    if n > 0 {
      ValueOfDigits(v / 2, n - 1);
      assert Digits(v, n)[..n - 1] == Digits(v / 2, n - 1);
    }
  }

  lemma {:induction false} DigitsOfValue(s: bits)
    ensures Digits(Value(s), |s|) == s
  {
    if s != [] {
      DigitsOfValue(s[..|s| - 1]);
      assert Value(s) / 2 == Value(s[..|s| - 1]);
    }
  }

  lemma {:induction false} ValueAppend(x: bits, y: bits)
    ensures Value(x + y) == Value(x) * Power(|y|) + Value(y)
  {
    hide One;
    if y == [] {
      assert x + y == x;
    } else {
      var z := y[..|y| - 1];
      assert (x + y)[..|x + y| - 1] == x + z;
      ValueAppend(x, z);
      assert Value(x) * Power(|y|) == 2 * (Value(x) * Power(|z|));
    }
  }

  lemma ValueOfByte(b: byte)
    ensures Value(BitsOf(b)) == b
  {
    Powers();
    ValueOfDigits(b, 8);
  }

  lemma SameHalves(p: bits, q: bits, r: bits, s: bits)
    requires p + q == r + s && |p| == |r|
    ensures p == r && q == s
  {
    assert p == (p + q)[..|p|] && r == (r + s)[..|p|];
    assert q == (p + q)[|p|..] && s == (r + s)[|p|..];
  }

  lemma {:induction false} BitsDetermine(x: bytes, y: bytes)
    requires Bits(x) == Bits(y)
    ensures x == y
  {
    hide BitsOf;
    if x != [] {
      var n := |x| - 1;
      SameHalves(Bits(x[..n]), BitsOf(x[n]), Bits(y[..n]), BitsOf(y[n]));
      BitsDetermine(x[..n], y[..n]);
      ValueOfByte(x[n]);
      ValueOfByte(y[n]);
    }
  }

  lemma {:induction false} BitsAppend(x: bytes, y: bytes)
    ensures Bits(x + y) == Bits(x) + Bits(y)
  {
    hide BitsOf;
    if y == [] {
      assert x + y == x;
    } else {
      assert (x + y)[..|x + y| - 1] == x + y[..|y| - 1];
      BitsAppend(x, y[..|y| - 1]);
    }
  }

  /** The two bytes of a number are the bits of its register. */
  lemma BitsOfNumber(r: Register, hi: byte, lo: byte)
    ensures Number(r) == Join(hi, lo) <==> r == BitsOf(hi) + BitsOf(lo)
  {
    hide BitsOf;
    var w := BitsOf(hi) + BitsOf(lo);
    ValueAppend(BitsOf(hi), BitsOf(lo));
    ValueOfByte(hi);
    ValueOfByte(lo);
    Powers();
    assert Value(w) == Join(hi, lo);
    DigitsOfValue(r);
    DigitsOfValue(w);
  }

  lemma {:induction false} DigitsOfZero(n: nat)
    ensures Digits(0, n) == Zeros(n)
  {
    if n > 0 {
      DigitsOfZero(n - 1);
    }
  }

  lemma ZeroNumber(r: Register)
    ensures Number(r) == 0 <==> r == ZERO
  {
    BitsOfNumber(r, 0, 0);
    DigitsOfZero(8);
    assert BitsOf(0) + BitsOf(0) == ZERO;
  }

  // ---------------------------------------------------------------------------
  // Messages that carry their own checksum

  /** Two more bytes bring the checksum to zero exactly when they are the checksum, high byte first. */
  lemma OfItsOwn(data: bytes, hi: byte, lo: byte)
    ensures Of(data + [hi, lo]) == 0 <==> Of(data) == Join(hi, lo)
  {
    hide BitsOf, Number;
    var w := BitsOf(hi) + BitsOf(lo);
    BitsAppend(data, [hi, lo]);
    BitsAppend([hi], [lo]);
    assert [hi] + [lo] == [hi, lo];
    assert Bits([hi]) == Bits([]) + BitsOf(hi) && Bits([lo]) == Bits([]) + BitsOf(lo);
    assert Bits([hi, lo]) == w;
    FeedAppend(Start(), Bits(data), w);
    ZeroAfter(Remainder(data), w);
    assert Pad(w) == w;
    BitsOfNumber(Remainder(data), hi, lo);
    ZeroNumber(Remainder(data + [hi, lo]));
  }

  /** Two messages that both check differ in a way the register, started at zero, cannot see. */
  lemma DifferenceUnseen(x: bytes, y: bytes)
    requires |x| == |y| && Of(x) == 0 && Of(y) == 0
    ensures Feed(ZERO, Xor(Bits(x), Bits(y))) == ZERO
  {
    hide Number;
    ZeroNumber(Remainder(x));
    ZeroNumber(Remainder(y));
    FeedLinear(Start(), Start(), Bits(x), Bits(y));
    assert Xor(Start(), Start()) == ZERO && Xor(ZERO, ZERO) == ZERO;
  }

  /** Every error confined to sixteen adjacent bits, at any bit offset, is seen. */
  lemma BurstIsDetected(x: bytes, y: bytes)
    requires |x| == |y| && Of(x) == 0 && IsBurst(Xor(Bits(x), Bits(y)))
    ensures Of(y) != 0
  {
    hide Number;
    BurstShows(Xor(Bits(x), Bits(y)));
    if Of(y) == 0 {
      DifferenceUnseen(x, y);
    }
  }

  /** Every error that flips an odd number of bits is seen. */
  lemma OddIsDetected(x: bytes, y: bytes)
    requires |x| == |y| && Of(x) == 0 && Ones(Xor(Bits(x), Bits(y))) % 2 == 1
    ensures Of(y) != 0
  {
    hide Number;
    OddShows(Xor(Bits(x), Bits(y)));
    if Of(y) == 0 {
      DifferenceUnseen(x, y);
    }
  }

  /**
    The checksum is what its standard defines: with the first sixteen bits of the message
    complemented, m x^16 = q G + r, and the checksum's two bytes spell r.
  */
  lemma IsTheRemainder(data: bytes) returns (q: bits)
    requires |data| >= 2
    ensures
      var m := Xor(Bits(data), Start() + Zeros(|Bits(data)| - 16));
      && |q| == |m|
      && m + Zeros(16) == Xor(Times(q), Zeros(|m|) + (BitsOf(High(Of(data))) + BitsOf(Low(Of(data)))))
  {
    hide BitsOf, Number, Feed, Times, Bits;
    var m := Xor(Bits(data), Start() + Zeros(|Bits(data)| - 16));
    StartIsAdded(Start(), Bits(data));
    q := IsRemainder(m);
    BitsOfNumber(Remainder(data), High(Of(data)), Low(Of(data)));
    JoinOfHalves(Of(data));
  }
}
