/**
  Two flipped bits. They cancel in the register only if the generator, shifted by their distance,
  comes round to its own leading term; the walk of the register through that distance is computed
  sixteen shifts at a time, and in a frame's length it does not come round.
*/
module TwoBits {
  import opened Words
  import opened Division
  import opened Crc
  import Checksum
  import P = Protocol

  /** The register with one bit set. */
  function Single(k: nat): (r: Register)
    requires k < 16
    ensures forall i :: 0 <= i < 16 ==> r[i] == (i == k)
  {
    seq(16, i => i == k)
  }

  function FourSteps(c: bv16): bv16 {
    BitStep(BitStep(BitStep(BitStep(c))))
  }

  function SixteenSteps(c: bv16): bv16 {
    FourSteps(FourSteps(FourSteps(FourSteps(c))))
  }

  predicate AtMostOneBit(c: bv16) {
    c & (c - 1) == 0
  }

  /** The register goes from c to d in n times sixteen shifts, and at none of these has a single bit. */
  predicate Leads(c: bv16, n: nat, d: bv16)
    decreases n
  {
    if n == 0 then c == d else !AtMostOneBit(c) && Leads(SixteenSteps(c), n - 1, d)
  }

  lemma {:induction false} LeadsOn(c: bv16, n: nat, d: bv16, m: nat, e: bv16)
    requires Leads(c, n, d) && Leads(d, m, e)
    ensures Leads(c, n + m, e)
    decreases n
  {
    hide SixteenSteps, AtMostOneBit;
    if n > 0 {
      LeadsOn(SixteenSteps(c), n - 1, d, m, e);
    }
  }

  lemma WalkA()
    ensures Leads(0x1021, 8, 0x10E2)
  {
  }

  lemma WalkB()
    ensures Leads(0x10E2, 8, 0x8DDC)
  {
  }

  lemma WalkC()
    ensures Leads(0x8DDC, 8, 0xBD64)
  {
  }

  lemma WalkD()
    ensures Leads(0xBD64, 8, 0x78B3)
  {
  }

  lemma WalkE()
    ensures Leads(0x78B3, 8, 0x9C1A)
  {
  }

  lemma WalkF()
    ensures Leads(0x9C1A, 8, 0x9E3A)
  {
  }

  lemma WalkG()
    ensures Leads(0x9E3A, 8, 0x4347)
  {
  }

  lemma WalkH()
    ensures Leads(0x4347, 8, 0x36FB)
  {
  }

  lemma WalkI()
    ensures Leads(0x36FB, 8, 0xCC40)
  {
  }

  lemma WalkJ()
    ensures Leads(0xCC40, 8, 0x3F07)
  {
  }

  lemma WalkK()
    ensures Leads(0x3F07, 8, 0x6493)
  {
  }

  lemma WalkL()
    ensures Leads(0x6493, 8, 0xB353)
  {
  }

  lemma WalkM()
    ensures Leads(0xB353, 8, 0x0284)
  {
  }

  lemma WalkN()
    ensures Leads(0x0284, 8, 0x8FC9)
  {
  }

  lemma WalkO()
    ensures Leads(0x8FC9, 8, 0x86C9)
  {
  }

  lemma WalkP()
    ensures Leads(0x86C9, 8, 0x3F68)
  {
  }

  /** From the generator, 2048 shifts do not pass a register with a single bit. */
  lemma Walk()
    ensures Leads(0x1021, 128, 0x3F68)
  {
    hide SixteenSteps, AtMostOneBit, Leads;
    WalkA();
    WalkB();
    LeadsOn(0x1021, 8, 0x10E2, 8, 0x8DDC);
    WalkC();
    LeadsOn(0x1021, 16, 0x8DDC, 8, 0xBD64);
    WalkD();
    LeadsOn(0x1021, 24, 0xBD64, 8, 0x78B3);
    WalkE();
    LeadsOn(0x1021, 32, 0x78B3, 8, 0x9C1A);
    WalkF();
    LeadsOn(0x1021, 40, 0x9C1A, 8, 0x9E3A);
    WalkG();
    LeadsOn(0x1021, 48, 0x9E3A, 8, 0x4347);
    WalkH();
    LeadsOn(0x1021, 56, 0x4347, 8, 0x36FB);
    WalkI();
    LeadsOn(0x1021, 64, 0x36FB, 8, 0xCC40);
    WalkJ();
    LeadsOn(0x1021, 72, 0xCC40, 8, 0x3F07);
    WalkK();
    LeadsOn(0x1021, 80, 0x3F07, 8, 0x6493);
    WalkL();
    LeadsOn(0x1021, 88, 0x6493, 8, 0xB353);
    WalkM();
    LeadsOn(0x1021, 96, 0xB353, 8, 0x0284);
    WalkN();
    LeadsOn(0x1021, 104, 0x0284, 8, 0x8FC9);
    WalkO();
    LeadsOn(0x1021, 112, 0x8FC9, 8, 0x86C9);
    WalkP();
    LeadsOn(0x1021, 120, 0x86C9, 8, 0x3F68);
  }

  // ---------------------------------------------------------------------------
  // The register left alone

  lemma SilenceAdds(r: Register, m: nat, n: nat)
    ensures Feed(r, Zeros(m + n)) == Feed(Feed(r, Zeros(m)), Zeros(n))
  {
    assert Zeros(m + n) == Zeros(m) + Zeros(n);
    FeedAppend(r, Zeros(m), Zeros(n));
  }

  lemma OneSilence(r: Register)
    ensures Feed(r, Zeros(1)) == Shift(r)
  {
    assert Zeros(1) == [false] && Step(r, false) == Shift(r);
    assert [false][1..] == [];
  }

  lemma StepIsSilence(c: bv16)
    ensures Feed(Register16(c), Zeros(1)) == Register16(BitStep(c))
  {
    hide Register16, BitStep, Shift;
    OneSilence(Register16(c));
    BitStepIsShift(c);
  }

  lemma FourIsSilence(c: bv16)
    ensures Feed(Register16(c), Zeros(4)) == Register16(FourSteps(c))
  {
    hide Register16, BitStep, Feed, Zeros;
    var c1 := BitStep(c);
    var c2 := BitStep(c1);
    SilenceAdds(Register16(c), 1, 3);
    StepIsSilence(c);
    SilenceAdds(Register16(c1), 1, 2);
    StepIsSilence(c1);
    SilenceAdds(Register16(c2), 1, 1);
    StepIsSilence(c2);
    StepIsSilence(BitStep(c2));
  }

  lemma SixteenIsSilence(c: bv16)
    ensures Feed(Register16(c), Zeros(16)) == Register16(SixteenSteps(c))
  {
    hide Register16, FourSteps, Feed, Zeros;
    var c1 := FourSteps(c);
    var c2 := FourSteps(c1);
    SilenceAdds(Register16(c), 4, 12);
    FourIsSilence(c);
    SilenceAdds(Register16(c1), 4, 8);
    FourIsSilence(c1);
    SilenceAdds(Register16(c2), 4, 4);
    FourIsSilence(c2);
    FourIsSilence(FourSteps(c2));
  }

  lemma SilenceIsInjective(r: Register, s: Register, n: nat)
    requires Feed(r, Zeros(n)) == Feed(s, Zeros(n))
    ensures r == s
  {
    hide Feed;
    FeedLinear(r, s, Zeros(n), Zeros(n));
    assert Xor(Zeros(n), Zeros(n)) == Zeros(n);
    var f := Feed(r, Zeros(n));
    assert Xor(f, f) == ZERO;
    SilenceKeepsZero(Xor(r, s), n);
    assert forall i :: 0 <= i < 16 ==> Xor(r, s)[i] == (r[i] != s[i]);
  }

  lemma {:induction false} SingleMoves(k: nat)
    requires k < 16
    ensures Feed(Single(k), Zeros(k)) == Single(0)
  {
    if k > 0 {
      SilenceAdds(Single(k), 1, k - 1);
      OneSilence(Single(k));
      assert Shift(Single(k)) == Single(k - 1);
      SingleMoves(k - 1);
    }
  }

  lemma SingleWord(c: bv16, k: nat)
    requires k < 16 && Register16(c) == Single(k)
    ensures AtMostOneBit(c)
  {
    assert forall i :: 0 <= i < 16 ==> BitAt(c, i) == (i == k);
    OnlyOneBit(c, k);
  }

  lemma OnlyOneBit(c: bv16, k: nat)
    requires k < 16 && forall i :: 0 <= i < 16 ==> BitAt(c, i) == (i == k)
    ensures AtMostOneBit(c)
  {
    assert BitAt(c, 0) == (k == 0) && BitAt(c, 1) == (k == 1) && BitAt(c, 2) == (k == 2);
    assert BitAt(c, 3) == (k == 3) && BitAt(c, 4) == (k == 4) && BitAt(c, 5) == (k == 5);
    assert BitAt(c, 6) == (k == 6) && BitAt(c, 7) == (k == 7) && BitAt(c, 8) == (k == 8);
    assert BitAt(c, 9) == (k == 9) && BitAt(c, 10) == (k == 10) && BitAt(c, 11) == (k == 11);
    assert BitAt(c, 12) == (k == 12) && BitAt(c, 13) == (k == 13) && BitAt(c, 14) == (k == 14);
    assert BitAt(c, 15) == (k == 15);
  }

  /** Along a walk that leads from c to d, the leading bit alone is never met. */
  lemma {:induction false} NeverAlone(c: bv16, n: nat, d: bv16, k: nat)
    requires Leads(c, n, d) && k < 16 * n
    ensures Feed(Register16(c), Zeros(k)) != Single(0)
    decreases n
  {
    hide Register16, SixteenSteps, Feed, AtMostOneBit;
    var r := Register16(c);
    if k < 16 {
      if Feed(r, Zeros(k)) == Single(0) {
        SingleMoves(k);
        SilenceIsInjective(r, Single(k), k);
        SingleWord(c, k);
      }
    } else {
      SilenceAdds(r, 16, k - 16);
      SixteenIsSilence(c);
      NeverAlone(SixteenSteps(c), n - 1, d, k - 16);
    }
  }

  // ---------------------------------------------------------------------------
  // Two bits

  predicate IsPair(e: bits, i: nat, j: nat) {
    i < j < |e| && forall k :: 0 <= k < |e| ==> e[k] == (k == i || k == j)
  }

  /** Two bits at most 2048 apart leave the register non-zero. */
  lemma PairShows(e: bits, i: nat, j: nat)
    requires IsPair(e, i, j) && j - i <= 2048
    ensures Feed(ZERO, e) != ZERO
  {
    hide Feed, Leads, Register16;
    var gap, rest := j - i - 1, |e| - j - 1;
    var tail := [true] + Zeros(rest);
    assert e == Zeros(i) + ([true] + (Zeros(gap) + tail));
    FeedAppend(ZERO, Zeros(i), [true] + (Zeros(gap) + tail));
    SilenceKeepsZero(ZERO, i);
    FeedAppend(ZERO, [true], Zeros(gap) + tail);
    FirstBit();
    FeedAppend(Generator(), Zeros(gap), tail);
    Walk();
    RegisterOfGenerator();
    NeverAlone(0x1021, 128, 0x3F68, gap);
    var met := Feed(Generator(), Zeros(gap));
    FeedAppend(met, [true], Zeros(rest));
    ZeroAfter(met, [true]);
    assert Pad([true]) == Single(0);
    SilenceKeepsZero(Feed(met, [true]), rest);
  }

  lemma FirstBit()
    ensures Feed(ZERO, [true]) == Generator()
  {
    assert [true][1..] == [];
    assert Step(ZERO, true) == Generator();
  }

  lemma {:induction false} NoBits(e: bits)
    requires Ones(e) == 0
    ensures forall k :: 0 <= k < |e| ==> !e[k]
  {
    if e != [] {
      NoBits(e[1..]);
      assert forall k :: 1 <= k < |e| ==> e[k] == e[1..][k - 1];
    }
  }

  lemma {:induction false} OneBitOf(e: bits) returns (i: nat)
    requires Ones(e) == 1
    ensures i < |e| && forall k :: 0 <= k < |e| ==> e[k] == (k == i)
  {
    if e[0] {
      NoBits(e[1..]);
      i := 0;
    } else {
      var later := OneBitOf(e[1..]);
      i := later + 1;
    }
    assert forall k :: 1 <= k < |e| ==> e[k] == e[1..][k - 1];
  }

  lemma {:induction false} PairOf(e: bits) returns (i: nat, j: nat)
    requires Ones(e) == 2
    ensures IsPair(e, i, j)
  {
    if e[0] {
      var later := OneBitOf(e[1..]);
      i, j := 0, later + 1;
    } else {
      var a, b := PairOf(e[1..]);
      i, j := a + 1, b + 1;
    }
    assert forall k :: 1 <= k < |e| ==> e[k] == e[1..][k - 1];
  }

  // ---------------------------------------------------------------------------
  // Frames

  lemma AcceptedIsShort(x: bytes)
    requires P.Accepted(x)
    ensures 2 <= |x| <= 256
  {
    hide Checksum.Of;
  }

  /** Flipping any two bits of a frame never yields a frame. */
  lemma PairIsRejected(x: bytes, y: bytes)
    requires P.Accepted(x) && |y| == |x| && Ones(P.Flips(x, y)) == 2
    ensures !P.Accepted(y)
  {
    hide Checksum.Of, Checksum.Bits, P.Decode, Feed, IsPair;
    if P.Accepted(y) {
      AcceptedIsShort(x);
      var e := P.Flips(x[2..], y[2..]);
      P.FlipsAfterMagic(x, y);
      P.OnesAfterZeros(16, e);
      var i, j := PairOf(e);
      ShortPair(e, i, j);
      PairShows(e, i, j);
      P.AcceptedChecks(x);
      P.AcceptedChecks(y);
      Unseen(x[2..], y[2..]);
    }
  }

  lemma Unseen(x: bytes, y: bytes)
    requires |x| == |y| && Checksum.Of(x) == 0 && Checksum.Of(y) == 0
    ensures Feed(ZERO, P.Flips(x, y)) == ZERO
  {
    hide Checksum.Of, Checksum.Bits;
    Checksum.DifferenceUnseen(x, y);
  }

  lemma ShortPair(e: bits, i: nat, j: nat)
    requires IsPair(e, i, j) && |e| <= 2048
    ensures j - i <= 2048
  {
  }

  /** Two different frames of one length differ in at least four bits. */
  lemma FramesAreFourApart(x: bytes, y: bytes)
    requires P.Accepted(x) && P.Accepted(y) && |x| == |y| && x != y
    ensures Ones(P.Flips(x, y)) >= 4
  {
    hide P.Accepted, P.Flips;
    P.SomeFlips(x, y);
    if Ones(P.Flips(x, y)) == 0 {
      NoBits(P.Flips(x, y));
    } else if Ones(P.Flips(x, y)) == 2 {
      PairIsRejected(x, y);
    } else if Ones(P.Flips(x, y)) < 4 {
      P.OddIsRejected(x, y);
    }
  }
}
