/**
  Division by the generator x^16 + x^12 + x^5 + 1 over GF(2), as a 16-bit shift register that
  takes its input one bit at a time, most significant bit first. This is the reference against
  which the driver's checksum is proved: the register is linear, nothing but zero is shifted to
  zero, sixteen bits determine it, and it keeps the parity of the bits fed.
*/
module Division {

  type bits = seq<bool>
  type Register = r: bits | |r| == 16 witness seq(16, _ => false)

  /** The terms of the generator below x^16, highest first: x^12, x^5 and 1. */
  function Generator(): Register {
    seq(16, i => i == 3 || i == 10 || i == 15)
  }

  const ZERO: Register := Zeros(16)

  function Zeros(n: nat): (z: bits)
    ensures |z| == n && forall i :: 0 <= i < n ==> !z[i]
  {
    seq(n, _ => false)
  }

  /** Addition of polynomials; also, where two bit strings disagree. */
  function Xor(x: bits, y: bits): (z: bits)
    requires |x| == |y|
    ensures |z| == |x| && forall i :: 0 <= i < |x| ==> z[i] == (x[i] != y[i])
  {
    seq(|x|, i requires 0 <= i < |x| => x[i] != y[i])
  }

  function Shift(r: Register): Register {
    if r[0] then Xor(r[1..] + [false], Generator()) else r[1..] + [false]
  }

  function Shifts(r: Register, n: nat): Register
    decreases n
  {
    if n == 0 then r else Shifts(Shift(r), n - 1)
  }

  function Step(r: Register, bit: bool): Register {
    if r[0] != bit then Xor(r[1..] + [false], Generator()) else r[1..] + [false]
  }

  function Feed(r: Register, input: bits): Register
    decreases |input|
  {
    if input == [] then r else Feed(Step(r, input[0]), input[1..])
  }

  lemma {:induction false} FeedAppend(r: Register, a: bits, b: bits)
    ensures Feed(r, a + b) == Feed(Feed(r, a), b)
    decreases |a|
  {
    if a == [] {
      assert a + b == b;
    } else {
      assert (a + b)[1..] == a[1..] + b;
      FeedAppend(Step(r, a[0]), a[1..], b);
    }
  }

  // ---------------------------------------------------------------------------
  // Linearity

  lemma StepLinear(r: Register, s: Register, x: bool, y: bool)
    ensures Step(Xor(r, s), x != y) == Xor(Step(r, x), Step(s, y))
  {
  }

  lemma {:induction false} FeedLinear(r: Register, s: Register, x: bits, y: bits)
    requires |x| == |y|
    ensures Feed(Xor(r, s), Xor(x, y)) == Xor(Feed(r, x), Feed(s, y))
    decreases |x|
  {
    if x != [] {
      StepLinear(r, s, x[0], y[0]);
      assert Xor(x, y)[1..] == Xor(x[1..], y[1..]);
      FeedLinear(Step(r, x[0]), Step(s, y[0]), x[1..], y[1..]);
    }
  }

  // ---------------------------------------------------------------------------
  // Feeding at most sixteen bits is adding them and shifting

  function Pad(w: bits): Register
    requires |w| <= 16
  {
    w + Zeros(16 - |w|)
  }

  lemma PeelOne(r: Register, w: bits)
    requires 1 <= |w| <= 16
    ensures Shift(Xor(r, Pad(w))) == Xor(Step(r, w[0]), Pad(w[1..]))
  {
  }

  lemma {:induction false} FeedIsAddAndShift(r: Register, w: bits)
    requires |w| <= 16
    ensures Feed(r, w) == Shifts(Xor(r, Pad(w)), |w|)
    decreases |w|
  {
    if w == [] {
      assert Xor(r, Pad(w)) == r;
    } else {
      PeelOne(r, w);
      FeedIsAddAndShift(Step(r, w[0]), w[1..]);
    }
  }

  lemma ShiftZero(r: Register)
    ensures Shift(r) == ZERO <==> r == ZERO
  {
    if r[0] {
      assert Shift(r)[15];
    } else {
      assert forall i :: 1 <= i < 16 ==> Shift(r)[i - 1] == r[i];
    }
  }

  lemma {:induction false} ShiftsZero(r: Register, n: nat)
    ensures Shifts(r, n) == ZERO <==> r == ZERO
    decreases n
  {
    if n > 0 {
      ShiftZero(r);
      ShiftsZero(Shift(r), n - 1);
    }
  }

  /** At most sixteen bits bring the register to zero exactly when they are its own contents. */
  lemma ZeroAfter(r: Register, w: bits)
    requires |w| <= 16
    ensures Feed(r, w) == ZERO <==> r == Pad(w)
  {
    FeedIsAddAndShift(r, w);
    ShiftsZero(Xor(r, Pad(w)), |w|);
    assert forall i :: 0 <= i < 16 ==> Xor(r, Pad(w))[i] == (r[i] != Pad(w)[i]);
  }

  lemma {:induction false} SilenceKeepsZero(r: Register, n: nat)
    ensures Feed(r, Zeros(n)) == ZERO <==> r == ZERO
    decreases n
  {
    if n > 0 {
      assert Zeros(n)[1..] == Zeros(n - 1);
      assert Step(r, false) == Shift(r);
      ShiftZero(r);
      SilenceKeepsZero(Shift(r), n - 1);
    }
  }

  // ---------------------------------------------------------------------------
  // What the register cannot miss

  /** Some bit is set, and every set bit lies within sixteen positions. */
  ghost predicate IsBurst(e: bits) {
    exists k: nat :: IsBurstAt(e, k)
  }

  predicate IsBurstAt(e: bits, k: nat) {
    k < |e| && e[k] && forall i :: 0 <= i < |e| && e[i] ==> k <= i < k + 16
  }

  lemma {:induction false} BurstWithin(e: bits, lo: nat)
    requires lo < |e| && exists i :: 0 <= i < |e| && e[i]
    requires forall i :: 0 <= i < |e| && e[i] ==> lo <= i < lo + 16
    ensures IsBurst(e)
    decreases |e| - lo
  {
    if e[lo] {
      assert IsBurstAt(e, lo);
    } else {
      BurstWithin(e, lo + 1);
    }
  }

  lemma BurstShows(e: bits)
    requires IsBurst(e)
    ensures Feed(ZERO, e) != ZERO
  {
    var k: nat :| IsBurstAt(e, k);
    var end := if k + 16 <= |e| then k + 16 else |e|;
    var window := e[k..end];
    assert e == Zeros(k) + (window + Zeros(|e| - end));
    FeedAppend(ZERO, Zeros(k), window + Zeros(|e| - end));
    SilenceKeepsZero(ZERO, k);
    FeedAppend(ZERO, window, Zeros(|e| - end));
    ZeroAfter(ZERO, window);
    assert Pad(window)[0];
    SilenceKeepsZero(Feed(ZERO, window), |e| - end);
  }

  function Ones(e: bits): nat {
    if e == [] then 0 else (if e[0] then 1 else 0) + Ones(e[1..])
  }

  predicate Odd(e: bits) {
    e != [] && e[0] != Odd(e[1..])
  }

  lemma {:induction false} OddCounts(e: bits)
    ensures Odd(e) <==> Ones(e) % 2 == 1
  {
    if e != [] {
      OddCounts(e[1..]);
    }
  }

  lemma {:induction false} OddXor(x: bits, y: bits)
    requires |x| == |y|
    ensures Odd(Xor(x, y)) == (Odd(x) != Odd(y))
  {
    if x != [] {
      assert Xor(x, y)[1..] == Xor(x[1..], y[1..]);
      OddXor(x[1..], y[1..]);
    }
  }

  lemma {:induction false} OddAppend(x: bits, y: bits)
    ensures Odd(x + y) == (Odd(x) != Odd(y))
  {
    if x == [] {
      assert x + y == y;
    } else {
      assert (x + y)[1..] == x[1..] + y;
      OddAppend(x[1..], y);
    }
  }

  lemma {:induction false} ZerosAreEven(n: nat)
    ensures !Odd(Zeros(n))
  {
    if n > 0 {
      assert Zeros(n)[1..] == Zeros(n - 1);
      ZerosAreEven(n - 1);
    }
  }

  lemma OddFour(e: bits)
    requires |e| >= 4
    ensures Odd(e) == (e[0] != (e[1] != (e[2] != (e[3] != Odd(e[4..])))))
  {
    assert e[1..][1..] == e[2..] && Odd(e[1..]) == (e[1] != Odd(e[2..]));
    assert e[2..][1..] == e[3..] && Odd(e[2..]) == (e[2] != Odd(e[3..]));
    assert e[3..][1..] == e[4..] && Odd(e[3..]) == (e[3] != Odd(e[4..]));
  }

  /** With its leading term the generator has four terms; without it, three. */
  lemma GeneratorIsOdd()
    ensures Odd(Generator())
  {
    var g := Generator();
    OddFour(g);
    OddFour(g[4..]);
    OddFour(g[8..]);
    OddFour(g[12..]);
    assert g[4..][4..] == g[8..] && g[8..][4..] == g[12..] && g[12..][4..] == [];
  }

  lemma ReductionParity(s: bits)
    requires |s| == 15
    ensures Odd(s + [false]) == Odd(s)
    ensures Odd(Xor(s + [false], Generator())) == !Odd(s)
  {
    OddAppend(s, [false]);
    OddXor(s + [false], Generator());
    GeneratorIsOdd();
  }

  lemma StepParity(r: Register, bit: bool)
    ensures Odd(Step(r, bit)) == (Odd(r) != bit)
  {
    ReductionParity(r[1..]);
  }

  lemma {:induction false} FeedParity(r: Register, e: bits)
    ensures Odd(Feed(r, e)) == (Odd(r) != Odd(e))
    decreases |e|
  {
    if e != [] {
      StepParity(r, e[0]);
      FeedParity(Step(r, e[0]), e[1..]);
    }
  }

  lemma OddShows(e: bits)
    requires Ones(e) % 2 == 1
    ensures Feed(ZERO, e) != ZERO
  {
    OddCounts(e);
    FeedParity(ZERO, e);
    ZerosAreEven(16);
  }

  // ---------------------------------------------------------------------------
  // The register holds the remainder

  /** The product of a polynomial and the generator, x^16 included. */
  function Times(q: bits): (p: bits)
    ensures |p| == |q| + 16
  {
    if q == [] then Zeros(16)
    else
      var n := |q| - 1;
      Xor(Times(q[..n]) + [false], Zeros(n) + (if q[n] then [true] + Generator() else Zeros(17)))
  }

  lemma TimesSnoc(q: bits, bit: bool)
    ensures Times(q + [bit]) ==
      Xor(Times(q) + [false], Zeros(|q|) + (if bit then [true] + Generator() else Zeros(17)))
  {
    hide Xor, Zeros, Generator;
    assert (q + [bit])[..|q|] == q;
  }

  lemma FeedSnoc(r: Register, input: bits, bit: bool)
    ensures Feed(r, input + [bit]) == Step(Feed(r, input), bit)
  {
    FeedAppend(r, input, [bit]);
  }

  /** One more bit of the dividend: e x^16 = q G + r goes over into the same equation. */
  lemma DivideOneMore(e: bits, q: bits, r: Register, bit: bool)
    requires |q| == |e| && e + Zeros(16) == Xor(Times(q), Zeros(|e|) + r)
    ensures
      e + [bit] + Zeros(16) == Xor(Times(q + [r[0] != bit]), Zeros(|e| + 1) + Step(r, bit))
  {
    hide Times;
    var n, c := |e|, r[0] != bit;
    var before, goal := e + Zeros(16), e + [bit] + Zeros(16);
    TimesSnoc(q, c);
    var product, remainder := Times(q + [c]), Zeros(n + 1) + Step(r, bit);
    forall i | 0 <= i < n + 17 ensures goal[i] == (product[i] != remainder[i]) {
      if i < n {
        assert before[i] == (Times(q)[i] != (Zeros(n) + r)[i]);
      } else if i == n {
        assert before[n] == (Times(q)[n] != r[0]);
      } else if i < n + 16 {
        assert before[i] == (Times(q)[i] != r[i - n]);
      }
    }
  }

  /** Fed with e, the register holds the remainder of e x^16: for some quotient q, e x^16 = q G + r. */
  lemma {:induction false} IsRemainder(e: bits) returns (q: bits)
    ensures |q| == |e| && e + Zeros(16) == Xor(Times(q), Zeros(|e|) + Feed(ZERO, e))
  {
    if e == [] {
      q := [];
      assert Zeros(0) + ZERO == ZERO;
    } else {
      var init, last := e[..|e| - 1], e[|e| - 1];
      var before := IsRemainder(init);
      var r := Feed(ZERO, init);
      assert e == init + [last];
      DivideOneMore(init, before, r, last);
      FeedSnoc(ZERO, init, last);
      q := before + [r[0] != last];
    }
  }

  /** Starting from r instead of zero is adding r to the first sixteen bits of the input. */
  lemma StartIsAdded(r: Register, input: bits)
    requires |input| >= 16
    ensures Feed(r, input) == Feed(ZERO, Xor(input, r + Zeros(|input| - 16)))
  {
    var mask := r + Zeros(|input| - 16);
    FeedAppend(r, r, Zeros(|input| - 16));
    ZeroAfter(r, r);
    SilenceKeepsZero(ZERO, |input| - 16);
    FeedLinear(r, r, input, mask);
    assert Xor(r, r) == ZERO;
    assert Pad(r) == r;
    var f := Feed(r, input);
    assert Xor(f, ZERO) == f;
  }
}
