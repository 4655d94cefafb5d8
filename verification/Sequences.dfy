/** Sequence numbers, serial.hpp:488-496: sixteen bits, starting at 1, skipping 0 on wrap-around. */
module Sequences {
  import opened Words

  /** The counter's next value; heartbeats alone use 0. */
  function Next(s: u16): u16 {
    var next := (s + 1) % 0x1_0000;
    if next == 0 then 1 else next
  }

  /** The counter after n allocations, which is also the n-th number handed out, counting from 0. */
  function Nth(n: nat): u16 {
    if n == 0 then 1 else Next(Nth(n - 1))
  }

  lemma NextRemainder(n: nat)
    ensures Next(n % 65535 + 1) == (n + 1) % 65535 + 1
  {
    if n % 65535 == 65534 {
      assert n + 1 == 65535 * (n / 65535 + 1);
    } else {
      assert n + 1 == 65535 * (n / 65535) + (n % 65535 + 1);
    }
  }

  lemma {:induction false} NthIs(n: nat)
    ensures Nth(n) == n % 65535 + 1
  {
    if n > 0 {
      NthIs(n - 1);
      NextRemainder(n - 1);
    }
  }

  lemma RemaindersDiffer(m: nat, n: nat)
    requires m < n < m + 65535
    ensures m % 65535 != n % 65535
  {
    var q := n / 65535 - m / 65535;
    assert n - m == 65535 * q + (n % 65535 - m % 65535);
    assert q <= 0 ==> 65535 * q <= 0;
    assert q >= 1 ==> 65535 * q >= 65535;
  }

  /** Numbers are never 0, and 65535 consecutive ones are all different. */
  lemma NumbersDiffer(m: nat, n: nat)
    requires m < n < m + 65535
    ensures 1 <= Nth(m) && Nth(m) != Nth(n)
  {
    hide Nth;
    NthIs(m);
    NthIs(n);
    RemaindersDiffer(m, n);
  }

  lemma NextDiffers(s: u16)
    requires 1 <= s
    ensures 1 <= Next(s) && Next(s) != s && Next(Next(s)) != s
  {
  }
}
