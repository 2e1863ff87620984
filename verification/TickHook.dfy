/** TickHook: the divider in the uC/OS-II tick hook that signals the timer task. */
module TickHook {

  const WIDTH: nat := 0x1_0000

  /** One tick with divisor `n`: the 16-bit counter afterwards, and whether the timer is signalled. */
  function Tick(ctr: nat, n: nat): (nat, bool) {
    var c := (ctr + 1) % WIDTH;
    if c >= n then (0, true) else (c, false)
  }

  /** The counter and the number of signals after `k` ticks from the start. */
  function Run(n: nat, k: nat): (nat, nat) {
    if k == 0 then (0, 0)
    else
      var (ctr, signals) := Run(n, k - 1);
      var (c, s) := Tick(ctr, n);
      (c, signals + if s then 1 else 0)
  }

  lemma {:induction false} DividesExactly(n: nat, k: nat)
    requires 1 <= n <= 65535
    ensures Run(n, k) == (k % n, k / n)
  {
    if k > 0 {
      DividesExactly(n, k - 1);
      TickBelow((k - 1) % n, n);
      NextTick(n, k);
    }
  }

  lemma TickBelow(ctr: nat, n: nat)
    requires ctr < n < WIDTH
    ensures Tick(ctr, n) == if ctr == n - 1 then (0, true) else (ctr + 1, false)
  {}

  lemma NextTick(n: nat, k: nat)
    requires n >= 1 && k >= 1
    ensures (k - 1) % n == n - 1 ==> k % n == 0 && k / n == (k - 1) / n + 1
    ensures (k - 1) % n < n - 1 ==> k % n == (k - 1) % n + 1 && k / n == (k - 1) / n
  {
    var q, r := (k - 1) / n, (k - 1) % n;
    Successor(n, q, r, k);
    if r == n - 1 { Quotient(n, q + 1, 0, k); } else { Quotient(n, q, r + 1, k); }
  }

  lemma Successor(n: nat, q: nat, r: nat, k: nat)
    requires n >= 1 && k >= 1 && q == (k - 1) / n && r == (k - 1) % n
    ensures k == q * n + r + 1 && (r == n - 1 ==> k == (q + 1) * n)
  {}

  lemma Quotient(n: nat, q: nat, r: nat, k: nat)
    requires r < n && k == q * n + r
    ensures k / n == q && k % n == r
  {
    var a := k / n;
    assert k == a * n + k % n;
    if a < q { Apart(n, a, q); } else if q < a { Apart(n, q, a); }
  }

  lemma {:induction false} Apart(n: nat, a: nat, b: nat)
    requires a < b
    ensures a * n + n <= b * n
  {
    if a + 1 < b { Apart(n, a, b - 1); }
  }

  /** With a divisor of zero every tick signals. */
  lemma {:induction false} ZeroSignalsAlways(k: nat)
    ensures Run(0, k) == (0, k)
  {
    if k > 0 { ZeroSignalsAlways(k - 1); }
  }

  /** With a divisor the counter cannot reach, no tick ever signals. */
  lemma {:induction false} WideNeverSignals(n: nat, k: nat)
    requires n >= 65536
    ensures Run(n, k) == (k % 65536, 0)
  {
    if k > 0 {
      WideNeverSignals(n, k - 1);
      NextTick(WIDTH, k);
    }
  }

  /** The hook signals once in every `n` ticks, exactly for the divisors that fit its counter. */
  lemma ExactIffFits(n: nat)
    requires n > 0
    ensures (forall k: nat :: Run(n, k).1 == k / n) <==> n <= 65535
  {
    if n < WIDTH {
      forall k: nat ensures Run(n, k).1 == k / n { DividesExactly(n, k); }
    } else {
      WideNeverSignals(n, n);
      Quotient(n, 1, 0, n);
      assert Run(n, n).1 != n / n;
    }
  }

  class Hook {
    const ticksPerSec: nat
    const timerTicksPerSec: nat
    var ctr: nat
    ghost var ticks: nat
    ghost var signals: nat

    /** OSTmrCtr and the signals sent are those of `ticks` ticks since OSInitHookBegin. */
    ghost predicate Valid()
      reads this
    {
      timerTicksPerSec > 0 && (ctr, signals) == Run(ticksPerSec / timerTicksPerSec, ticks)
    }

    constructor (ticksPerSec: nat, timerTicksPerSec: nat)
      requires timerTicksPerSec > 0
      ensures Valid() && ticks == 0
      ensures this.ticksPerSec == ticksPerSec && this.timerTicksPerSec == timerTicksPerSec
    {
      this.ticksPerSec, this.timerTicksPerSec := ticksPerSec, timerTicksPerSec;
      ctr, ticks, signals := 0, 0, 0;
    }

    method InitHookBegin()
      requires timerTicksPerSec > 0
      modifies this
      ensures Valid() && ctr == 0 && ticks == 0
    {
      ctr := 0;
      ticks, signals := 0, 0;
    }

    method TimeTickHook() returns (signalled: bool)
      requires Valid()
      modifies this
      ensures Valid() && ticks == old(ticks) + 1
      ensures signals == old(signals) + if signalled then 1 else 0
      ensures var n := ticksPerSec / timerTicksPerSec;
        1 <= n <= 65535 ==> ctr == ticks % n && signals == ticks / n && (signalled <==> ticks % n == 0)
    {
      ctr := (ctr + 1) % WIDTH;
      signalled := ctr >= ticksPerSec / timerTicksPerSec;
      if signalled {
        ctr := 0;
        signals := signals + 1;
      }
      ticks := ticks + 1;
      ghost var n := ticksPerSec / timerTicksPerSec;
      if 1 <= n < WIDTH {
        DividesExactly(n, ticks);
        DividesExactly(n, old(ticks));
        NextTick(n, ticks);
      }
    }
  }
}
