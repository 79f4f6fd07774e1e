/** Time as the polling loops read it: one reading per loop test, any delay in between. */
module Clock {

  /** A sleep of `interval` between two readings; requests may take any additional time. */
  ghost predicate Ticks(clock: nat -> int, interval: int) {
    forall i: nat, j: nat | j == i + 1 :: clock(j) >= clock(i) + interval
  }

  /** ceil(timeout / interval), 0 for a timeout that is already over. */
  function Attempts(timeout: int, interval: int): nat
    requires interval > 0
  {
    if timeout <= 0 then 0 else (timeout + interval - 1) / interval
  }

  lemma AttemptsBound(timeout: int, interval: int, n: nat)
    requires interval > 0 && n * interval < timeout
    ensures n + 1 <= Attempts(timeout, interval)
  {
    assert timeout + interval - 1 >= (n + 1) * interval;
  }

  /** After n polls the clock has advanced by at least n intervals. */
  lemma {:induction false} Elapsed(clock: nat -> int, interval: int, n: nat)
    requires interval > 0 && Ticks(clock, interval)
    ensures clock(n) >= clock(0) + n * interval
  {
    if n > 0 {
      Elapsed(clock, interval, n - 1);
      assert clock(n) >= clock(n - 1) + interval;
      assert n * interval == (n - 1) * interval + interval;
    }
  }

  lemma {:induction false} NeverBackwards(clock: nat -> int, interval: int, i: nat, j: nat)
    requires interval > 0 && Ticks(clock, interval) && i <= j
    ensures clock(i) <= clock(j)
    decreases j
  {
    if i < j {
      NeverBackwards(clock, interval, i, j - 1);
      assert clock(j) >= clock(j - 1) + interval;
    }
  }
}
