/**
 * The reconnect delay: after the n-th consecutive connection error the
 * adapter waits floor(random * 2^n + 10) milliseconds, capped at 10000.
 * The random draw is a parameter: `jitter` is floor(random * 2^n), any
 * whole number below 2^n.
 */
module Connection {

  function Pow2(n: nat): (p: nat)
    ensures p >= 1
  {
    if n == 0 then 1 else 2 * Pow2(n - 1)
  }

  function Min(a: int, b: int): int
  {
    if a < b then a else b
  }

  /** exponentialBackoff(attempt) for the draw `jitter`. */
  function Backoff(attempt: nat, jitter: nat): (delay: nat)
    requires jitter < Pow2(attempt)
    ensures 10 <= delay <= 10000
    ensures delay <= Pow2(attempt) + 9
  {
    Min(jitter + 10, 10000)
  }

  /** The longest delay the attempt can draw. */
  function LongestBackoff(attempt: nat): nat
  {
    Min(Pow2(attempt) + 9, 10000)
  }

  /** Powers of two only grow. */
  lemma {:induction false} Pow2Monotone(m: nat, n: nat)
    requires m <= n
    ensures Pow2(m) <= Pow2(n)
    decreases n
  {
    if m < n {
      Pow2Monotone(m, n - 1);
      assert Pow2(n) == 2 * Pow2(n - 1);
    }
  }

  lemma Pow2Of13()
    ensures Pow2(13) == 8192
  {
    assert Pow2(0) == 1;
    assert Pow2(1) == 2;
    assert Pow2(2) == 4;
    assert Pow2(3) == 8;
    assert Pow2(4) == 16;
    assert Pow2(5) == 32;
    assert Pow2(6) == 64;
    assert Pow2(7) == 128;
    assert Pow2(8) == 256;
    assert Pow2(9) == 512;
    assert Pow2(10) == 1024;
    assert Pow2(11) == 2048;
    assert Pow2(12) == 4096;
  }

  /**
   * Every draw lies between 10 ms and the attempt's longest delay, and the
   * longest delay is reached by the largest draw.
   */
  lemma BackoffRange(attempt: nat, jitter: nat)
    requires jitter < Pow2(attempt)
    ensures 10 <= Backoff(attempt, jitter) <= LongestBackoff(attempt)
    ensures jitter == Pow2(attempt) - 1 ==> Backoff(attempt, jitter) == LongestBackoff(attempt)
  {
  }

  /** The longest delay never shrinks from one attempt to the next. */
  lemma LongestBackoffGrows(m: nat, n: nat)
    requires m <= n
    ensures LongestBackoff(m) <= LongestBackoff(n)
  {
    Pow2Monotone(m, n);
  }

  /**
   * Up to the 13th attempt the cap never applies: the delay is the draw
   * plus 10 ms. From the 14th on the delay can reach the 10-second cap.
   */
  lemma BackoffCap(attempt: nat, jitter: nat)
    requires jitter < Pow2(attempt)
    ensures attempt <= 13 ==> Backoff(attempt, jitter) == jitter + 10
    ensures attempt >= 14 ==> LongestBackoff(attempt) == 10000
  {
    Pow2Of13();
    if attempt <= 13 {
      Pow2Monotone(attempt, 13);
    } else {
      Pow2Monotone(14, attempt);
      assert Pow2(14) == 2 * Pow2(13);
    }
  }
}
