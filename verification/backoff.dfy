/** The supervisor's restart loop and its saturating exponential backoff, in 64-bit arithmetic. */
module Backoff {
  import opened Domain

  const MAX_INT64 := 0x7FFF_FFFF_FFFF_FFFF

  predicate Int64(n: int) { -0x8000_0000_0000_0000 <= n <= MAX_INT64 }

  function Pow2(n: nat): nat { if n == 0 then 1 else 2 * Pow2(n - 1) }

  function Min(a: int, b: int): int { if a < b then a else b }

  /** Go's 1 << uint(shift) as an int64: a negative count converts to a huge one, which shifts everything out. */
  function ShiftedOne(shift: int): int
    requires shift <= 30
  {
    if shift < 0 then 0 else Pow2(shift)
  }

  function BackoffDelay(attempt: int, base: int, max: int): int {
    var shift := if attempt > 30 then 30 else attempt;
    var d := AsInt64(base * ShiftedOne(shift));
    if d > max || d <= 0 then max else d
  }

  // ---------------------------------------------------------------- arithmetic

  lemma {:induction false} Pow2Monotone(m: nat, n: nat)
    requires m <= n
    ensures 1 <= Pow2(m) <= Pow2(n)
    ensures m < n ==> 2 * Pow2(m) <= Pow2(n)
    decreases n
  {
    if m < n {
      Pow2Monotone(m, n - 1);
    } else if m > 0 {
      Pow2Monotone(m - 1, n - 1);
    }
  }

  lemma Pow2Values()
    ensures Pow2(6) == 64 && Pow2(10) == 1024 && Pow2(30) == 0x4000_0000
  {
    assert Pow2(5) == 32;
    assert Pow2(6) == 64;
    assert Pow2(9) == 512;
    assert Pow2(10) == 1024;
    Pow2Adds(10, 10);
    Pow2Adds(20, 10);
  }

  lemma {:induction false} Pow2Adds(m: nat, n: nat)
    ensures Pow2(m + n) == Pow2(m) * Pow2(n)
  {
    if n > 0 {
      Pow2Adds(m, n - 1);
    }
  }

  lemma Scaled(base: nat, m: nat, n: nat)
    requires m <= n
    ensures base * Pow2(m) <= base * Pow2(n)
    ensures m < n && base > 0 ==> base * Pow2(m) < base * Pow2(n)
  {
    Pow2Monotone(m, n);
  }

  lemma NoWrap(n: int)
    requires Int64(n)
    ensures AsInt64(n) == n
  {
  }

  // ---------------------------------------------------------------- exactness

  /** For every positive base: the delay is the capped product iff the product fits, or wraps to something the guards
      catch. The guard d <= 0 alone does not catch every overflow. */
  lemma GuardsExact(attempt: nat, base: int, max: int)
    requires base > 0 && Int64(max)
    ensures var product := base * Pow2(if attempt > 30 then 30 else attempt);
            BackoffDelay(attempt, base, max) == Min(product, max) <==>
              product <= MAX_INT64 || AsInt64(product) <= 0 || AsInt64(product) >= max
  {
    var shift: nat := if attempt > 30 then 30 else attempt;
    Pow2Monotone(0, shift);
    var product := base * Pow2(shift);
    ProductPositive(base, Pow2(shift));
    if product <= MAX_INT64 {
      NoWrap(product);
    }
  }

  lemma ProductPositive(a: int, b: int)
    requires a > 0 && b > 0
    ensures a * b > 0
  {
  }

  /** A negative attempt shifts the base out altogether, and is answered with the cap. */
  lemma NegativeAttempt(attempt: int, base: int, max: int)
    requires attempt < 0
    ensures BackoffDelay(attempt, base, max) == max
  {
    assert base * ShiftedOne(attempt) == 0;
  }

  /** A base of 2^34 + 1 nanoseconds, about 17 s, wraps past the guards: 1.07 s instead of the cap. */
  lemma OverflowSlipsThrough(max: int)
    requires 0x4000_0000 < max
    ensures BackoffDelay(30, 0x4_0000_0001, max) == 0x4000_0000 < max
  {
    Pow2Values();
  }

  /** For bases below 2^33 the product never overflows. */
  lemma NoOverflow(base: int, shift: nat)
    requires 0 < base < 0x2_0000_0000 && shift <= 30
    ensures 0 < base * Pow2(shift) <= MAX_INT64
  {
    hide Pow2;
    Pow2Values();
    Pow2Monotone(0, shift);
    ProductPositive(base, Pow2(shift));
    Scaled(base, shift, 30);
    assert base * Pow2(30) == base * 0x4000_0000;
  }

  /** For bases below 2^33 the delay is min(base * 2^attempt, max) iff the attempt is at most 30 or the cap is reached
      by then. */
  lemma DelayExact(attempt: nat, base: int, max: int)
    requires 0 < base < 0x2_0000_0000 && Int64(max)
    ensures BackoffDelay(attempt, base, max) == Min(base * Pow2(attempt), max) <==>
            attempt <= 30 || max <= base * Pow2(30)
  {
    hide AsInt64, Pow2;
    NoOverflow(base, if attempt > 30 then 30 else attempt);
    NoWrap(base * Pow2(if attempt > 30 then 30 else attempt));
    if attempt > 30 {
      Scaled(base, 30, attempt);
    }
  }

  // ---------------------------------------------------------------- the supervisor

  const BASE_DELAY := 500_000_000
  const MAX_DELAY := 30_000_000_000

  /** How one Run of the consumer ends; `stopped` says whether the context is cancelled while the supervisor sleeps. */
  datatype RunEnd = Clean | Broke(cancelled: bool, stopped: bool)

  /** The sleeps before the first k restarts, in nanoseconds. */
  function TotalBackoff(k: nat): int {
    if k == 0 then 0 else TotalBackoff(k - 1) + BackoffDelay(k - 1, BASE_DELAY, MAX_DELAY)
  }

  /** Over any finite stretch of runs: it goes on exactly as long as every run breaks with the context alive, and has
      slept the total backoff of the restarts made. */
  method SupervisorLoop(ends: seq<RunEnd>) returns (restarts: nat, slept: int, exited: bool)
    ensures restarts <= |ends|
    ensures forall k :: 0 <= k < restarts ==> ends[k].Broke? && !ends[k].cancelled && !ends[k].stopped
    ensures exited <==> restarts < |ends|
    ensures exited ==> ends[restarts].Clean? || ends[restarts].cancelled || ends[restarts].stopped
    ensures slept == TotalBackoff(restarts)
  {
    var attempt := 0;
    slept := 0;
    for k := 0 to |ends|
      invariant attempt == k && slept == TotalBackoff(k)
      invariant forall j :: 0 <= j < k ==> ends[j].Broke? && !ends[j].cancelled && !ends[j].stopped
    {
      if ends[k].Clean? || ends[k].cancelled {
        return attempt, slept, true;
      }
      var delay := BackoffDelay(attempt, BASE_DELAY, MAX_DELAY);
      attempt := attempt + 1;
      if ends[k].stopped {
        return k, slept, true;
      }
      slept := slept + delay;
    }
    return attempt, slept, false;
  }

  lemma ProductionDelay(attempt: nat)
    ensures BackoffDelay(attempt, BASE_DELAY, MAX_DELAY)
            == if attempt < 6 then BASE_DELAY * Pow2(attempt) else MAX_DELAY
  {
    hide BackoffDelay, Pow2;
    Pow2Values();
    DelayExact(attempt, BASE_DELAY, MAX_DELAY);
    if attempt < 6 {
      Scaled(BASE_DELAY, attempt, 5);
      PowFive();
    } else {
      Scaled(BASE_DELAY, 6, attempt);
    }
  }

  lemma PowFive()
    ensures Pow2(5) == 32
  {
  }

  /** 0.5 (2^k - 1) seconds over the first k <= 6 restarts, and 30 seconds for each one after. */
  lemma {:induction false} TotalBackoffExact(k: nat)
    ensures TotalBackoff(k)
            == if k <= 6 then 500_000_000 * (Pow2(k) - 1) else 31_500_000_000 + 30_000_000_000 * (k - 6)
  {
    hide BackoffDelay;
    if k > 0 {
      TotalBackoffExact(k - 1);
      ProductionDelay(k - 1);
      Pow2Values();
    }
  }
}
