// Retry delays, shared by the message worker and the webhook dispatcher.
//
// Durations are integers of nanoseconds, as in the source. The source computes in
// float64, where a power of two times one minute is exact, and converts to int64.
module Backoff {
  const MINUTE := 60_000_000_000
  const HOUR := 60 * MINUTE
  const MAX_DELAY := 6 * HOUR
  const INT64_MAX := 0x7FFF_FFFF_FFFF_FFFF

  function Pow2(n: nat): (p: nat)
    ensures p >= 1
  {
    if n == 0 then 1 else 2 * Pow2(n - 1)
  }

  function Min(a: int, b: int): int {
    if a <= b then a else b
  }

  lemma {:induction false} Pow2Monotone(m: nat, n: nat)
    requires m <= n
    ensures Pow2(m) <= Pow2(n)
    decreases n
  {
    if m < n {
      Pow2Monotone(m, n - 1);
    }
  }

  // The delay before retry number `attempt`, with the shift capped at 20 as in the source.
  function Delay(attempt: int): int {
    var n := if attempt < 1 then 1 else attempt;
    var delay := MINUTE * Pow2(Min(n - 1, 20));
    if delay > MAX_DELAY || delay <= 0 then MAX_DELAY else delay
  }

  // The capped shift computes the uncapped law, for every integer attempt, and the
  // product formed on the way fits an int64.
  lemma DelayLaw(attempt: int)
    ensures var n := if attempt < 1 then 1 else attempt;
            && Delay(attempt) == Min(MINUTE * Pow2(n - 1), MAX_DELAY)
            && MINUTE * Pow2(Min(n - 1, 20)) <= INT64_MAX
            && MINUTE <= Delay(attempt) <= MAX_DELAY
  {
    var n := if attempt < 1 then 1 else attempt;
    assert Pow2(10) == 1024;
    assert Pow2(20) == 1024 * Pow2(10);
    Pow2Monotone(Min(n - 1, 20), 20);
    if n - 1 > 20 {
      Pow2Monotone(20, n - 1);
    }
  }

  lemma DelayMonotone(a: int, b: int)
    requires a <= b
    ensures Delay(a) <= Delay(b)
  {
    DelayLaw(a);
    DelayLaw(b);
    var m := if a < 1 then 1 else a;
    var n := if b < 1 then 1 else b;
    Pow2Monotone(m - 1, n - 1);
  }

  // What the first k delays add up to while none of them is capped: 2^k - 1 minutes.
  function TotalDelay(k: nat): nat {
    if k == 0 then 0 else DelayLaw(k); TotalDelay(k - 1) + Delay(k)
  }

  lemma {:induction false} TotalDelayClosedForm(k: nat)
    requires k <= 9
    ensures TotalDelay(k) == (Pow2(k) - 1) * MINUTE
  {
    if k > 0 {
      TotalDelayClosedForm(k - 1);
      DelayLaw(k);
      Pow2Monotone(k - 1, 8);
      assert Pow2(8) == 256;
    }
  }
}
