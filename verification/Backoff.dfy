/** The waits between retries, in 64-bit nanoseconds. */
module Backoff {
  import opened Base

  const INT64_SPAN := 0x1_0000_0000_0000_0000
  const INT64_LIMIT := 0x8000_0000_0000_0000
  const HALF_LIMIT := 0x4000_0000_0000_0000

  const DEFAULT_MAX_ATTEMPTS := 5
  const MILLISECOND := 1000000
  const DEFAULT_BASE_BACKOFF := 100 * MILLISECOND

  function Pow2(n: nat): (p: nat)
    ensures p >= 1
  {
    if n == 0 then 1 else 2 * Pow2(n - 1)
  }

  /** Two's complement: what an int64 holds after arithmetic that may overflow. */
  function Wrap64(x: int): int {
    var m := x % INT64_SPAN;
    if m < INT64_LIMIT then m else m - INT64_SPAN
  }

  /** The delay before jitter, as mathematics has it. */
  function Ideal(base: int, attempt: nat): int
    requires attempt >= 1
  {
    base * Pow2(attempt - 1)
  }

  /** The delay before jitter, as the shift computes it. */
  function Shifted(base: int, attempt: nat): int
    requires attempt >= 1
  {
    Wrap64(Ideal(base, attempt))
  }

  /** The wait for one random draw below the delay. */
  function Jittered(d: int, draw: int): int { Wrap64(draw + d) }

  /** Some draw below the delay gives this wait. */
  ghost predicate Drawn(d: int, wait: int) {
    exists draw :: 0 <= draw < d && Jittered(d, draw) == wait
  }

  /** The waits that can be drawn are those in [d, 2d) for the ideal delay d, all of them. */
  ghost predicate WaitsAreExact(base: int, attempt: nat)
    requires attempt >= 1
  {
    && Shifted(base, attempt) > 0
    && (forall wait :: Drawn(Shifted(base, attempt), wait) <==>
          Ideal(base, attempt) <= wait < 2 * Ideal(base, attempt))
  }

  /** An int64 holds what fits, and less than what does not. */
  lemma WrapMeaning(x: int)
    requires x >= 0
    ensures x < INT64_LIMIT ==> Wrap64(x) == x
    ensures x >= INT64_LIMIT ==> Wrap64(x) < x
    ensures -INT64_LIMIT <= Wrap64(x) < INT64_LIMIT
    ensures INT64_LIMIT <= x < INT64_SPAN ==> Wrap64(x) < 0
    ensures exists turns :: x == Wrap64(x) + turns * INT64_SPAN
  {
    var m := x % INT64_SPAN;
    assert x == Wrap64(x) + (if m < INT64_LIMIT then x / INT64_SPAN else x / INT64_SPAN + 1) * INT64_SPAN;
  }

  /** The same for a delay of any origin. */
  lemma DrawsAreExactIff(ideal: int)
    requires ideal > 0
    ensures ideal <= HALF_LIMIT <==>
      Wrap64(ideal) > 0 && forall wait :: Drawn(Wrap64(ideal), wait) <==> ideal <= wait < 2 * ideal
  {
    var d := Wrap64(ideal);
    WrapMeaning(ideal);
    if ideal <= HALF_LIMIT {
      forall wait ensures Drawn(d, wait) <==> ideal <= wait < 2 * ideal { DrawsCover(d, wait); }
    } else if d > 0 {
      var draw := if ideal < INT64_LIMIT then d - 1 else 0;
      WrapMeaning(draw + d);
      assert Drawn(d, Jittered(d, draw)) && !(ideal <= Jittered(d, draw) < 2 * ideal);
    }
  }

  lemma DrawsCover(d: int, wait: int)
    requires 0 < d <= HALF_LIMIT
    ensures Drawn(d, wait) <==> d <= wait < 2 * d
  {
    forall draw | 0 <= draw < d ensures Jittered(d, draw) == draw + d { WrapMeaning(draw + d); }
    if d <= wait < 2 * d { assert Jittered(d, wait - d) == wait; }
  }

  /** The waits are right exactly as long as the ideal delay is at most 2^62: beyond that the
      doubled delay overflows, and the wait may come out negative, or the draw may panic. */
  lemma WaitsAreExactIff(base: int, attempt: nat)
    requires attempt >= 1 && base > 0
    ensures WaitsAreExact(base, attempt) <==> Ideal(base, attempt) <= HALF_LIMIT
  {
    Positive(base, Pow2(attempt - 1));
    DrawsAreExactIff(Ideal(base, attempt));
  }

  lemma Positive(a: int, b: int)
    requires a > 0 && b > 0
    ensures a * b > 0
  {
  }

  /** No retry within the budget can overflow. */
  predicate SafeBudget(base: int, maxAttempts: nat) {
    maxAttempts <= 1 || base * Pow2(maxAttempts - 2) <= HALF_LIMIT
  }

  lemma {:induction false} PowersGrow(m: nat, n: nat)
    requires m <= n
    ensures Pow2(m) <= Pow2(n)
    decreases n
  {
    if m < n { PowersGrow(m, n - 1); }
  }

  lemma ScaleKeepsOrder(base: int, a: int, b: int)
    requires base > 0 && a <= b
    ensures base * a <= base * b
  {
  }

  /** A budget is safe exactly when every wait it allows is exact. */
  lemma SafeBudgetIff(base: int, maxAttempts: nat)
    requires base > 0
    ensures SafeBudget(base, maxAttempts) <==>
      forall n | 1 <= n < maxAttempts :: WaitsAreExact(base, n)
  {
    forall n | 1 <= n < maxAttempts
      ensures WaitsAreExact(base, n) <==> Ideal(base, n) <= HALF_LIMIT
      ensures SafeBudget(base, maxAttempts) ==> Ideal(base, n) <= HALF_LIMIT
    {
      WaitsAreExactIff(base, n);
      PowersGrow(n - 1, maxAttempts - 2);
      ScaleKeepsOrder(base, Pow2(n - 1), Pow2(maxAttempts - 2));
    }
    if maxAttempts > 1 { assert Ideal(base, maxAttempts - 1) == base * Pow2(maxAttempts - 2); }
  }

  // ---- the whole budget ----

  function Total(waits: seq<int>): int {
    if waits == [] then 0 else Total(waits[..|waits| - 1]) + waits[|waits| - 1]
  }

  /** Each wait is the one its attempt calls for. */
  ghost predicate Exponential(base: int, waits: seq<int>) {
    forall i | 0 <= i < |waits| :: Ideal(base, i + 1) <= waits[i] < 2 * Ideal(base, i + 1)
  }

  /** Under a safe budget the wait before attempt n+1 is the one it calls for. */
  ghost predicate WaitFits(base: int, maxAttempts: nat, n: nat, wait: int) {
    n >= 1 && SafeBudget(base, maxAttempts) ==> Ideal(base, n) <= wait < 2 * Ideal(base, n)
  }

  /** Under a safe budget all of them are. */
  ghost predicate Paced(base: int, maxAttempts: nat, waits: seq<int>) {
    SafeBudget(base, maxAttempts) ==> Exponential(base, waits)
  }

  lemma OneMoreWait(base: int, maxAttempts: nat, waits: seq<int>, wait: int)
    requires Paced(base, maxAttempts, waits) && WaitFits(base, maxAttempts, |waits| + 1, wait)
    ensures Paced(base, maxAttempts, waits + [wait])
  {
  }

  /** k waits in a row take between base*(2^k - 1) and twice that. */
  ghost predicate WithinBudget(base: int, waits: seq<int>) {
    var k := |waits|;
    base * (Pow2(k) - 1) <= Total(waits) && Total(waits) + k <= 2 * (base * (Pow2(k) - 1))
  }

  lemma {:induction false} TotalIsBounded(base: int, waits: seq<int>)
    requires Exponential(base, waits)
    ensures WithinBudget(base, waits)
  {
    var k := |waits|;
    if k > 0 {
      var rest := waits[..k - 1];
      assert forall i | 0 <= i < k - 1 :: rest[i] == waits[i];
      TotalIsBounded(base, rest);
      var p := Pow2(k - 1);
      assert Pow2(k) == 2 * p && Ideal(base, k) == base * p;
      assert base * (2 * p - 1) == base * (p - 1) + base * p;
      assert Total(waits) == Total(rest) + waits[k - 1];
    }
  }

  /** With the defaults a record waits less than three seconds in all. */
  lemma DefaultBudgetUnderThreeSeconds(waits: seq<int>)
    requires Exponential(100000000, waits) && |waits| < 5
    ensures SafeBudget(100000000, 5)
    ensures Total(waits) < 3000000000
  {
    TotalIsBounded(100000000, waits);
    PowersGrow(|waits|, 4);
    assert Pow2(0) == 1 && Pow2(1) == 2 && Pow2(2) == 4 && Pow2(3) == 8 && Pow2(4) == 16;
  }
}
