/** The reconnect delay of the GUI worker: doubling backoff with a jitter of one fifth,
    clamped to 200..10000 ms. */
module Backoff {
  import opened Wrappers

  const FIRST_MS := 1000
  const CAP_MS := 10000
  const FLOOR_MS := 200

  function Pow2(k: nat): nat { if k == 0 then 1 else 2 * Pow2(k - 1) }

  /** Closed form of the k-th backoff since the last successful session. */
  function BackoffMs(k: nat): int { Min(FIRST_MS * Pow2(k), CAP_MS) }

  function Jitter(backoffMs: int): int { backoffMs / 5 }

  function Clamp(v: int, lo: int, hi: int): int { if v < lo then lo else if hi < v then hi else v }

  /** The delay chosen for backoff `backoffMs` when the generator draws `r`. */
  function Delay(backoffMs: int, r: int): int { Clamp(backoffMs + r, FLOOR_MS, CAP_MS) }

  predicate Draw(backoffMs: int, r: int) { -Jitter(backoffMs) <= r <= Jitter(backoffMs) }

  /** The band the k-th delay must lie in, written without division. */
  predicate InBand(k: nat, delay: int) {
    4 * BackoffMs(k) <= 5 * delay <= 6 * BackoffMs(k) && delay <= CAP_MS
  }

  /** `delays[k]` is the k-th wait since the last reset. */
  predicate Schedule(delays: seq<int>) {
    forall k :: 0 <= k < |delays| ==> InBand(k, delays[k])
  }

  function Sum(delays: seq<int>): int {
    if delays == [] then 0 else Sum(delays[..|delays| - 1]) + delays[|delays| - 1]
  }

  lemma BackoffRange(k: nat)
    ensures FIRST_MS <= BackoffMs(k) <= CAP_MS
    ensures BackoffMs(k) % 5 == 0
    ensures k >= 4 <==> BackoffMs(k) == CAP_MS
  {
    if k >= 4 {
      PowAtLeast16(k);
      assert FIRST_MS * Pow2(k) >= FIRST_MS * 16;
    } else {
      assert Pow2(0) == 1 && Pow2(1) == 2 && Pow2(2) == 4 && Pow2(3) == 8;
    }
  }

  lemma {:induction false} PowAtLeast16(k: nat)
    requires k >= 4
    ensures Pow2(k) >= 16
  {
    if k > 4 { PowAtLeast16(k - 1); }
  }

  /** The assignment at the end of the loop body advances the closed form by one. */
  lemma BackoffDoubles(k: nat)
    ensures Min(2 * BackoffMs(k), CAP_MS) == BackoffMs(k + 1)
  {
    BackoffRange(k);
  }

  /** Every draw lands in the band, and the 200 ms floor is never what decides it. */
  lemma DelayInBand(k: nat, r: int)
    requires Draw(BackoffMs(k), r)
    ensures InBand(k, Delay(BackoffMs(k), r))
    ensures Delay(BackoffMs(k), r) == Min(BackoffMs(k) + r, CAP_MS) > FLOOR_MS
  {
    BackoffRange(k);
  }

  /** Total of the first n backoffs: 1, 3, 7, 15 seconds, then ten more each. */
  function Total(n: nat): int {
    if n <= 4 then FIRST_MS * (Pow2(n) - 1) else 15 * FIRST_MS + (n - 4) * CAP_MS
  }

  lemma {:induction false} TotalIsSum(n: nat)
    ensures Total(n + 1) == Total(n) + BackoffMs(n)
  {
    BackoffRange(n);
    if n >= 4 { assert Pow2(4) == 16; }
  }

  lemma BackoffGrows(k: nat, m: nat)
    requires k <= m
    ensures BackoffMs(k) <= BackoffMs(m)
    decreases m - k
  {
    BackoffRange(k);
    if k < m {
      BackoffDoubles(k);
      BackoffGrows(k + 1, m);
    }
  }

  /** Any n consecutive waits last at least four fifths of the first n backoffs, because
      later waits are no shorter. */
  lemma {:induction false} SumAtLeastTotal(delays: seq<int>, i: nat, j: nat)
    requires Schedule(delays) && i <= j <= |delays|
    ensures 5 * Sum(delays[i..j]) >= 4 * Total(j - i)
  {
    if i < j {
      SumAtLeastTotal(delays, i, j - 1);
      assert delays[i..j][..j - i - 1] == delays[i..j - 1];
      TotalIsSum(j - 1 - i);
      BackoffGrows(j - 1 - i, j - 1);
      assert InBand(j - 1, delays[j - 1]);
    }
  }

  lemma TotalLine(n: nat)
    ensures Total(n) >= 10000 * n - 25000
  {
    assert Pow2(0) == 1 && Pow2(1) == 2 && Pow2(2) == 4 && Pow2(3) == 8 && Pow2(4) == 16;
    assert n <= 4 ==> n == 0 || n == 1 || n == 2 || n == 3 || n == 4;
  }

  /** Waiting out n delays in a row takes at least 8 n - 20 seconds wherever they stand in the
      schedule, so a window of `windowMs` holds at most (windowMs + 20000) / 8000 of them. */
  lemma AttemptsInWindow(delays: seq<int>, i: nat, j: nat, windowMs: int)
    requires Schedule(delays) && i <= j <= |delays|
    requires Sum(delays[i..j]) <= windowMs
    ensures 8000 * (j - i) <= windowMs + 20000
  {
    SumAtLeastTotal(delays, i, j);
    TotalLine(j - i);
  }

  /** Wherever the schedule stands, a wait is between 800 ms and ten seconds. */
  lemma WaitRange(k: nat, delay: int)
    requires InBand(k, delay)
    ensures 800 <= delay <= CAP_MS
  {
    BackoffRange(k);
  }

  /** The worker's reconnect loop while every attempt fails and no stop arrives: the
      variable `backoffMs` is doubled in place after each wait. */
  method FailingAttempts(draws: seq<int>) returns (delays: seq<int>, backoffMs: int)
    requires forall k :: 0 <= k < |draws| ==> Draw(BackoffMs(k), draws[k])
    ensures |delays| == |draws| && Schedule(delays)
    ensures forall k :: 0 <= k < |draws| ==> delays[k] == Min(BackoffMs(k) + draws[k], CAP_MS)
    ensures backoffMs == BackoffMs(|draws|)
    ensures 8000 * |draws| <= Sum(delays) + 20000
  {
    delays, backoffMs := [], FIRST_MS;
    BackoffRange(0);
    while |delays| < |draws|
      invariant |delays| <= |draws| && Schedule(delays)
      invariant backoffMs == BackoffMs(|delays|)
      invariant forall k :: 0 <= k < |delays| ==> delays[k] == Min(BackoffMs(k) + draws[k], CAP_MS)
    {
      DelayInBand(|delays|, draws[|delays|]);
      BackoffDoubles(|delays|);
      delays := delays + [Delay(backoffMs, draws[|delays|])];
      backoffMs := Min(backoffMs * 2, CAP_MS);
    }
    assert delays[0..|delays|] == delays;
    AttemptsInWindow(delays, 0, |delays|, Sum(delays));
  }
}
