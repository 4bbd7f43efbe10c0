/** Retry with capped exponential backoff (crates/wormverify-resilience/src/retry.rs): machine
    arithmetic against unbounded powers, and the retry loop. */
module Retry {
  import opened Prelude

  const U128_LIMIT: int := U64_LIMIT * U64_LIMIT
  const NANOS_PER_SECOND: int := 1_000_000_000
  const NANOS_PER_MILLI: int := 1_000_000

  /** A duration in nanoseconds; its whole seconds fit 64 bits. */
  type Duration = d: int | 0 <= d < U64_LIMIT * NANOS_PER_SECOND

  datatype RetryPolicy = RetryPolicy(maxAttempts: U32, initialBackoff: Duration, multiplier: U32, maxBackoff: Duration)

  function AsMillis(d: Duration): nat {
    d / NANOS_PER_MILLI
  }

  function Min(a: nat, b: nat): nat {
    if a <= b then a else b
  }

  function Pow(m: nat, k: nat): nat {
    if k == 0 then 1 else m * Pow(m, k - 1)
  }

  function SaturatingPow(m: U32, k: U32): U32 {
    if Pow(m, k) < U32_LIMIT then Pow(m, k) else U32_LIMIT - 1
  }

  function SaturatingMul128(a: nat, b: nat): nat {
    Min(a * b, U128_LIMIT - 1)
  }

  /** The delay after the given zero-based attempt, in milliseconds; the last step truncates to
      64 bits. */
  function BackoffFor(p: RetryPolicy, attempt: U32): nat {
    var factor := SaturatingPow(p.multiplier, attempt);
    var millis := SaturatingMul128(AsMillis(p.initialBackoff), factor);
    var capped := Min(millis, AsMillis(p.maxBackoff));
    capped % U64_LIMIT
  }

  /** min(initial * multiplier^attempt, max) over unbounded integers. */
  ghost function IdealBackoff(p: RetryPolicy, attempt: nat): nat {
    Min(AsMillis(p.initialBackoff) * Pow(p.multiplier, attempt), AsMillis(p.maxBackoff))
  }

  lemma MulMonotone(a: nat, b: nat, c: nat)
    requires b <= c
    ensures a * b <= a * c && b * a <= c * a
  {}

  /** The 128-bit product never saturates. */
  lemma ProductFits(p: RetryPolicy, k: U32)
    ensures BackoffFor(p, k)
         == Min(AsMillis(p.initialBackoff) * SaturatingPow(p.multiplier, k), AsMillis(p.maxBackoff)) % U64_LIMIT
  {
    var a, factor := AsMillis(p.initialBackoff), SaturatingPow(p.multiplier, k);
    MulMonotone(factor, a, U64_LIMIT * 1000);
    MulMonotone(U64_LIMIT * 1000, factor, U32_LIMIT);
  }

  /** Every delay of every policy, distorted or not: the factor stops at the largest 32-bit number
      and the capped product loses what does not fit 64 bits. */
  lemma BackoffClosedForm(p: RetryPolicy, k: U32)
    ensures BackoffFor(p, k)
         == Min(AsMillis(p.initialBackoff) * Min(Pow(p.multiplier, k), 0xFFFF_FFFF), AsMillis(p.maxBackoff))
            % 0x1_0000_0000_0000_0000
  {
    ProductFits(p, k);
  }

  lemma {:induction false} PowGrows(m: nat, j: nat, k: nat)
    requires m >= 1 && j <= k
    ensures 1 <= Pow(m, j) <= Pow(m, k)
    decreases k
  {
    if j < k {
      PowGrows(m, j, k - 1);
      MulMonotone(Pow(m, k - 1), 1, m);
    } else if k > 0 {
      PowGrows(m, k - 1, k - 1);
      MulMonotone(Pow(m, k - 1), 1, m);
    }
  }

  lemma {:induction false} PowAtLeastTwo(m: nat, k: nat)
    requires m >= 2
    ensures Pow(m, k) >= Pow(2, k)
  {
    if k > 0 {
      PowAtLeastTwo(m, k - 1);
      MulMonotone(Pow(m, k - 1), 2, m);
    }
  }

  lemma PowTwo32()
    ensures Pow(2, 32) == U32_LIMIT
  {
    assert Pow(2, 8) == 256;
    assert Pow(2, 16) == 256 * Pow(2, 8);
    assert Pow(2, 24) == 256 * Pow(2, 16);
    assert Pow(2, 32) == 256 * Pow(2, 24);
  }

  lemma {:induction false} PowSmallBase(m: nat, k: nat)
    requires m <= 1
    ensures Pow(m, k) <= 1
  {
    if k > 0 {
      PowSmallBase(m, k - 1);
    }
  }

  /** The policies for which no delay is distorted by the 32-bit factor or the 64-bit cast. */
  predicate Undistorted(p: RetryPolicy) {
    var initial, max := AsMillis(p.initialBackoff), AsMillis(p.maxBackoff);
    && Min(initial, max) < U64_LIMIT
    && (initial == 0 || p.multiplier <= 1 || (max <= initial * (U32_LIMIT - 1) && max < U64_LIMIT))
  }

  /** A saturated factor does not matter when the cap is below its product. */
  lemma CapHidesSaturation(initial: nat, factor: nat, power: nat, max: nat)
    requires factor <= power && max <= initial * factor
    ensures Min(initial * factor, max) == Min(initial * power, max)
  {
    MulMonotone(initial, factor, power);
  }

  lemma SmallBaseBounded(initial: nat, m: nat, k: nat)
    requires m <= 1
    ensures initial * Pow(m, k) <= initial
  {
    PowSmallBase(m, k);
    MulMonotone(initial, Pow(m, k), 1);
  }

  lemma {:induction false} UndistortedExact(p: RetryPolicy, k: U32)
    requires Undistorted(p)
    ensures BackoffFor(p, k) == IdealBackoff(p, k)
  {
    var initial, max := AsMillis(p.initialBackoff), AsMillis(p.maxBackoff);
    var power, factor := Pow(p.multiplier, k), SaturatingPow(p.multiplier, k);
    ProductFits(p, k);
    if p.multiplier <= 1 {
      SmallBaseBounded(initial, p.multiplier, k);
      PowSmallBase(p.multiplier, k);
    } else if factor != power && initial > 0 {
      CapHidesSaturation(initial, factor, power, max);
    }
  }

  lemma {:induction false} DistortedSomewhere(p: RetryPolicy) returns (k: U32)
    requires !Undistorted(p)
    ensures BackoffFor(p, k) != IdealBackoff(p, k)
  {
    var initial, max := AsMillis(p.initialBackoff), AsMillis(p.maxBackoff);
    if Min(initial, max) >= U64_LIMIT {
      k := 0;
      ProductFits(p, 0);
    } else {
      k := 32;
      PowAtLeastTwo(p.multiplier, 32);
      PowTwo32();
      ProductFits(p, 32);
      MulMonotone(initial, U32_LIMIT, Pow(p.multiplier, 32));
    }
  }

  /** The saturating computation agrees with unbounded integers at every attempt exactly for the
      undistorted policies. */
  lemma BackoffExactIff(p: RetryPolicy)
    ensures (forall k: U32 :: BackoffFor(p, k) == IdealBackoff(p, k)) <==> Undistorted(p)
  {
    if Undistorted(p) {
      forall k: U32 ensures BackoffFor(p, k) == IdealBackoff(p, k) {
        UndistortedExact(p, k);
      }
    } else {
      var k := DistortedSomewhere(p);
    }
  }

  /** Delays never shrink from one attempt to a later one. */
  lemma {:induction false} BackoffMonotone(p: RetryPolicy, j: U32, k: U32)
    requires Undistorted(p) && p.multiplier >= 1 && j <= k
    ensures BackoffFor(p, j) <= BackoffFor(p, k)
  {
    UndistortedExact(p, j);
    UndistortedExact(p, k);
    PowGrows(p.multiplier, j, k);
    MulMonotone(AsMillis(p.initialBackoff), Pow(p.multiplier, j), Pow(p.multiplier, k));
  }

  /** Attempts actually made at most: a limit of 0 counts as 1. */
  function Attempts(p: RetryPolicy): (n: U32)
    ensures n >= 1
  {
    if p.maxAttempts >= 1 then p.maxAttempts else 1
  }

  function Total(delays: seq<nat>): nat {
    if delays == [] then 0 else Total(delays[..|delays| - 1]) + delays[|delays| - 1]
  }

  /** The delays after the attempts 0 .. |delays| - 1 of the policy, in order. */
  ghost predicate FollowsPolicy(p: RetryPolicy, delays: seq<nat>) {
    |delays| < U32_LIMIT && forall k :: 0 <= k < |delays| ==> delays[k] == BackoffFor(p, k)
  }

  lemma MulStep(n: nat, a: nat)
    ensures (n + 1) * a == n * a + a
  {}

  lemma BackoffCapped(p: RetryPolicy, k: U32)
    ensures BackoffFor(p, k) <= AsMillis(p.maxBackoff)
  {
    ProductFits(p, k);
  }

  lemma {:induction false} TotalBounded(p: RetryPolicy, delays: seq<nat>)
    requires FollowsPolicy(p, delays)
    ensures Total(delays) <= |delays| * AsMillis(p.maxBackoff)
  {
    if delays != [] {
      var n := |delays| - 1;
      TotalBounded(p, delays[..n]);
      BackoffCapped(p, n);
      MulStep(n, AsMillis(p.maxBackoff));
    }
  }

  /** The delay after attempt k before the cap applies. */
  ghost function Uncapped(p: RetryPolicy, k: nat): nat {
    AsMillis(p.initialBackoff) * Pow(p.multiplier, k)
  }

  lemma BelowCapExact(p: RetryPolicy, k: U32)
    requires Undistorted(p) && Uncapped(p, k) <= AsMillis(p.maxBackoff)
    ensures BackoffFor(p, k) == Uncapped(p, k)
  {
    UndistortedExact(p, k);
  }

  /** Below the cap the delays form a geometric series. */
  lemma {:induction false} TotalGeometric(p: RetryPolicy, delays: seq<nat>)
    requires Undistorted(p) && FollowsPolicy(p, delays)
    requires forall k :: 0 <= k < |delays| ==> Uncapped(p, k) <= AsMillis(p.maxBackoff)
    ensures Total(delays) * (p.multiplier - 1) == AsMillis(p.initialBackoff) * (Pow(p.multiplier, |delays|) - 1)
  {
    if delays == [] {
      assert Total(delays) == 0 && Pow(p.multiplier, 0) == 1;
    } else {
      var n := |delays| - 1;
      TotalGeometric(p, delays[..n]);
      BelowCapExact(p, n);
      GeometricStep(Total(delays[..n]), AsMillis(p.initialBackoff), p.multiplier, Pow(p.multiplier, n));
      assert Total(delays) == Total(delays[..n]) + Uncapped(p, n);
    }
  }

  lemma GeometricStep(total: nat, a: nat, m: nat, power: nat)
    requires total * (m - 1) == a * (power - 1)
    ensures (total + a * power) * (m - 1) == a * (m * power - 1)
  {
    assert (total + a * power) * (m - 1) == total * (m - 1) + a * power * (m - 1);
    assert a * power * (m - 1) == a * (m * power) - a * power;
    assert a * (power - 1) == a * power - a;
    assert a * (m * power - 1) == a * (m * power) - a;
  }

  /** `outcomes(k)` is what the operation returns when called for the k-th time. The result is
      that of the first success, or of the last attempt. Between two attempts, and nowhere else,
      the loop sleeps, after attempt k for `BackoffFor(policy, k)`. */
  method RetryLoop<T, E>(policy: RetryPolicy, outcomes: nat -> Result<T, E>)
    returns (r: Result<T, E>, calls: nat, sleeps: seq<nat>)
    ensures 1 <= calls <= Attempts(policy)
    ensures forall k :: 0 <= k < calls - 1 ==> outcomes(k).Err?
    ensures r == outcomes(calls - 1)
    ensures r.Err? ==> calls == Attempts(policy)
    ensures |sleeps| == calls - 1
    ensures forall k :: 0 <= k < |sleeps| ==> sleeps[k] == BackoffFor(policy, k)
    ensures Total(sleeps) <= (Attempts(policy) - 1) * AsMillis(policy.maxBackoff)
  {
    var attempts := Attempts(policy);
    var lastErr: Option<E> := None;
    calls, sleeps := 0, [];
    for attempt := 0 to attempts
      invariant calls == attempt
      invariant forall k :: 0 <= k < attempt ==> outcomes(k).Err?
      invariant attempt > 0 ==> lastErr.Some? && outcomes(attempt - 1) == Err(lastErr.value)
      invariant |sleeps| == if attempt < attempts then attempt else attempts - 1
      invariant FollowsPolicy(policy, sleeps)
    {
      var outcome := outcomes(attempt);
      calls := calls + 1;
      if outcome.Ok? {
        SleptBounded(policy, sleeps);
        return outcome, calls, sleeps;
      }
      lastErr := Some(outcome.error);
      if attempt + 1 < attempts {
        sleeps := sleeps + [BackoffFor(policy, attempt)];
      }
    }
    SleptBounded(policy, sleeps);
    r := Err(lastErr.value);
  }

  lemma {:induction false} SleptBounded(p: RetryPolicy, sleeps: seq<nat>)
    requires FollowsPolicy(p, sleeps) && |sleeps| < Attempts(p)
    ensures Total(sleeps) <= (Attempts(p) - 1) * AsMillis(p.maxBackoff)
  {
    TotalBounded(p, sleeps);
    MulMonotone(AsMillis(p.maxBackoff), |sleeps|, Attempts(p) - 1);
  }
}
