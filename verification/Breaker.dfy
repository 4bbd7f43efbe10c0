/** The circuit breaker (crates/wormverify-resilience/src/breaker.rs): a state of constant size
    that says as much as the whole history of calls. */
module Breaker {
  import opened Prelude

  /** Times and durations in nanoseconds. */
  datatype BreakerConfig = BreakerConfig(failureThreshold: U32, openDuration: nat)

  datatype RawState = Closed | Open(openedAt: nat) | HalfOpen

  datatype Inner = Inner(failures: U32, state: RawState)

  datatype Op = Acquire(at: nat) | RecordSuccess(at: nat) | RecordFailure(at: nat)

  /** Elapsed time; zero when `later` is not later. */
  function Since(later: nat, earlier: nat): nat {
    if later >= earlier then later - earlier else 0
  }

  function SaturatingIncrement(n: U32): U32 {
    if n + 1 < U32_LIMIT then n + 1 else n
  }

  /** False exactly when the breaker rejects the call. */
  predicate Admits(cfg: BreakerConfig, s: Inner, now: nat) {
    s.state.Open? ==> Since(now, s.state.openedAt) >= cfg.openDuration
  }

  function Perform(cfg: BreakerConfig, s: Inner, op: Op): Inner {
    match op
    case Acquire(now) =>
      if s.state.Open? && Admits(cfg, s, now) then s.(state := HalfOpen) else s
    case RecordSuccess(_) => Inner(0, Closed)
    case RecordFailure(now) =>
      match s.state
      case HalfOpen => s.(state := Open(now))
      case Closed =>
        var failures := SaturatingIncrement(s.failures);
        Inner(failures, if failures >= cfg.failureThreshold then Open(now) else Closed)
      case Open(_) => s
  }

  class CircuitBreaker {
    const config: BreakerConfig
    var failures: U32
    var state: RawState

    ghost function State(): Inner
      reads this
    {
      Inner(failures, state)
    }

    constructor (config: BreakerConfig)
      ensures this.config == config && State() == Inner(0, Closed)
    {
      this.config := config;
      failures, state := 0, Closed;
    }

    method AcquireCall(now: nat) returns (admitted: bool)
      modifies this
      ensures admitted == Admits(config, old(State()), now)
      ensures State() == Perform(config, old(State()), Acquire(now))
    {
      match state {
        case Closed => return true;
        case HalfOpen => return true;
        case Open(openedAt) =>
          if Since(now, openedAt) >= config.openDuration {
            state := HalfOpen;
            return true;
          }
          return false;
      }
    }

    method Succeeded(now: nat)
      modifies this
      ensures State() == Perform(config, old(State()), RecordSuccess(now))
    {
      failures := 0;
      state := Closed;
    }

    method Failed(now: nat)
      modifies this
      ensures State() == Perform(config, old(State()), RecordFailure(now))
    {
      match state {
        case HalfOpen => state := Open(now);
        case Closed =>
          failures := SaturatingIncrement(failures);
          if failures >= config.failureThreshold {
            state := Open(now);
          }
        case Open(_) =>
      }
    }
  }

  function RunBreaker(cfg: BreakerConfig, log: seq<Op>): Inner {
    if log == [] then Inner(0, Closed)
    else Perform(cfg, RunBreaker(cfg, log[..|log| - 1]), log[|log| - 1])
  }

  // ----- half open

  /** A threshold of 0 trips at the first failure, like a threshold of 1. */
  ghost function Limit(cfg: BreakerConfig): nat {
    if cfg.failureThreshold == 0 then 1 else cfg.failureThreshold
  }

  ghost function Failures(n: nat, at: nat): seq<Op> {
    seq(n, i => RecordFailure(at))
  }

  ghost function Acquires(n: nat, at: nat): seq<Op> {
    seq(n, i => Acquire(at))
  }

  lemma {:induction false} FailuresTrip(cfg: BreakerConfig, n: nat, at: nat)
    requires n <= Limit(cfg)
    ensures RunBreaker(cfg, Failures(n, at)) == Inner(n, if n < Limit(cfg) then Closed else Open(at))
  {
    if n > 0 {
      FailuresTrip(cfg, n - 1, at);
      assert Failures(n, at)[..n - 1] == Failures(n - 1, at);
    }
  }

  /** Every configuration can be driven to a state from which any number of trial calls is
      admitted, all at one instant and with no outcome recorded in between: trip the breaker,
      wait for the open duration, and call. The breaker stays half open throughout. */
  lemma {:induction false} HalfOpenAdmitsEveryCall(cfg: BreakerConfig, calls: nat)
    ensures var at := cfg.openDuration;
            var s := RunBreaker(cfg, Failures(Limit(cfg), 0) + Acquires(calls, at));
            && Admits(cfg, s, at)
            && s.state == if calls == 0 then Open(0) else HalfOpen
  {
    var at, tripping := cfg.openDuration, Failures(Limit(cfg), 0);
    if calls == 0 {
      FailuresTrip(cfg, Limit(cfg), 0);
      assert tripping + Acquires(0, at) == tripping;
    } else {
      HalfOpenAdmitsEveryCall(cfg, calls - 1);
      var log := tripping + Acquires(calls, at);
      assert log[..|log| - 1] == tripping + Acquires(calls - 1, at);
    }
  }

  /** Once half open, only a recorded outcome ends it: any further calls, whenever they come, are
      admitted and leave the state as it is. */
  lemma {:induction false} HalfOpenUntilOutcome(cfg: BreakerConfig, log: seq<Op>, more: seq<Op>, now: nat)
    requires RunBreaker(cfg, log).state.HalfOpen?
    requires forall k :: 0 <= k < |more| ==> more[k].Acquire?
    ensures RunBreaker(cfg, log + more) == RunBreaker(cfg, log)
    ensures Admits(cfg, RunBreaker(cfg, log + more), now)
  {
    if more == [] {
      assert log + more == log;
    } else {
      HalfOpenUntilOutcome(cfg, log, more[..|more| - 1], now);
      var all := log + more;
      assert all[..|all| - 1] == log + more[..|more| - 1];
    }
  }

  // ----- the history

  /** The calls since the last recorded success. */
  ghost function SinceSuccess(log: seq<Op>): seq<Op> {
    if log == [] || log[|log| - 1].RecordSuccess? then []
    else SinceSuccess(log[..|log| - 1]) + [log[|log| - 1]]
  }

  ghost function FailureCount(h: seq<Op>): nat {
    if h == [] then 0
    else FailureCount(h[..|h| - 1]) + (if h[|h| - 1].RecordFailure? then 1 else 0)
  }

  /** A call came after call `trip` and at least the open duration later. */
  ghost predicate Probed(cfg: BreakerConfig, h: seq<Op>, trip: int)
    requires 0 <= trip < |h|
  {
    exists a :: trip < a < |h| && h[a].Acquire? && Since(h[a].at, h[trip].at) >= cfg.openDuration
  }

  /** The position of the latest trip, -1 when there is none. A failure trips the breaker when it
      is the one that reaches the limit, or when it follows a probe of the trip before it. */
  ghost function LatestTrip(cfg: BreakerConfig, h: seq<Op>): (t: int)
    ensures -1 <= t < |h|
  {
    if h == [] then -1
    else
      var before := h[..|h| - 1];
      var t := LatestTrip(cfg, before);
      if h[|h| - 1].RecordFailure? && (if t < 0 then FailureCount(h) == Limit(cfg) else Probed(cfg, before, t))
      then |before| else t
  }

  /** The state told by the history since the last success. */
  ghost function HistoryState(cfg: BreakerConfig, h: seq<Op>): Inner {
    var t := LatestTrip(cfg, h);
    if FailureCount(h) < Limit(cfg) then Inner(FailureCount(h), Closed)
    else Inner(Limit(cfg), if t >= 0 && !Probed(cfg, h, t) then Open(h[t].at) else HalfOpen)
  }

  lemma {:induction false} TrippedIffLimit(cfg: BreakerConfig, h: seq<Op>)
    ensures LatestTrip(cfg, h) >= 0 <==> FailureCount(h) >= Limit(cfg)
  {
    if h != [] {
      TrippedIffLimit(cfg, h[..|h| - 1]);
    }
  }

  lemma ProbedStep(cfg: BreakerConfig, h: seq<Op>, trip: int)
    requires 0 <= trip < |h| - 1
    ensures var e := h[|h| - 1];
            Probed(cfg, h, trip) <==> Probed(cfg, h[..|h| - 1], trip)
                                      || (e.Acquire? && Since(e.at, h[trip].at) >= cfg.openDuration)
  {
    var before := h[..|h| - 1];
    if Probed(cfg, before, trip) {
      var a :| trip < a < |before| && before[a].Acquire? && Since(before[a].at, before[trip].at) >= cfg.openDuration;
      assert h[a].Acquire? && Since(h[a].at, h[trip].at) >= cfg.openDuration;
    }
    if Probed(cfg, h, trip) {
      var a :| trip < a < |h| && h[a].Acquire? && Since(h[a].at, h[trip].at) >= cfg.openDuration;
      assert a < |before| ==> before[a].Acquire? && Since(before[a].at, before[trip].at) >= cfg.openDuration;
    }
  }

  lemma HistoryStep(cfg: BreakerConfig, h: seq<Op>)
    requires h != [] && !h[|h| - 1].RecordSuccess?
    ensures HistoryState(cfg, h) == Perform(cfg, HistoryState(cfg, h[..|h| - 1]), h[|h| - 1])
  {
    var before := h[..|h| - 1];
    TrippedIffLimit(cfg, before);
    TrippedIffLimit(cfg, h);
    var t := LatestTrip(cfg, before);
    if t >= 0 {
      ProbedStep(cfg, h, t);
    }
  }

  /** The constant-size state equals the one computed from the history since the last success. */
  lemma {:induction false} RefinesHistory(cfg: BreakerConfig, log: seq<Op>)
    ensures RunBreaker(cfg, log) == HistoryState(cfg, SinceSuccess(log))
  {
    if log != [] {
      RefinesHistory(cfg, log[..|log| - 1]);
      if !log[|log| - 1].RecordSuccess? {
        var h := SinceSuccess(log);
        assert h[..|h| - 1] == SinceSuccess(log[..|log| - 1]);
        HistoryStep(cfg, h);
      }
    }
  }

  /** The failure counter is the number of failures since the last success, capped at the limit:
      the saturating addition never saturates. */
  lemma CounterNeverSaturates(cfg: BreakerConfig, log: seq<Op>)
    ensures var n := FailureCount(SinceSuccess(log));
            RunBreaker(cfg, log).failures == if n < Limit(cfg) then n else Limit(cfg)
    ensures RunBreaker(cfg, log).state.Closed?
            ==> SaturatingIncrement(RunBreaker(cfg, log).failures) == RunBreaker(cfg, log).failures + 1
  {
    RefinesHistory(cfg, log);
  }

  ghost predicate Timed(log: seq<Op>) {
    forall j, k :: 0 <= j < k < |log| ==> log[j].at <= log[k].at
  }

  lemma {:induction false} SuffixOfLog(log: seq<Op>)
    ensures var h := SinceSuccess(log);
            |h| <= |log| && forall k :: 0 <= k < |h| ==> h[k] == log[|log| - |h| + k]
  {
    if log != [] {
      SuffixOfLog(log[..|log| - 1]);
    }
  }

  /** With a clock that never goes back, a call is rejected exactly when the latest trip since the
      last success is younger than the open duration. */
  lemma RejectedIffRecentTrip(cfg: BreakerConfig, log: seq<Op>, now: nat)
    requires Timed(log + [Acquire(now)])
    ensures var h := SinceSuccess(log);
            var t := LatestTrip(cfg, h);
            !Admits(cfg, RunBreaker(cfg, log), now) <==> t >= 0 && now - h[t].at < cfg.openDuration
  {
    RefinesHistory(cfg, log);
    SuffixOfLog(log);
    var h := SinceSuccess(log);
    var t := LatestTrip(cfg, h);
    TrippedIffLimit(cfg, h);
    forall k | 0 <= k < |h|
      ensures h[k].at <= now
    {
      var all := log + [Acquire(now)];
      assert all[|log| - |h| + k].at <= all[|log|].at;
    }
    if t >= 0 && Probed(cfg, h, t) {
      var a :| t < a < |h| && h[a].Acquire? && Since(h[a].at, h[t].at) >= cfg.openDuration;
      assert now - h[t].at >= cfg.openDuration by {
        var all := log + [Acquire(now)];
        assert all[|log| - |h| + t].at <= all[|log| - |h| + a].at;
      }
    }
  }

  /** Whatever the clock does, a call is rejected exactly when it comes before the end of the open
      duration that the latest trip started, and so did every call since that trip. A clock that
      has gone back counts as no time elapsed. */
  lemma RejectedUnderAnyClock(cfg: BreakerConfig, log: seq<Op>, now: nat)
    ensures var h := SinceSuccess(log);
            var t := LatestTrip(cfg, h);
            !Admits(cfg, RunBreaker(cfg, log), now)
            <==> t >= 0 && cfg.openDuration > 0
                 && now < h[t].at + cfg.openDuration
                 && forall a :: t < a < |h| && h[a].Acquire? ==> h[a].at < h[t].at + cfg.openDuration
  {
    RefinesHistory(cfg, log);
    var h := SinceSuccess(log);
    TrippedIffLimit(cfg, h);
  }
}
