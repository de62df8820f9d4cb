/**
 * The circuit breaker of client/client.py: a consecutive-failure counter, the
 * time of the last failure and an open flag. The clock reading `time.time()`
 * is the parameter `now`.
 */
module Breaker {
  import opened Wrappers

  datatype BreakerConfig = BreakerConfig(failureThreshold: int, resetTimeout: real)

  /** `CircuitBreaker()` as the client builds it. */
  const DefaultBreaker := BreakerConfig(5, 60.0)

  datatype BreakerState = BreakerState(failures: nat, lastFailureTime: Option<real>, isOpen: bool)

  /** A freshly built breaker: closed, no failures, no failure time. */
  const Fresh := BreakerState(0, None, false)

  /** The breaker's invariant: it is open only after a failure that reached the threshold. */
  predicate Inv(c: BreakerConfig, s: BreakerState)
  {
    s.isOpen ==> s.lastFailureTime.Some? && s.failures >= c.failureThreshold
  }

  /** `record_failure`: count the failure, stamp it, open once the threshold is reached; never closes. */
  function AfterFailure(c: BreakerConfig, s: BreakerState, now: real): (r: BreakerState)
    ensures r.failures == s.failures + 1 && r.lastFailureTime == Some(now)
    ensures Inv(c, s) ==> (r.isOpen <==> r.failures >= c.failureThreshold)
    ensures s.isOpen ==> r.isOpen
    ensures Inv(c, s) ==> Inv(c, r)
  {
    var failures := s.failures + 1;
    BreakerState(failures, Some(now), if failures >= c.failureThreshold then true else s.isOpen)
  }

  /** `record_success`: forget every failure and close. */
  function AfterSuccess(s: BreakerState): (r: BreakerState)
    ensures r.failures == 0 && !r.isOpen && r.lastFailureTime == s.lastFailureTime
  {
    BreakerState(0, s.lastFailureTime, false)
  }

  /** The answer of `can_execute` and the state it leaves behind. */
  datatype Gate = Gate(permitted: bool, state: BreakerState)

  /**
   * `can_execute`: a closed breaker permits; an open one permits only once the
   * reset timeout has passed since the last failure, and then closes itself
   * before the trial call is made.
   */
  function Check(c: BreakerConfig, s: BreakerState, now: real): (g: Gate)
    requires Inv(c, s)
    ensures g.permitted <==> !s.isOpen || now - s.lastFailureTime.value >= c.resetTimeout
    ensures !s.isOpen || !g.permitted ==> g.state == s
    ensures s.isOpen && g.permitted ==> g.state == BreakerState(0, s.lastFailureTime, false)
    ensures g.permitted ==> !g.state.isOpen
    ensures Inv(c, g.state)
  {
    if !s.isOpen then Gate(true, s)
    else if now - s.lastFailureTime.value >= c.resetTimeout then
      Gate(true, BreakerState(0, s.lastFailureTime, false))
    else Gate(false, s)
  }

  /** `k` failures in a row, all recorded at time `now`. */
  function FailuresAt(c: BreakerConfig, s: BreakerState, now: real, k: nat): (r: BreakerState)
    ensures r.failures == s.failures + k
    ensures k > 0 ==> r.lastFailureTime == Some(now)
    ensures Inv(c, s) ==> Inv(c, r)
  {
    if k == 0 then s else AfterFailure(c, FailuresAt(c, s, now, k - 1), now)
  }

  /**
   * After `failureThreshold` consecutive failures at time t (and at least one),
   * the breaker refuses at t whenever the reset timeout is positive.
   */
  lemma ThresholdFailuresOpen(c: BreakerConfig, s: BreakerState, now: real, k: nat)
    requires Inv(c, s) && k >= 1 && k >= c.failureThreshold && c.resetTimeout > 0.0
    ensures FailuresAt(c, s, now, k).isOpen
    ensures !Check(c, FailuresAt(c, s, now, k), now).permitted
  {
  }

  /** The breaker object; its methods follow the functions above. */
  class CircuitBreaker {
    const config: BreakerConfig
    var failures: nat
    var lastFailureTime: Option<real>
    var isOpen: bool

    function State(): BreakerState
      reads this
    {
      BreakerState(failures, lastFailureTime, isOpen)
    }

    ghost predicate Valid()
      reads this
    {
      Inv(config, State())
    }

    constructor (config: BreakerConfig)
      ensures Valid() && this.config == config && State() == Fresh
    {
      this.config := config;
      failures := 0;
      lastFailureTime := None;
      isOpen := false;
    }

    method RecordFailure(now: real)
      requires Valid()
      modifies this
      ensures Valid() && State() == AfterFailure(config, old(State()), now)
    {
      failures := failures + 1;
      lastFailureTime := Some(now);
      if failures >= config.failureThreshold {
        isOpen := true;
      }
    }

    method RecordSuccess()
      modifies this
      ensures Valid() && State() == AfterSuccess(old(State()))
    {
      failures := 0;
      isOpen := false;
    }

    method CanExecute(now: real) returns (permitted: bool)
      requires Valid()
      modifies this
      ensures Valid() && Gate(permitted, State()) == Check(config, old(State()), now)
    {
      if !isOpen {
        return true;
      }
      if now - lastFailureTime.value >= config.resetTimeout {
        isOpen := false;
        failures := 0;
        return true;
      }
      return false;
    }
  }
}
