/**
 * Jittered exponential backoff: `PollingConfig`, `_add_jitter` and
 * `_get_next_interval` of client/client.py, over real numbers. The random draw
 * of `random.uniform(-jitter, jitter)` is the parameter `draw`, scaled to [-1, 1].
 */
module Backoff {

  datatype PollingConfig = PollingConfig(
    initialInterval: real,
    maxInterval: real,
    multiplier: real,
    jitterFactor: real,
    timeout: real)

  /** The defaults of `PollingConfig()`; the class itself validates nothing. */
  const DefaultPolling := PollingConfig(0.5, 5.0, 2.0, 0.1, 300.0)

  /** A uniform draw, as a fraction of the jitter band. */
  type Draw = d: real | -1.0 <= d <= 1.0

  /** A configuration under which no computed interval is negative. */
  predicate Sane(c: PollingConfig)
  {
    0.0 <= c.initialInterval && 0.0 <= c.maxInterval && 0.0 <= c.multiplier
    && 0.0 <= c.jitterFactor <= 1.0
  }

  function Min(a: real, b: real): (r: real)
    ensures r <= a && r <= b && (r == a || r == b)
  {
    if a <= b then a else b
  }

  /** -x <= d * x <= x for a draw d and x >= 0. */
  lemma ScaledDraw(d: Draw, x: real)
    requires 0.0 <= x
    ensures -x <= d * x <= x
  {
    if 0.0 <= d {
      assert d * x <= 1.0 * x by { assert (1.0 - d) * x >= 0.0; }
      assert 0.0 <= d * x;
    } else {
      assert -1.0 * x <= d * x by { assert (d + 1.0) * x >= 0.0; }
      assert d * x <= 0.0 by { assert 0.0 <= d + 1.0; assert d * x == (d + 1.0) * x - x; assert (d + 1.0) * x <= 1.0 * x; }
    }
  }

  /** The jittered value stays within the band `interval * (1 ± jitterFactor)`. */
  lemma JitterBand(interval: real, j: real, d: Draw)
    requires 0.0 <= interval && 0.0 <= j
    ensures interval * (1.0 - j) <= interval + d * (interval * j) <= interval * (1.0 + j)
  {
    var jitter := interval * j;
    assert 0.0 <= jitter;
    ScaledDraw(d, jitter);
    assert interval * (1.0 - j) == interval - jitter;
    assert interval * (1.0 + j) == interval + jitter;
  }

  /** `_add_jitter`: a uniform offset within ±`interval * jitterFactor`, with no clamping at 0. */
  function AddJitter(c: PollingConfig, interval: real, draw: Draw): (r: real)
    ensures draw == 0.0 || c.jitterFactor == 0.0 || interval == 0.0 ==> r == interval
  {
    interval + draw * (interval * c.jitterFactor)
  }

  /** The jittered interval lies in the band `interval * (1 ± jitterFactor)`. */
  lemma AddJitterBand(c: PollingConfig, interval: real, draw: Draw)
    requires 0.0 <= interval && 0.0 <= c.jitterFactor
    ensures interval * (1.0 - c.jitterFactor) <= AddJitter(c, interval, draw) <= interval * (1.0 + c.jitterFactor)
  {
    JitterBand(interval, c.jitterFactor, draw);
    assert AddJitter(c, interval, draw) == interval + draw * (interval * c.jitterFactor);
  }

  /** With a jitter factor of at most 1, jitter never makes an interval negative. */
  lemma AddJitterNonNegative(c: PollingConfig, interval: real, draw: Draw)
    requires 0.0 <= interval && 0.0 <= c.jitterFactor <= 1.0
    ensures 0.0 <= AddJitter(c, interval, draw)
  {
    AddJitterBand(c, interval, draw);
    assert 0.0 <= interval * (1.0 - c.jitterFactor);
  }

  /** `_get_next_interval`: grow by the multiplier, cap at the maximum, then jitter. */
  function NextInterval(c: PollingConfig, current: real, draw: Draw): (r: real)
    ensures var base := Min(current * c.multiplier, c.maxInterval);
      0.0 <= base && 0.0 <= c.jitterFactor ==>
        base * (1.0 - c.jitterFactor) <= r <= base * (1.0 + c.jitterFactor)
        && r <= c.maxInterval * (1.0 + c.jitterFactor)
  {
    var base := Min(current * c.multiplier, c.maxInterval);
    var r := AddJitter(c, base, draw);
    if 0.0 <= base && 0.0 <= c.jitterFactor then
      AddJitterBand(c, base, draw);
      assert base * (1.0 + c.jitterFactor) <= c.maxInterval * (1.0 + c.jitterFactor) by {
        assert (c.maxInterval - base) * (1.0 + c.jitterFactor) >= 0.0;
      }
      r
    else
      r
  }

  /** With a sane configuration and a non-negative interval, every next interval is non-negative. */
  lemma NextIntervalNonNegative(c: PollingConfig, current: real, draw: Draw)
    ensures Sane(c) && 0.0 <= current ==>
      0.0 <= NextInterval(c, current, draw) <= c.maxInterval * (1.0 + c.jitterFactor)
  {
    if Sane(c) && 0.0 <= current {
      var base := Min(current * c.multiplier, c.maxInterval);
      assert 0.0 <= current * c.multiplier;
      assert 0.0 <= base;
      AddJitterNonNegative(c, base, draw);
      assert NextInterval(c, current, draw) == AddJitter(c, base, draw);
    }
  }

  /**
   * The default configuration is sane: the first sleep of a wait lies between
   * 0.9 and 1.1 seconds, and no sleep ever exceeds 5.5 seconds.
   */
  lemma DefaultPollingSane(current: real, draw: Draw)
    ensures Sane(DefaultPolling)
    ensures 0.9 <= NextInterval(DefaultPolling, DefaultPolling.initialInterval, draw) <= 1.1
    ensures 0.0 <= current ==> 0.0 <= NextInterval(DefaultPolling, current, draw) <= 5.5
  {
    NextIntervalNonNegative(DefaultPolling, current, draw);
  }

  /** The missing clamp: a jitter factor of 2 and the lowest draw give a negative interval. */
  lemma UnclampedJitterGoesNegative()
    ensures NextInterval(PollingConfig(1.0, 1.0, 1.0, 2.0, 1.0), 1.0, -1.0) < 0.0
  {
  }
}
