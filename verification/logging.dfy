/**
 * The application logger (src/lib/logger.ts): four levelled write methods and a bounded,
 * in-place metrics buffer that keeps the newest 1000 entries.
 */
module Logging {
  import opened Wrappers
  import opened Types

  /** The most entries the metrics buffer keeps. */
  const MetricsCapacity: nat := 1000

  datatype Level = Info | Warn | Error | Debug

  /** What one call hands to the console transport (its metadata is not modelled). */
  datatype LogEntry = LogEntry(level: Level, message: string)

  /** The buffer after `addMetric(m)`: `m` appended, then the oldest entry dropped once the length exceeds the capacity. */
  function Retain(buffer: seq<PerformanceMetrics>, m: PerformanceMetrics): (r: seq<PerformanceMetrics>)
    ensures |r| > 0 && r[|r| - 1] == m
    ensures |buffer| <= MetricsCapacity ==> |r| <= MetricsCapacity
    ensures |buffer| < MetricsCapacity ==> r == buffer + [m]
    ensures |buffer| >= MetricsCapacity ==> |r| == |buffer| && r == buffer[1..] + [m]
  {
    var pushed := buffer + [m];
    if |pushed| > MetricsCapacity then pushed[1..] else pushed
  }

  /** The newest `MetricsCapacity` entries of `s`, in their order. */
  function Newest(s: seq<PerformanceMetrics>): seq<PerformanceMetrics> {
    if |s| <= MetricsCapacity then s else s[|s| - MetricsCapacity..]
  }

  /** The buffer after adding each of `ms` in turn. */
  function RetainAll(buffer: seq<PerformanceMetrics>, ms: seq<PerformanceMetrics>): seq<PerformanceMetrics>
    decreases |ms|
  {
    if ms == [] then buffer else RetainAll(Retain(buffer, ms[0]), ms[1..])
  }

  /** Dropping old entries before more arrive does not change which entries are the newest. */
  lemma NewestOfSuffix(w: seq<PerformanceMetrics>, u: seq<PerformanceMetrics>, t: seq<PerformanceMetrics>)
    requires |u| <= |w| && u == w[|w| - |u|..]
    requires |u| >= MetricsCapacity || |u| == |w|
    ensures Newest(u + t) == Newest(w + t)
  {
    if |u| < |w| {
      var k := |w| - |u|;
      assert w + t == w[..k] + (u + t);
      assert |u + t| >= MetricsCapacity;
      assert (w + t)[|w + t| - MetricsCapacity..] == (u + t)[|u + t| - MetricsCapacity..];
    } else {
      assert u == w;
    }
  }

  /** One addition keeps the newest entries of everything seen, whatever arrives afterwards. */
  lemma RetainKeepsNewest(buffer: seq<PerformanceMetrics>, m: PerformanceMetrics, t: seq<PerformanceMetrics>)
    requires |buffer| <= MetricsCapacity
    ensures Newest(Retain(buffer, m) + t) == Newest(buffer + [m] + t)
  {
    var w := buffer + [m];
    var next := Retain(buffer, m);
    assert next == w[|w| - |next|..];
    NewestOfSuffix(w, next, t);
  }

  /**
   * However many metrics are added to a buffer within capacity, the buffer ends up holding
   * exactly the newest 1000 of everything it has seen, oldest first.
   */
  lemma {:induction false} RetainAllKeepsNewest(buffer: seq<PerformanceMetrics>, ms: seq<PerformanceMetrics>)
    requires |buffer| <= MetricsCapacity
    ensures RetainAll(buffer, ms) == Newest(buffer + ms)
    decreases |ms|
  {
    if ms == [] {
      assert buffer + ms == buffer;
    } else {
      RetainAllKeepsNewest(Retain(buffer, ms[0]), ms[1..]);
      RetainKeepsNewest(buffer, ms[0], ms[1..]);
      assert buffer + [ms[0]] + ms[1..] == buffer + ms;
    }
  }

  /** From an empty buffer, the metrics kept are the last min(n, 1000) of the n added. */
  lemma MetricsFromEmpty(ms: seq<PerformanceMetrics>)
    ensures |RetainAll([], ms)| == if |ms| <= MetricsCapacity then |ms| else MetricsCapacity
    ensures RetainAll([], ms) == Newest(ms)
  {
    RetainAllKeepsNewest([], ms);
    assert [] + ms == ms;
  }

  class AppLogger {
    /** Performance metrics, oldest first. */
    var metrics: seq<PerformanceMetrics>
    /** Everything written to the console transport, oldest first. */
    var emitted: seq<LogEntry>

    ghost predicate Valid()
      reads this
    {
      |metrics| <= MetricsCapacity
    }

    constructor ()
      ensures Valid()
      ensures metrics == [] && emitted == []
    {
      metrics := [];
      emitted := [];
    }

    method Info(message: string)
      modifies this
      ensures emitted == old(emitted) + [LogEntry(Level.Info, message)]
      ensures metrics == old(metrics)
    {
      emitted := emitted + [LogEntry(Level.Info, message)];
    }

    method Warn(message: string)
      modifies this
      ensures emitted == old(emitted) + [LogEntry(Level.Warn, message)]
      ensures metrics == old(metrics)
    {
      emitted := emitted + [LogEntry(Level.Warn, message)];
    }

    method Error(message: string)
      modifies this
      ensures emitted == old(emitted) + [LogEntry(Level.Error, message)]
      ensures metrics == old(metrics)
    {
      emitted := emitted + [LogEntry(Level.Error, message)];
    }

    method Debug(message: string)
      modifies this
      ensures emitted == old(emitted) + [LogEntry(Level.Debug, message)]
      ensures metrics == old(metrics)
    {
      emitted := emitted + [LogEntry(Level.Debug, message)];
    }

    /** Push `metric`, then shift the oldest entry out when the buffer exceeds its capacity. */
    method AddMetric(metric: PerformanceMetrics)
      modifies this
      ensures metrics == Retain(old(metrics), metric)
      ensures old(Valid()) ==> Valid()
      ensures emitted == old(emitted)
    {
      metrics := metrics + [metric];
      if |metrics| > MetricsCapacity {
        metrics := metrics[1..];
      }
    }
  }
}
