/**
 LeakDetector, and what its warnings mean to a PoolMonitor fed with the same samples.
 */
module LeakDetector {
  import opened Wrappers
  import opened WaitAccounting
  import PoolMonitor

  datatype Warning = AllInUse | LongWait

  predicate Warns(threshold: int, s: PoolStats, waitDelta: int, w: Warning) {
    s.inUse > 0 &&
    match w
    case AllInUse => s.maxOpen > 0 && s.open as real / s.maxOpen as real >= 0.9 && s.inUse == s.open
    case LongWait => waitDelta > threshold
  }

  /** The warnings a sample gives, in the order they are logged. */
  function Warnings(threshold: int, s: PoolStats, waitDelta: int): seq<Warning> {
    (if Warns(threshold, s, waitDelta, AllInUse) then [AllInUse] else []) +
    (if Warns(threshold, s, waitDelta, LongWait) then [LongWait] else [])
  }

  /** The warnings in the sample's own numbers, and in order. */
  lemma WarnsExactly(threshold: int, s: PoolStats, waitDelta: int)
    ensures var warnings := Warnings(threshold, s, waitDelta);
            && (AllInUse in warnings <==>
                  s.inUse > 0 && s.inUse == s.open && s.maxOpen > 0 && 10 * s.open >= 9 * s.maxOpen)
            && (LongWait in warnings <==> s.inUse > 0 && waitDelta > threshold)
            && |warnings| <= 2 && (|warnings| == 2 ==> warnings == [AllInUse, LongWait])
  {
    if s.maxOpen > 0 {
      PoolMonitor.UsageAtLeast(s.open, s.maxOpen, 0.9);
    }
  }

  function SampleOf(stats: Option<PoolStats>): Option<Sample> {
    if stats.Some? then Some(stats.value.sample) else None
  }

  class Detector {
    const threshold: int
    var lastWaitDuration: int
    ghost var samples: seq<Option<Sample>>

    ghost predicate Valid()
      reads this
    {
      lastWaitDuration == LeakBaseline(samples)
    }

    constructor (threshold: int)
      ensures Valid() && samples == [] && this.threshold == threshold
    {
      this.threshold, lastWaitDuration, samples := threshold, 0, [];
    }

    /** The second part of the evaluation. */
    method Warn(s: PoolStats, waitDelta: int) returns (warnings: seq<Warning>)
      ensures warnings == Warnings(threshold, s, waitDelta)
    {
      warnings := [];
      if s.inUse > 0 {
        if s.maxOpen > 0 {
          var usage := s.open as real / s.maxOpen as real;
          if usage >= 0.9 && s.inUse == s.open {
            warnings := warnings + [AllInUse];
          }
        }
        if waitDelta > threshold {
          warnings := warnings + [LongWait];
        }
      }
    }

    method Evaluate(stats: Option<PoolStats>) returns (warnings: seq<Warning>)
      requires Valid()
      modifies this
      ensures Valid() && samples == old(samples) + [SampleOf(stats)]
      ensures warnings ==
              if stats.None? then []
              else Warnings(threshold, stats.value,
                  LeakDelta(LeakBaseline(old(samples)), stats.value.sample.totals.duration))
      // in the sample's own numbers
      ensures lastWaitDuration == (if stats.Some? then stats.value.sample.totals.duration else old(lastWaitDuration))
      ensures stats.Some? ==>
                var s, total := stats.value, stats.value.sample.totals.duration;
                && (AllInUse in warnings <==>
                      s.inUse > 0 && s.inUse == s.open && s.maxOpen > 0 && 10 * s.open >= 9 * s.maxOpen)
                && (LongWait in warnings <==>
                      s.inUse > 0 && (if total < old(lastWaitDuration) then total > threshold
                                      else total > old(lastWaitDuration) + threshold))
                && |warnings| <= 2 && (|warnings| == 2 ==> warnings == [AllInUse, LongWait])
    {
      warnings := [];
      samples := samples + [SampleOf(stats)];
      assert samples[..|samples| - 1] == old(samples);
      if stats.None? {
        return;
      }
      var s := stats.value;
      var waitDelta := s.sample.totals.duration - lastWaitDuration;
      if waitDelta < 0 {
        waitDelta := s.sample.totals.duration;
      }
      lastWaitDuration := s.sample.totals.duration;
      warnings := Warn(s, waitDelta);
      WarnsExactly(threshold, s, waitDelta);
    }
  }

  /** When the monitor's usage threshold is at most 0.9 and its wait threshold at most the detector's, as
      the defaults are, no leak warning comes without the corresponding pool alert for the same sample. */
  lemma WarningsAreAlerts(th: PoolMonitor.Thresholds, threshold: int,
                          before: seq<Option<Sample>>, s: PoolStats)
    requires Plausible(before) && ZERO.AtMost(s.sample.totals)
    requires th.usage <= 0.9 && th.wait.duration <= threshold
    ensures var warnings := Warnings(threshold, s, LeakDelta(LeakBaseline(before), s.sample.totals.duration));
            var alerts := PoolMonitor.Raised(th, s, Delta(Baseline(before), s.sample.totals));
            && (AllInUse in warnings ==> PoolMonitor.HighUsage in alerts)
            && (LongWait in warnings ==> PoolMonitor.HighWaitDuration in alerts)
  {
    LeakDetectorReportsNoMore(before, s.sample.totals);
  }
}
