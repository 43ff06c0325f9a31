/**
 PoolMonitor: which alerts a sample raises, and how often alerts are let through.
 */
module PoolMonitor {
  import opened Wrappers
  import opened WaitAccounting

  const SECOND := 1_000_000_000
  const ESCALATION_COOLDOWN := 30 * SECOND
  const DEFAULT_COOLDOWN := 60 * SECOND

  datatype Alert = HighUsage | HighWaitDuration | HighWaitCount

  datatype Severity = Warning | Critical

  /** Durations are nanoseconds. */
  datatype Thresholds = Thresholds(usage: real, wait: Waiting, cooldown: int)

  const DEFAULT_THRESHOLDS := Thresholds(0.8, Waiting(10, 5 * SECOND), 0)

  /** One tick: the sample, the clock when the time since the last alert is taken, and the clock when
      the alert is stamped. */
  datatype Tick = Tick(stats: Option<PoolStats>, now: int, stamp: int)

  // ---------------------------------------------------------------- which alerts

  function Usage(s: PoolStats): real
    requires s.maxOpen > 0
  {
    s.open as real / s.maxOpen as real
  }

  lemma UsageAtLeast(open: int, maxOpen: int, limit: real)
    requires maxOpen > 0
    ensures open as real / maxOpen as real >= limit <==> open as real >= limit * maxOpen as real
  {
    var usage := open as real / maxOpen as real;
    assert usage * maxOpen as real == open as real;
    if usage >= limit {
      assert usage * maxOpen as real >= limit * maxOpen as real;
    } else {
      assert usage * maxOpen as real < limit * maxOpen as real;
    }
  }

  predicate Raises(th: Thresholds, s: PoolStats, waited: Waiting, a: Alert) {
    match a
    case HighUsage => s.maxOpen > 0 && Usage(s) >= th.usage
    case HighWaitDuration => waited.duration > th.wait.duration
    case HighWaitCount => waited.count > th.wait.count
  }

  predicate Acute(th: Thresholds, s: PoolStats, waited: Waiting, a: Alert)
    requires Raises(th, s, waited, a)
  {
    match a
    case HighUsage => Usage(s) >= 0.95
    case HighWaitDuration => waited.duration > th.wait.duration * 2
    case HighWaitCount => waited.count > th.wait.count * 5
  }

  /** Where an alert stands in the report. */
  function Place(a: Alert): nat {
    match a
    case HighUsage => 0
    case HighWaitDuration => 1
    case HighWaitCount => 2
  }

  function OneIf(b: bool, a: Alert): seq<Alert> {
    if b then [a] else []
  }

  /** The alerts a sample raises, in the order they are reported. */
  function Raised(th: Thresholds, s: PoolStats, waited: Waiting): seq<Alert> {
    OneIf(Raises(th, s, waited, HighUsage), HighUsage) +
    OneIf(Raises(th, s, waited, HighWaitDuration), HighWaitDuration) +
    OneIf(Raises(th, s, waited, HighWaitCount), HighWaitCount)
  }

  /** Critical exactly when some raised alert is acute. */
  ghost function SeverityOf(th: Thresholds, s: PoolStats, waited: Waiting): Severity {
    if exists a :: Raises(th, s, waited, a) && Acute(th, s, waited, a) then Critical else Warning
  }

  /** An alert in the sample's own numbers. */
  lemma RaisesExactly(th: Thresholds, s: PoolStats, waited: Waiting, a: Alert)
    ensures Raises(th, s, waited, a) <==>
              match a
              case HighUsage => s.maxOpen > 0 && s.open as real >= th.usage * s.maxOpen as real
              case HighWaitDuration => waited.duration > th.wait.duration
              case HighWaitCount => waited.count > th.wait.count
  {
    if s.maxOpen > 0 {
      UsageAtLeast(s.open, s.maxOpen, th.usage);
    }
  }

  /** And the severity, for the alerts raised. */
  lemma SeverityExactly(th: Thresholds, s: PoolStats, waited: Waiting)
    ensures SeverityOf(th, s, waited) == Critical <==>
              || (s.maxOpen > 0 && s.open as real >= th.usage * s.maxOpen as real && 100 * s.open >= 95 * s.maxOpen)
              || (waited.duration > th.wait.duration && waited.duration > 2 * th.wait.duration)
              || (waited.count > th.wait.count && waited.count > 5 * th.wait.count)
  {
    if s.maxOpen > 0 {
      UsageAtLeast(s.open, s.maxOpen, th.usage);
      UsageAtLeast(s.open, s.maxOpen, 0.95);
    }
    assert SeverityOf(th, s, waited) == Critical <==>
      || (Raises(th, s, waited, HighUsage) && Acute(th, s, waited, HighUsage))
      || (Raises(th, s, waited, HighWaitDuration) && Acute(th, s, waited, HighWaitDuration))
      || (Raises(th, s, waited, HighWaitCount) && Acute(th, s, waited, HighWaitCount)) by {
      AcuteOfThree(th, s, waited);
    }
  }

  lemma AcuteOfThree(th: Thresholds, s: PoolStats, waited: Waiting)
    ensures SeverityOf(th, s, waited) == Critical <==>
              || (Raises(th, s, waited, HighUsage) && Acute(th, s, waited, HighUsage))
              || (Raises(th, s, waited, HighWaitDuration) && Acute(th, s, waited, HighWaitDuration))
              || (Raises(th, s, waited, HighWaitCount) && Acute(th, s, waited, HighWaitCount))
  {
    if a :| Raises(th, s, waited, a) && Acute(th, s, waited, a) {
      assert a == HighUsage || a == HighWaitDuration || a == HighWaitCount;
    }
  }

  /** All of it for the alerts that are reported. */
  lemma RaisedExactly(th: Thresholds, s: PoolStats, waited: Waiting)
    ensures var alerts := Raised(th, s, waited);
            && (HighUsage in alerts <==> s.maxOpen > 0 && s.open as real >= th.usage * s.maxOpen as real)
            && (HighWaitDuration in alerts <==> waited.duration > th.wait.duration)
            && (HighWaitCount in alerts <==> waited.count > th.wait.count)
            && (SeverityOf(th, s, waited) == Critical <==>
                  || (HighUsage in alerts && 100 * s.open >= 95 * s.maxOpen)
                  || (HighWaitDuration in alerts && waited.duration > 2 * th.wait.duration)
                  || (HighWaitCount in alerts && waited.count > 5 * th.wait.count))
            && forall i, j :: 0 <= i < j < |alerts| ==> Place(alerts[i]) < Place(alerts[j])
  {
    RaisesExactly(th, s, waited, HighUsage);
    SeverityExactly(th, s, waited);
  }

  // ---------------------------------------------------------------- which alerts are let through

  datatype Memory = Memory(lastAlert: Option<int>, lastSeverity: Option<Severity>, baseline: Waiting)

  const BLANK := Memory(None, None, ZERO)

  datatype Settings = Settings(thresholds: Thresholds, cooldown: int)

  ghost predicate Alarming(cfg: Settings, m: Memory, tick: Tick) {
    tick.stats.Some? &&
    Raised(cfg.thresholds, tick.stats.value, Delta(m.baseline, tick.stats.value.sample.totals)) != []
  }

  ghost function TickSeverity(cfg: Settings, m: Memory, tick: Tick): Severity {
    if tick.stats.None? then Warning
    else SeverityOf(cfg.thresholds, tick.stats.value, Delta(m.baseline, tick.stats.value.sample.totals))
  }

  /** The alert turns critical after a quiet tick or after a warning. */
  ghost predicate Escalates(cfg: Settings, m: Memory, tick: Tick) {
    TickSeverity(cfg, m, tick).Critical? && m.lastSeverity != Some(Critical)
  }

  ghost predicate Emits(cfg: Settings, m: Memory, tick: Tick) {
    && Alarming(cfg, m, tick)
    && (m.lastAlert.Some? ==>
          tick.now - m.lastAlert.value > if Escalates(cfg, m, tick) then ESCALATION_COOLDOWN else cfg.cooldown)
  }

  ghost function After(cfg: Settings, m: Memory, tick: Tick): Memory {
    Memory(
      if Emits(cfg, m, tick) then Some(tick.stamp) else m.lastAlert,
      if Emits(cfg, m, tick) then Some(TickSeverity(cfg, m, tick)) else if Alarming(cfg, m, tick) then m.lastSeverity
          else None,
      if tick.stats.Some? then tick.stats.value.sample.totals else m.baseline)
  }

  ghost function AfterAll(cfg: Settings, ticks: seq<Tick>): Memory {
    if ticks == [] then BLANK else After(cfg, AfterAll(cfg, ticks[..|ticks| - 1]), ticks[|ticks| - 1])
  }

  class Monitor {
    const thresholds: Thresholds
    const alertCooldown: int
    var lastAlert: Option<int>
    var lastSeverity: Option<Severity>
    var lastWait: Waiting
    ghost var ticks: seq<Tick>

    ghost function Remembered(): Memory
      reads this
    {
      Memory(lastAlert, lastSeverity, lastWait)
    }

    ghost predicate Valid()
      reads this
    {
      alertCooldown > 0 && Remembered() == AfterAll(Settings(thresholds, alertCooldown), ticks)
    }

    constructor (thresholds: Option<Thresholds>)
      ensures Valid() && ticks == []
      ensures this.thresholds == (if thresholds.Some? then thresholds.value
                                  else Thresholds(0.8, Waiting(10, 5_000_000_000), 0))
      ensures alertCooldown == (if this.thresholds.cooldown > 0 then this.thresholds.cooldown else 60_000_000_000)
    {
      var th := if thresholds.None? then DEFAULT_THRESHOLDS else thresholds.value;
      var cooldown := DEFAULT_COOLDOWN;
      if th.cooldown > 0 {
        cooldown := th.cooldown;
      }
      this.thresholds, this.alertCooldown := th, cooldown;
      lastAlert, lastSeverity, lastWait := None, None, ZERO;
      ticks := [];
    }

    /** The second part of the evaluation. */
    method ApplyThresholds(s: PoolStats, waited: Waiting) returns (alerts: seq<Alert>, severity: Severity)
      ensures alerts == Raised(thresholds, s, waited) && severity == SeverityOf(thresholds, s, waited)
    {
      alerts, severity := [], Warning;
      if s.maxOpen > 0 {
        var usage := s.open as real / s.maxOpen as real;
        if usage >= thresholds.usage {
          alerts := alerts + [HighUsage];
          if usage >= 0.95 {
            severity := Critical;
            assert Acute(thresholds, s, waited, HighUsage);
          }
        }
      }
      if waited.duration > thresholds.wait.duration {
        alerts := alerts + [HighWaitDuration];
        if waited.duration > thresholds.wait.duration * 2 {
          severity := Critical;
          assert Acute(thresholds, s, waited, HighWaitDuration);
        }
      }
      if waited.count > thresholds.wait.count {
        alerts := alerts + [HighWaitCount];
        if waited.count > thresholds.wait.count * 5 {
          severity := Critical;
          assert Acute(thresholds, s, waited, HighWaitCount);
        }
      }
    }

    method Evaluate(stats: Option<PoolStats>) returns (alerts: seq<Alert>, severity: Severity, waited: Waiting)
      modifies this`lastWait
      ensures stats.None? ==> alerts == [] && severity == Warning && waited == ZERO && lastWait == old(lastWait)
      ensures stats.Some? ==>
                && lastWait == stats.value.sample.totals
                && waited == Delta(old(lastWait), stats.value.sample.totals)
                && alerts == Raised(thresholds, stats.value, waited)
                && severity == SeverityOf(thresholds, stats.value, waited)
      // in the sample's own numbers
      ensures stats.Some? ==>
                var s, last, totals := stats.value, old(lastWait), stats.value.sample.totals;
                && waited == (if totals.count < last.count || totals.duration < last.duration then totals
                              else Waiting(totals.count - last.count, totals.duration - last.duration))
                && (HighUsage in alerts <==> s.maxOpen > 0 && s.open as real >= thresholds.usage * s.maxOpen as real)
                && (HighWaitDuration in alerts <==> waited.duration > thresholds.wait.duration)
                && (HighWaitCount in alerts <==> waited.count > thresholds.wait.count)
                && (severity == Critical <==>
                      || (HighUsage in alerts && 100 * s.open >= 95 * s.maxOpen)
                      || (HighWaitDuration in alerts && waited.duration > 2 * thresholds.wait.duration)
                      || (HighWaitCount in alerts && waited.count > 5 * thresholds.wait.count))
      ensures forall i, j :: 0 <= i < j < |alerts| ==> Place(alerts[i]) < Place(alerts[j])
    {
      alerts, severity, waited := [], Warning, ZERO;
      if stats.None? {
        return;
      }
      var s, totals := stats.value, stats.value.sample.totals;
      waited := Waiting(totals.count - lastWait.count, totals.duration - lastWait.duration);
      if waited.count < 0 || waited.duration < 0 {
        waited := totals;
      }
      lastWait := totals;
      alerts, severity := ApplyThresholds(s, waited);
      RaisedExactly(thresholds, s, waited);
    }

    /** Returns what is logged, if anything is. */
    method CheckAndAlert(tick: Tick) returns (logged: Option<(Severity, seq<Alert>, Waiting)>)
      requires Valid()
      modifies this
      ensures Valid() && ticks == old(ticks) + [tick]
      ensures var cfg := Settings(thresholds, alertCooldown); var m := old(Remembered());
              && (logged.Some? <==> Emits(cfg, m, tick))
              && (logged.Some? ==>
                    var waited := Delta(m.baseline, tick.stats.value.sample.totals);
                    && logged.value.0 == TickSeverity(cfg, m, tick)
                    && logged.value.1 == Raised(thresholds, tick.stats.value, waited)
                    && logged.value.2 == waited)
      // what is remembered, and when an alert is let through
      ensures lastWait == (if tick.stats.Some? then tick.stats.value.sample.totals else old(lastWait))
      ensures var waited := if tick.stats.None? then ZERO else Delta(old(lastWait), tick.stats.value.sample.totals);
              var alerts := if tick.stats.None? then [] else Raised(thresholds, tick.stats.value, waited);
              var severity := if tick.stats.None? then Warning else SeverityOf(thresholds, tick.stats.value, waited);
              var gap := if severity == Critical && old(lastSeverity) != Some(Critical) then 30_000_000_000
                         else alertCooldown;
              && (logged.Some? <==> alerts != [] && (old(lastAlert).Some? ==> tick.now > old(lastAlert).value + gap))
              && lastAlert == (if logged.Some? then Some(tick.stamp) else old(lastAlert))
              && lastSeverity == (if logged.Some? then Some(severity)
                                  else if alerts != [] then old(lastSeverity) else None)
    {
      logged := None;
      var alerts, severity, waited := Evaluate(tick.stats);
      if |alerts| > 0 {
        var cooldown := alertCooldown;
        if severity == Critical && lastSeverity != Some(Critical) {
          cooldown := ESCALATION_COOLDOWN;
        }
        // a lastAlert that was never set is centuries ago
        var shouldAlert := lastAlert.None? || tick.now - lastAlert.value > cooldown;
        if shouldAlert {
          lastAlert := Some(tick.stamp);
          lastSeverity := Some(severity);
          logged := Some((severity, alerts, waited));
        }
      } else if lastSeverity != None {
        lastSeverity := None;
      }
      ticks := ticks + [tick];
      assert ticks[..|ticks| - 1] == old(ticks);
    }
  }

  // ---------------------------------------------------------------- deltas

  function Samples(ticks: seq<Tick>): seq<Option<Sample>> {
    if ticks == [] then []
    else
      var stats := ticks[|ticks| - 1].stats;
      Samples(ticks[..|ticks| - 1]) + [if stats.Some? then Some(stats.value.sample) else None]
  }

  /** What the wait checks of all ticks were applied to, added up. */
  ghost function Checked(cfg: Settings, ticks: seq<Tick>): Waiting {
    if ticks == [] then ZERO
    else
      var before, tick := ticks[..|ticks| - 1], ticks[|ticks| - 1];
      if tick.stats.None? then Checked(cfg, before)
      else Checked(cfg, before).Plus(Delta(AfterAll(cfg, before).baseline, tick.stats.value.sample.totals))
  }

  /** The monitor's baseline is the totals of the last sample, so the waiting it checks over a whole run
      is what WaitAccounting proves about `Reported`. */
  lemma {:induction false} ChecksWhatIsReported(cfg: Settings, ticks: seq<Tick>)
    ensures AfterAll(cfg, ticks).baseline == Baseline(Samples(ticks))
    ensures Checked(cfg, ticks) == Reported(Samples(ticks))
  {
    if ticks != [] {
      var samples := Samples(ticks);
      ChecksWhatIsReported(cfg, ticks[..|ticks| - 1]);
      assert samples[..|samples| - 1] == Samples(ticks[..|ticks| - 1]);
    }
  }

  // ---------------------------------------------------------------- rate

  datatype Emission = Emission(at: int, escalation: bool)

  ghost function Emissions(cfg: Settings, ticks: seq<Tick>): seq<Emission> {
    if ticks == [] then []
    else
      var before, tick := ticks[..|ticks| - 1], ticks[|ticks| - 1];
      var m := AfterAll(cfg, before);
      Emissions(cfg, before) + if Emits(cfg, m, tick) then [Emission(tick.stamp, Escalates(cfg, m, tick))] else []
  }

  /** An alert is stamped after the time since the last one was taken. */
  ghost predicate Stamped(ticks: seq<Tick>) {
    forall i :: 0 <= i < |ticks| ==> ticks[i].now <= ticks[i].stamp
  }

  /** The gap the code enforces before each alert. */
  ghost predicate Spaced(es: seq<Emission>, cooldown: int) {
    forall i :: 0 < i < |es| ==> es[i].at - es[i - 1].at > if es[i].escalation then ESCALATION_COOLDOWN else cooldown
  }

  lemma {:induction false} LastAlertIsLastEmission(cfg: Settings, ticks: seq<Tick>)
    ensures var es := Emissions(cfg, ticks);
            AfterAll(cfg, ticks).lastAlert == if es == [] then None else Some(es[|es| - 1].at)
  {
    if ticks != [] {
      LastAlertIsLastEmission(cfg, ticks[..|ticks| - 1]);
    }
  }

  /** An alert comes more than the cooldown after the one before; only an escalation may come sooner,
      or must come later, namely more than 30 seconds after it. */
  lemma {:induction false} AlertsAreSpaced(cfg: Settings, ticks: seq<Tick>)
    requires Stamped(ticks)
    ensures Spaced(Emissions(cfg, ticks), cfg.cooldown)
  {
    if ticks != [] {
      var before := ticks[..|ticks| - 1];
      AlertsAreSpaced(cfg, before);
      LastAlertIsLastEmission(cfg, before);
      assert ticks[|ticks| - 1].now <= ticks[|ticks| - 1].stamp;
    }
  }

  function Shorter(a: int, b: int): int {
    if a <= b then a else b
  }

  /** n alerts span more than n-1 times the shorter of the two cooldowns. */
  lemma {:induction false} AlertRate(cfg: Settings, ticks: seq<Tick>, i: nat, j: nat)
    requires Stamped(ticks) && i <= j < |Emissions(cfg, ticks)|
    ensures Emissions(cfg, ticks)[j].at - Emissions(cfg, ticks)[i].at >=
            (j - i) * (Shorter(cfg.cooldown, ESCALATION_COOLDOWN) + 1)
  {
    if i < j {
      var gap := Shorter(cfg.cooldown, ESCALATION_COOLDOWN) + 1;
      AlertRate(cfg, ticks, i, j - 1);
      AlertsAreSpaced(cfg, ticks);
      assert (j - i) * gap == (j - 1 - i) * gap + gap;
    }
  }

  /** The documented meaning of AlertCooldown. */
  ghost predicate MinimumTimeBetweenAlerts(cfg: Settings) {
    forall ticks :: Stamped(ticks) ==> NeverSooner(Emissions(cfg, ticks), cfg.cooldown)
  }

  ghost predicate NeverSooner(es: seq<Emission>, cooldown: int) {
    forall i :: 0 < i < |es| ==> es[i].at - es[i - 1].at > cooldown
  }

  /** Many waits at once, nil, and as many again: with these thresholds, critical, quiet, critical. */
  function Waits(cfg: Settings): nat {
    var c := cfg.thresholds.wait.count;
    if c < 0 then 1 else 5 * c + 1
  }

  function Burst(cfg: Settings, times: nat, at: int): Tick {
    Tick(Some(PoolStats(0, 0, 0, Sample(0, Waiting(times * Waits(cfg), 0)))), at, at)
  }

  function Bursts(cfg: Settings): seq<Tick> {
    [Burst(cfg, 1, 0), Tick(None, 0, 0), Burst(cfg, 2, ESCALATION_COOLDOWN + 1)]
  }

  lemma BurstIsCritical(cfg: Settings, m: Memory, times: nat, at: int)
    requires times >= 1 && m.baseline == Waiting((times - 1) * Waits(cfg), 0)
    ensures Alarming(cfg, m, Burst(cfg, times, at)) && TickSeverity(cfg, m, Burst(cfg, times, at)) == Critical
  {
    var s := Burst(cfg, times, at).stats.value;
    assert times * Waits(cfg) == (times - 1) * Waits(cfg) + Waits(cfg);
    var waited := Delta(m.baseline, s.sample.totals);
    assert waited == Waiting(Waits(cfg), 0);
    assert Raises(cfg.thresholds, s, waited, HighWaitCount) && Acute(cfg.thresholds, s, waited, HighWaitCount);
    assert HighWaitCount in Raised(cfg.thresholds, s, waited);
  }

  lemma BurstsEscalateTwice(cfg: Settings)
    ensures Emissions(cfg, Bursts(cfg)) == [Emission(0, true), Emission(ESCALATION_COOLDOWN + 1, true)]
  {
    var ticks := Bursts(cfg);
    assert ticks[..2][..1][..0] == [] && ticks[..2][..1] == ticks[..1];
    BurstIsCritical(cfg, BLANK, 1, 0);
    assert AfterAll(cfg, ticks[..1]) == Memory(Some(0), Some(Critical), Waiting(Waits(cfg), 0));
    assert Emissions(cfg, ticks[..1]) == [Emission(0, true)];
    assert AfterAll(cfg, ticks[..2]) == Memory(Some(0), None, Waiting(Waits(cfg), 0));
    assert Emissions(cfg, ticks[..2]) == [Emission(0, true)];
    BurstIsCritical(cfg, AfterAll(cfg, ticks[..2]), 2, ESCALATION_COOLDOWN + 1);
  }

  /** AlertCooldown is the minimum time between alerts exactly when it is at most the 30 seconds of an
      escalation. */
  lemma CooldownIsMinimum(cfg: Settings)
    ensures MinimumTimeBetweenAlerts(cfg) <==> cfg.cooldown <= ESCALATION_COOLDOWN
  {
    if cfg.cooldown <= ESCALATION_COOLDOWN {
      forall ticks | Stamped(ticks) ensures NeverSooner(Emissions(cfg, ticks), cfg.cooldown) {
        AlertsAreSpaced(cfg, ticks);
      }
    } else {
      BurstsComeSooner(cfg);
    }
  }

  lemma BurstsComeSooner(cfg: Settings)
    requires cfg.cooldown > ESCALATION_COOLDOWN
    ensures Stamped(Bursts(cfg)) && !NeverSooner(Emissions(cfg, Bursts(cfg)), cfg.cooldown)
  {
    BurstsEscalateTwice(cfg);
    TwoTooSoon(Emissions(cfg, Bursts(cfg)), cfg.cooldown);
  }

  lemma TwoTooSoon(es: seq<Emission>, cooldown: int)
    requires es == [Emission(0, true), Emission(ESCALATION_COOLDOWN + 1, true)] && cooldown > ESCALATION_COOLDOWN
    ensures !NeverSooner(es, cooldown)
  {
    assert es[1].at - es[0].at <= cooldown;
  }
}
