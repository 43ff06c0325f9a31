/**
 Which background goroutines may replace the pool: the AutoReconnector's, and no other.
 */
module PluginRoles {
  import opened Wrappers
  import opened PluginMachine
  import opened PluginInvariant
  import opened PluginReachable

  /** The health checker, the two monitors, the warmup and the stats reporter. */
  predicate Watches(home: Home) {
    home.Warmer? || home.Reporter? || (home.Worker? && !home.c.kind.AutoReconnecting?)
  }

  predicate OnlyWatches(th: Thread) {
    Watches(th.home) ==> th.pc.Idle? || th.pc.Exited? || th.pc.Health? || th.pc.Stats? || th.pc.Warm?
  }

  lemma IdleWatches(cfg: Config, sh: Shared, t: Tid, home: Home, ch: Choice)
    requires NextIdle(cfg, sh, t, home, ch).Some?
    ensures OnlyWatches(Thread(home, NextIdle(cfg, sh, t, home, ch).value.pc))
  {
  }

  lemma WatcherWatches(cfg: Config, s: State, l: Label, o: Out)
    requires Actual(cfg, s, l, o) && OnlyWatches(ThreadOf(s, l.t)) && !ThreadOf(s, l.t).pc.Idle?
    ensures OnlyWatches(ThreadOf(s, l.t).(pc := o.pc))
  {
  }

  lemma MoverWatches(cfg: Config, s: State, l: Label, o: Out)
    requires Actual(cfg, s, l, o) && OnlyWatches(ThreadOf(s, l.t))
    ensures OnlyWatches(ThreadOf(s, l.t).(pc := o.pc))
  {
    var th := ThreadOf(s, l.t);
    if th.pc.Idle? {
      IdleWatches(cfg, s.sh, l.t, th.home, l.ch);
    } else {
      WatcherWatches(cfg, s, l, o);
    }
  }

  lemma StartupSpawns(cfg: Config, sh: Shared, at: StartAt, ch: Choice, child: Tid)
    requires NextStartup(cfg, sh, at, ch, child).Some? && NextStartup(cfg, sh, at, ch, child).value.spawn.Some?
    ensures OnlyWatches(NextStartup(cfg, sh, at, ch, child).value.spawn.value)
  {
  }

  lemma CleanupSpawns(sh: Shared, at: CleanupAt, ch: Choice, child: Tid)
    requires NextCleanup(sh, at, ch, child).Some? && NextCleanup(sh, at, ch, child).value.spawn.Some?
    ensures OnlyWatches(NextCleanup(sh, at, ch, child).value.spawn.value)
  {
  }

  lemma ChildWatches(cfg: Config, s: State, l: Label, o: Out)
    requires Actual(cfg, s, l, o) && o.spawn.Some?
    ensures OnlyWatches(o.spawn.value)
  {
    var pc := ThreadOf(s, l.t).pc;
    if pc.Startup? {
      StartupSpawns(cfg, s.sh, pc.st, l.ch, l.child);
    } else if pc.Cleanup? {
      CleanupSpawns(s.sh, pc.cl, l.ch, l.child);
    }
  }

  ghost predicate AllWatch(s: State) {
    forall t :: t in s.threads ==> OnlyWatches(s.threads[t])
  }

  lemma WatchKept(cfg: Config, s: State, l: Label, o: Out)
    requires Actual(cfg, s, l, o) && AllWatch(s)
    ensures AllWatch(Apply(s, l, o))
  {
    MoverWatches(cfg, s, l, o);
    if o.spawn.Some? {
      ChildWatches(cfg, s, l, o);
    }
  }

  lemma WatchRun(cfg: Config, states: seq<State>, labels: seq<Label>, i: nat)
    requires IsRun(cfg, states, labels) && i < |states|
    ensures AllWatch(states[i])
  {
    var P := (s: State) => AllWatch(s);
    forall s, l, o | Inv(cfg, s) && Does(cfg, s, l, o) && Actual(cfg, s, l, o) && P(s) ensures P(Apply(s, l, o)) {
      WatchKept(cfg, s, l, o);
    }
    RunKeepsActual(cfg, states, labels, 0, i, P);
  }

  /** Recovery is the AutoReconnector's alone: no other background goroutine is ever inside a lifecycle
      operation, and so none of them opens, publishes or closes a pool. */
  lemma OnlyAutoReconnectorReconnects(cfg: Config, states: seq<State>, labels: seq<Label>, i: nat)
    requires IsRun(cfg, states, labels) && i < |labels|
    requires Watches(ThreadOf(states[i], labels[i].t).home)
    ensures var ps, ps' := states[i].sh.pools, states[i + 1].sh.pools;
            && !InLifecycle(ThreadOf(states[i], labels[i].t).pc)
            && ps' in {ps, ps.(connected := false)}
  {
    WatchRun(cfg, states, labels, i);
    WatcherKeepsPools(cfg, states, labels, i);
  }

  lemma WatcherKeepsPools(cfg: Config, states: seq<State>, labels: seq<Label>, i: nat)
    requires IsRun(cfg, states, labels) && i < |labels| && AllWatch(states[i])
    requires Watches(ThreadOf(states[i], labels[i].t).home)
    ensures states[i + 1].sh.pools in {states[i].sh.pools, states[i].sh.pools.(connected := false)}
  {
    RunInv(cfg, states, labels, i);
    assert Step(cfg, states[i], labels[i]) == Some(states[i + 1]);
    var o := StepDoes(cfg, states[i], labels[i]);
    WatcherOut(cfg, states[i], labels[i], o);
  }

  lemma WatcherOut(cfg: Config, s: State, l: Label, o: Out)
    requires Does(cfg, s, l, o) && Actual(cfg, s, l, o)
    requires Watches(ThreadOf(s, l.t).home) && OnlyWatches(ThreadOf(s, l.t))
    ensures o.sh.pools in {s.sh.pools, s.sh.pools.(connected := false)}
  {
    MoverWatches(cfg, s, l, o);
    WatchersAreQuiet(ThreadOf(s, l.t));
    WatchersAreQuiet(ThreadOf(s, l.t).(pc := o.pc));
    QuietMove(s.sh, ThreadOf(s, l.t).pc, o);
  }

  lemma WatchersAreQuiet(th: Thread)
    requires Watches(th.home) && OnlyWatches(th)
    ensures PhaseOf(th.pc).Quiet?
  {
  }

  lemma QuietMove(sh: Shared, pc: PC, o: Out)
    requires OutPools(sh, pc, o) && PhaseOf(pc).Quiet? && PhaseOf(o.pc).Quiet?
    ensures o.sh.pools in {sh.pools, sh.pools.(connected := false)}
  {
  }
}
