/**
 What a goroutine has found before it goes to the pool: the flags and the pool it reads, in the order of the
 code, in the same call.
 */
module PluginChecks {
  import opened Wrappers
  import opened PluginMachine
  import opened PluginLocks
  import opened PluginLocal
  import opened PluginReachable

  /** No goroutine starts there. */
  predicate Underway(pc: PC) {
    !pc.Idle? && !pc.Stopping? && !pc.Shutting? && pc != Warm(WarmAt.Closing)
  }

  lemma StartupChild(cfg: Config, sh: Shared, at: StartAt, ch: Choice, child: Tid)
    requires NextStartup(cfg, sh, at, ch, child).Some? && NextStartup(cfg, sh, at, ch, child).value.spawn.Some?
    ensures !Underway(NextStartup(cfg, sh, at, ch, child).value.spawn.value.pc)
  {
  }

  lemma CleanupChild(sh: Shared, at: CleanupAt, ch: Choice, child: Tid)
    requires NextCleanup(sh, at, ch, child).Some? && NextCleanup(sh, at, ch, child).value.spawn.Some?
    ensures !Underway(NextCleanup(sh, at, ch, child).value.spawn.value.pc)
  {
  }

  lemma ChildStarts(cfg: Config, s: State, l: Label, o: Out)
    requires Actual(cfg, s, l, o) && o.spawn.Some?
    ensures !Underway(o.spawn.value.pc)
  {
    var pc := ThreadOf(s, l.t).pc;
    if pc.Startup? {
      StartupChild(cfg, s.sh, pc.st, l.ch, l.child);
    } else if pc.Cleanup? {
      CleanupChild(s.sh, pc.cl, l.ch, l.child);
    }
  }

  lemma OutcomeOf(cfg: Config, states: seq<State>, labels: seq<Label>, k: nat) returns (o: Out)
    requires IsRun(cfg, states, labels) && k < |labels|
    ensures Actual(cfg, states[k], labels[k], o) && Allowed(states[k], labels[k], o)
    ensures states[k + 1] == Apply(states[k], labels[k], o)
  {
    assert Step(cfg, states[k], labels[k]) == Some(states[k + 1]);
    o := Next(cfg, states[k].sh, labels[k].t, ThreadOf(states[k], labels[k].t), labels[k].ch, labels[k].child).value;
  }

  /** Goroutine `t` came to `pc` by its action at `k` and has been there from then to `i`. */
  ghost predicate CameBy(cfg: Config, states: seq<State>, labels: seq<Label>, k: nat, i: nat, t: Tid, o: Out) {
    && k < i < |states| && k < |labels| && labels[k].t == t && Actual(cfg, states[k], labels[k], o)
    && ThreadOf(states[i], t) == ThreadOf(states[k], t).(pc := o.pc)
    && forall m :: k < m <= i ==> ThreadOf(states[m], t) == ThreadOf(states[i], t)
  }

  /** The last action of a goroutine in the middle of something. */
  lemma {:induction false} LastAction(cfg: Config, states: seq<State>, labels: seq<Label>, i: nat, t: Tid)
      returns (k: nat, o: Out)
    requires IsRun(cfg, states, labels) && i < |states| && Underway(ThreadOf(states[i], t).pc)
    ensures CameBy(cfg, states, labels, k, i, t, o)
  {
    assert i > 0;
    o := OutcomeOf(cfg, states, labels, i - 1);
    if labels[i - 1].t == t {
      k := i - 1;
    } else {
      if o.spawn.Some? {
        ChildStarts(cfg, states[i - 1], labels[i - 1], o);
      }
      assert ThreadOf(states[i - 1], t) == ThreadOf(states[i], t);
      k, o := LastAction(cfg, states, labels, i - 1, t);
    }
  }

  // ---------------------------------------------------------------- GetStats

  lemma StatsFrom(cfg: Config, s: State, l: Label, o: Out)
    requires Actual(cfg, s, l, o) && o.pc.Stats? && !o.pc.sa.RLock?
    ensures var pc := ThreadOf(s, l.t).pc; pc.Stats? && NextStats(s.sh, pc.sa) == Some(o)
  {
  }

  /** GetStats samples only in a read section in which it has found `connected` true, and after that
      `closing` false and a pool. */
  lemma SamplesWhenConnected(cfg: Config, states: seq<State>, labels: seq<Label>, i: nat, t: Tid)
      returns (a: nat, b: nat)
    requires IsRun(cfg, states, labels) && i < |states| && ThreadOf(states[i], t).pc == Stats(Sample)
    ensures a < b < i && states[a].sh.pools.connected && !states[b].sh.closing && states[b].sh.pools.db.Some?
    ensures ThreadOf(states[a], t).pc == Stats(StatsAt.Flag)
    ensures forall m :: a <= m <= i ==> t in states[m].threads && Reads(ThreadOf(states[m], t).pc)
  {
    var o: Out;
    b, o := LastAction(cfg, states, labels, i, t);
    StatsFrom(cfg, states[b], labels[b], o);
    a, o := LastAction(cfg, states, labels, b, t);
    StatsFrom(cfg, states[a], labels[a], o);
  }

  // ---------------------------------------------------------------- ReportHealth

  lemma HealthFrom(cfg: Config, s: State, l: Label, o: Out)
    requires Actual(cfg, s, l, o) && o.pc.Health? && !o.pc.he.RLock?
    ensures var pc := ThreadOf(s, l.t).pc; pc.Health? && NextHealth(s.sh, pc.he, l.ch) == Some(o)
  {
  }

  /** ReportHealth asks a pool that it has read from `db`, and after that it has found `connected` true,
      and after that `closing` false. */
  lemma QueriesWhenConnected(cfg: Config, states: seq<State>, labels: seq<Label>, i: nat, t: Tid, d: PoolId)
      returns (a: nat, b: nat, c: nat)
    requires IsRun(cfg, states, labels) && i < |states| && ThreadOf(states[i], t).pc == Health(HealthAt.Query(d))
    ensures a < b < c < i
    ensures states[a].sh.pools.db == Some(d) && states[b].sh.pools.connected && !states[c].sh.closing
    ensures forall m :: a <= m <= i ==> ThreadOf(states[m], t).pc.Health?
  {
    var o: Out;
    c, o := LastAction(cfg, states, labels, i, t);
    HealthFrom(cfg, states[c], labels[c], o);
    b, o := LastAction(cfg, states, labels, c, t);
    HealthFrom(cfg, states[b], labels[b], o);
    a, o := LastAction(cfg, states, labels, b, t);
    HealthFrom(cfg, states[a], labels[a], o);
  }

  // ---------------------------------------------------------------- IsConnectedContext

  lemma ProbeFrom(cfg: Config, s: State, l: Label, o: Out)
    requires Actual(cfg, s, l, o) && o.pc.Probe? && !o.pc.pr.Flag?
    ensures var pc := ThreadOf(s, l.t).pc; pc.Probe? && NextProbe(cfg, s.sh, pc.pk, pc.pr, l.ch) == Some(o)
  {
  }

  /** IsConnectedContext looks at the cache for a pool, and so may answer true, only after it has found
      `connected` true, then `closing` false, then that pool in `db`. */
  lemma ProbesWhenConnected(cfg: Config, states: seq<State>, labels: seq<Label>, i: nat, t: Tid, k: AfterProbe,
                            d: PoolId) returns (a: nat, b: nat, c: nat)
    requires IsRun(cfg, states, labels) && i < |states| && ThreadOf(states[i], t).pc == Probe(k, Cache(d))
    ensures a < b < c < i
    ensures states[a].sh.pools.connected && !states[b].sh.closing && states[c].sh.pools.db == Some(d)
    ensures forall m :: a <= m <= i ==> ThreadOf(states[m], t).pc.Probe?
  {
    var o: Out;
    c, o := LastAction(cfg, states, labels, i, t);
    ProbeFrom(cfg, states[c], labels[c], o);
    a, b := ProbeBegan(cfg, states, labels, c, t);
  }

  /** An IsConnectedContext that reads `db` has looked at `connected` and at `closing`. */
  lemma ProbeBegan(cfg: Config, states: seq<State>, labels: seq<Label>, i: nat, t: Tid) returns (a: nat, b: nat)
    requires IsRun(cfg, states, labels) && i < |states|
    requires ThreadOf(states[i], t).pc.Probe? && ThreadOf(states[i], t).pc.pr.Read?
    ensures a < b < i && states[a].sh.pools.connected && !states[b].sh.closing
    ensures forall m :: a <= m <= i ==> ThreadOf(states[m], t).pc.Probe?
  {
    var o: Out;
    var r: nat;
    r, o := LastAction(cfg, states, labels, i, t);
    ProbeFrom(cfg, states[r], labels[r], o);
    b, o := LastAction(cfg, states, labels, r, t);
    ProbeFrom(cfg, states[b], labels[b], o);
    a, o := LastAction(cfg, states, labels, b, t);
    ProbeFrom(cfg, states[a], labels[a], o);
  }

  // ---------------------------------------------------------------- AutoReconnector

  lemma AutoFrom(cfg: Config, s: State, l: Label, o: Out)
    requires Actual(cfg, s, l, o) && (o.pc.AutoDecide? || (o.pc == Reconnect(ToAuto, ReconnectAt.Lock)))
    ensures var pc := ThreadOf(s, l.t).pc;
            if o.pc.AutoDecide?
            then pc.Probe? && pc.pk.ProbeToAuto? && NextProbe(cfg, s.sh, pc.pk, pc.pr, l.ch) == Some(o)
            else pc.AutoDecide?
  {
    var th := ThreadOf(s, l.t);
    if th.pc.Idle? {
      IdleNotAuto(cfg, s.sh, l.t, th.home, l.ch);
    } else if InLifecycle(th.pc) {
      LifecycleNotAuto(cfg, s.sh, th.pc, l.ch, l.child);
    } else if !InTeardown(th.pc) {
      ObserverToAuto(cfg, s.sh, th.pc, l.ch);
    }
  }

  /** On the way to the AutoReconnector's Reconnect. */
  predicate ToAutoReconnect(pc: PC) {
    pc.AutoDecide? || pc == Reconnect(ToAuto, ReconnectAt.Lock)
  }

  lemma IdleNotAuto(cfg: Config, sh: Shared, t: Tid, home: Home, ch: Choice)
    requires NextIdle(cfg, sh, t, home, ch).Some?
    ensures !ToAutoReconnect(NextIdle(cfg, sh, t, home, ch).value.pc)
  {
  }

  lemma ObserverToAuto(cfg: Config, sh: Shared, pc: PC, ch: Choice)
    requires NextObserver(cfg, sh, pc, ch).Some? && ToAutoReconnect(NextObserver(cfg, sh, pc, ch).value.pc)
    ensures if NextObserver(cfg, sh, pc, ch).value.pc.AutoDecide? then pc.Probe? && pc.pk.ProbeToAuto?
            else pc.AutoDecide?
  {
  }

  lemma LifecycleNotAuto(cfg: Config, sh: Shared, pc: PC, ch: Choice, child: Tid)
    requires NextLifecycle(cfg, sh, pc, ch, child).Some?
    ensures !ToAutoReconnect(NextLifecycle(cfg, sh, pc, ch, child).value.pc)
  {
  }

  lemma ProbeFinds(cfg: Config, sh: Shared, at: ProbeAt, ch: Choice)
    requires NextProbe(cfg, sh, ProbeToAuto, at, ch).Some?
    requires NextProbe(cfg, sh, ProbeToAuto, at, ch).value.pc.AutoDecide?
    ensures !NextProbe(cfg, sh, ProbeToAuto, at, ch).value.sh.pools.connected || sh.closing || sh.pools.db.None?
  {
  }

  /** The AutoReconnector comes to a Reconnect only after the IsConnected of the same tick has found the
      plugin disconnected, closing or without a pool, or has marked it as disconnected. */
  lemma ReconnectsWhenDown(cfg: Config, states: seq<State>, labels: seq<Label>, i: nat, t: Tid) returns (a: nat)
    requires IsRun(cfg, states, labels) && i < |states|
    requires ThreadOf(states[i], t).pc == Reconnect(ToAuto, ReconnectAt.Lock)
    ensures a + 1 < i && ThreadOf(states[a], t).pc.Probe? && ThreadOf(states[a + 1], t).pc.AutoDecide?
    ensures !states[a + 1].sh.pools.connected || states[a].sh.closing || states[a].sh.pools.db.None?
    ensures forall m :: a < m <= i ==> !ThreadOf(states[m], t).pc.Probe?
  {
    var o: Out;
    var b: nat;
    b, o := LastAction(cfg, states, labels, i, t);
    AutoFrom(cfg, states[b], labels[b], o);
    a, o := LastAction(cfg, states, labels, b, t);
    AutoFrom(cfg, states[a], labels[a], o);
    ProbeFinds(cfg, states[a].sh, ThreadOf(states[a], t).pc.pr, labels[a].ch);
    var next := OutcomeOf(cfg, states, labels, a);
    assert next == o;
  }

  // ---------------------------------------------------------------- warmup

  lemma LifecycleNotWarm(cfg: Config, sh: Shared, pc: PC, ch: Choice, child: Tid)
    requires NextLifecycle(cfg, sh, pc, ch, child).Some?
    ensures !NextLifecycle(cfg, sh, pc, ch, child).value.pc.Warm?
  {
  }

  lemma WarmFrom(cfg: Config, s: State, l: Label, o: Out)
    requires Actual(cfg, s, l, o) && o.pc.Warm? && !o.pc.wa.Closing?
    ensures var pc := ThreadOf(s, l.t).pc; pc.Warm? && NextWarm(s.sh, pc.wa) == Some(o)
  {
    if InLifecycle(ThreadOf(s, l.t).pc) {
      LifecycleNotWarm(cfg, s.sh, ThreadOf(s, l.t).pc, l.ch, l.child);
    }
  }

  /** The warmup fills a pool only after it has found `closing` false, then `connected` true, then that
      pool in `db`. */
  lemma FillsWhenConnected(cfg: Config, states: seq<State>, labels: seq<Label>, i: nat, t: Tid, d: PoolId)
      returns (a: nat, b: nat, c: nat)
    requires IsRun(cfg, states, labels) && i < |states| && ThreadOf(states[i], t).pc == Warm(Fill(d))
    ensures a < b < c < i
    ensures !states[a].sh.closing && states[b].sh.pools.connected && states[c].sh.pools.db == Some(d)
    ensures forall m :: a < m <= i ==> ThreadOf(states[m], t).pc.Warm?
  {
    var o: Out;
    var r: nat;
    c, o := LastAction(cfg, states, labels, i, t);
    WarmFrom(cfg, states[c], labels[c], o);
    r, o := LastAction(cfg, states, labels, c, t);
    WarmFrom(cfg, states[r], labels[r], o);
    b, o := LastAction(cfg, states, labels, r, t);
    WarmFrom(cfg, states[b], labels[b], o);
    a := WarmBegan(cfg, states, labels, b, t);
  }

  /** A warmup that looks at `connected` has looked at `closing`. */
  lemma WarmBegan(cfg: Config, states: seq<State>, labels: seq<Label>, i: nat, t: Tid) returns (a: nat)
    requires IsRun(cfg, states, labels) && i < |states| && ThreadOf(states[i], t).pc == Warm(WarmAt.Flag)
    ensures a < i && !states[a].sh.closing && forall m :: a < m <= i ==> ThreadOf(states[m], t).pc.Warm?
  {
    var o: Out;
    a, o := LastAction(cfg, states, labels, i, t);
    WarmFrom(cfg, states[a], labels[a], o);
  }

  // ---------------------------------------------------------------- the end of a background goroutine

  lemma ExitFrom(cfg: Config, s: State, l: Label, o: Out)
    requires Actual(cfg, s, l, o) && o.pc.Exited?
    ensures var th := ThreadOf(s, l.t);
            || th.pc.Stopping? || th.pc.Shutting?
            || (th.pc.Idle? && NextIdle(cfg, s.sh, l.t, th.home, l.ch) == Some(o))
  {
    var pc := ThreadOf(s, l.t).pc;
    if InLifecycle(pc) {
      LifecycleExitsNot(cfg, s.sh, pc, l.ch, l.child);
    } else if InTeardown(pc) {
    } else if !pc.Idle? {
      ObserverExitsNot(cfg, s.sh, pc, l.ch);
    }
  }

  lemma LifecycleExitsNot(cfg: Config, sh: Shared, pc: PC, ch: Choice, child: Tid)
    requires NextLifecycle(cfg, sh, pc, ch, child).Some?
    ensures !NextLifecycle(cfg, sh, pc, ch, child).value.pc.Exited?
  {
  }

  lemma ObserverExitsNot(cfg: Config, sh: Shared, pc: PC, ch: Choice)
    requires NextObserver(cfg, sh, pc, ch).Some?
    ensures !NextObserver(cfg, sh, pc, ch).value.pc.Exited?
  {
  }

  /** A component, the warmup and the stats reporter end only when the plugin's context was cancelled, or,
      a component, when its own channel was closed. */
  lemma ExitsWhenTold(cfg: Config, states: seq<State>, labels: seq<Label>, i: nat, t: Tid) returns (a: nat)
    requires IsRun(cfg, states, labels) && i < |states|
    requires var th := ThreadOf(states[i], t);
             th.pc.Exited? && (th.home.Worker? || th.home.Warmer? || th.home.Reporter?)
    ensures a < i && ThreadOf(states[a], t).pc.Idle?
    ensures var home, sh := ThreadOf(states[i], t).home, states[a].sh;
            sh.cancelled || (home.Worker? && home.c in sh.bg.stopped)
  {
    var o: Out;
    a, o := LastAction(cfg, states, labels, i, t);
    ExitFrom(cfg, states[a], labels[a], o);
    HomeAt(cfg, states, labels, a, t);
  }

  lemma HomeAt(cfg: Config, states: seq<State>, labels: seq<Label>, i: nat, t: Tid)
    requires IsRun(cfg, states, labels) && i < |states|
    ensures HomeOk(ThreadOf(states[i], t))
  {
    RunInv(cfg, states, labels, i);
  }
}
