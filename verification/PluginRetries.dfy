/**
 What the metrics recorder is told about retries: over all Startups and Reconnects together no more than
 the configured number for each attempt.
 */
module PluginRetries {
  import opened Wrappers
  import opened PluginMachine
  import opened PluginLocks
  import opened PluginReachable

  /** Retries one attempt may make. */
  function Limit(cfg: Config): nat {
    if cfg.retryEnabled then cfg.retryMaxAttempts else 0
  }

  /** In the loop: how many times it has gone round, and how many retries it has counted. */
  predicate InLoop(pc: PC) {
    pc.Connecting? && !pc.co.UnlockMu? && !pc.co.Begin? && !pc.co.Succeeded? && !pc.co.GaveUp?
  }

  function Round(co: ConnectAt): nat {
    match co
    case Head(n) => n
    case Wait(n) => n
    case Open(n) => n
    case Ping(n, _) => n
    case Verify(n, _) => n
    case Drop(n, _) => n
    case Failed(n) => n
    case _ => 0
  }

  function Counted(co: ConnectAt): nat {
    if co.Head? && co.n > 0 then co.n - 1 else Round(co)
  }

  ghost predicate RetriesOk(cfg: Config, m: Metrics, pc: PC) {
    if InLoop(pc)
    then Round(pc.co) <= Limit(cfg) && m.retries + Limit(cfg) <= Limit(cfg) * m.attempts + Counted(pc.co)
    else m.retries <= Limit(cfg) * m.attempts
  }

  lemma OneMore(limit: nat, attempts: nat)
    ensures limit * (attempts + 1) == limit * attempts + limit
  {
  }

  lemma ConnectRetries(cfg: Config, sh: Shared, o: Owner, at: ConnectAt, ch: Choice)
    requires NextConnect(cfg, sh, o, at, ch).Some? && RetriesOk(cfg, sh.metrics, Connecting(o, at))
    ensures var n := NextConnect(cfg, sh, o, at, ch).value; RetriesOk(cfg, n.sh.metrics, n.pc)
  {
    OneMore(Limit(cfg), sh.metrics.attempts);
  }

  /** Nobody else counts attempts or retries, or is in the loop. */
  ghost predicate OutRetries(sh: Shared, o: Out) {
    o.sh.metrics.attempts == sh.metrics.attempts && o.sh.metrics.retries == sh.metrics.retries && !InLoop(o.pc)
  }

  lemma LifecycleRetries(cfg: Config, sh: Shared, pc: PC, ch: Choice, child: Tid)
    requires NextLifecycle(cfg, sh, pc, ch, child).Some? && !pc.Connecting?
    ensures OutRetries(sh, NextLifecycle(cfg, sh, pc, ch, child).value)
  {
  }

  lemma ObserverRetries(cfg: Config, sh: Shared, pc: PC, ch: Choice)
    requires NextObserver(cfg, sh, pc, ch).Some?
    ensures OutRetries(sh, NextObserver(cfg, sh, pc, ch).value)
  {
  }

  lemma TeardownRetries(sh: Shared, t: Tid, pc: PC, ch: Choice, child: Tid)
    requires NextTeardown(sh, t, pc, ch, child).Some?
    ensures OutRetries(sh, NextTeardown(sh, t, pc, ch, child).value)
  {
  }

  lemma IdleRetries(cfg: Config, sh: Shared, t: Tid, home: Home, ch: Choice)
    requires NextIdle(cfg, sh, t, home, ch).Some?
    ensures OutRetries(sh, NextIdle(cfg, sh, t, home, ch).value)
  {
  }

  lemma ActionRetries(cfg: Config, s: State, l: Label, o: Out)
    requires Actual(cfg, s, l, o) && !ThreadOf(s, l.t).pc.Connecting?
    ensures OutRetries(s.sh, o)
  {
    var th := ThreadOf(s, l.t);
    if th.pc.Idle? {
      IdleRetries(cfg, s.sh, l.t, th.home, l.ch);
    } else if InLifecycle(th.pc) {
      LifecycleRetries(cfg, s.sh, th.pc, l.ch, l.child);
    } else if InTeardown(th.pc) {
      TeardownRetries(s.sh, l.t, th.pc, l.ch, l.child);
    } else {
      ObserverRetries(cfg, s.sh, th.pc, l.ch);
    }
  }

  lemma ConnectAction(cfg: Config, s: State, l: Label, o: Out)
    requires Actual(cfg, s, l, o) && ThreadOf(s, l.t).pc.Connecting?
    ensures NextConnect(cfg, s.sh, ThreadOf(s, l.t).pc.o, ThreadOf(s, l.t).pc.co, l.ch) == Some(o)
  {
  }

  lemma LoopHolds(pc: PC)
    ensures InLoop(pc) ==> HoldsLifecycle(pc)
  {
  }

  lemma RetriesKept(cfg: Config, s: State, l: Label, o: Out)
    requires Inv(cfg, s) && Does(cfg, s, l, o) && Actual(cfg, s, l, o)
    requires RetriesOk(cfg, s.sh.metrics, HolderPC(s))
    ensures RetriesOk(cfg, o.sh.metrics, HolderPC(Apply(s, l, o)))
  {
    var pc := ThreadOf(s, l.t).pc;
    HolderFollows(s, l, o);
    LoopHolds(o.pc);
    if pc.Connecting? {
      ConnectAction(cfg, s, l, o);
      ConnectRetries(cfg, s.sh, pc.o, pc.co, l.ch);
    } else {
      ActionRetries(cfg, s, l, o);
    }
  }

  /** At most the configured number of retries for each attempt, and none outside retry mode. */
  lemma RetriesBounded(cfg: Config, states: seq<State>, labels: seq<Label>, i: nat)
    requires IsRun(cfg, states, labels) && i < |states|
    ensures states[i].sh.metrics.retries <= Limit(cfg) * states[i].sh.metrics.attempts
  {
    var P := (s: State) => RetriesOk(cfg, s.sh.metrics, HolderPC(s));
    forall s, l, o | Inv(cfg, s) && Does(cfg, s, l, o) && Actual(cfg, s, l, o) && P(s) ensures P(Apply(s, l, o)) {
      RetriesKept(cfg, s, l, o);
    }
    RunKeepsActual(cfg, states, labels, 0, i, P);
    if InLoop(HolderPC(states[i])) {
      assert Counted(HolderPC(states[i]).co) <= Round(HolderPC(states[i]).co);
    }
  }
}
