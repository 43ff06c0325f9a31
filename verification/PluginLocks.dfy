/**
 Who holds which lock, and that the bookkeeping of the two locks is always right: at most one holder
 of lifecycleMu, at most one writer of mu, and no reader inside a write section.
 */
module PluginLocks {
  import opened Wrappers
  import opened PluginMachine

  /** Holds lifecycleMu. */
  predicate HoldsLifecycle(pc: PC) {
    || (pc.Startup? && !pc.st.Lock?)
    || (pc.Reconnect? && !pc.re.Lock?)
    || (pc.Shutting? && !pc.cz.Lock?)
    || pc.Connecting? || pc.Publishing? || pc.Announcing? || pc.Finishing?
  }

  /** Has announced itself as writer of mu: new readers and writers wait. */
  predicate Writes(pc: PC) {
    || (pc.Startup? && (pc.st.DrainMu? || pc.st.StoreComponents? || pc.st.UnlockMu?))
    || (pc.Reconnect? &&
        (pc.re.DrainMu? || pc.re.CheckClosing? || pc.re.CheckCtx? || pc.re.Snapshot? || pc.re.UnlockMu?))
    || (pc.Connecting? && pc.co.UnlockMu?)
    || (pc.Publishing? && (pc.pu.DrainMu? || pc.pu.StoreDb? || pc.pu.StoreConnected? || pc.pu.UnlockMu?))
    || (pc.Shutting? && (pc.cz.DrainMu? || pc.cz.CloseDb? || pc.cz.NilDb? || pc.cz.ClearConnected? || pc.cz.UnlockMu?))
    || (pc.Setting? && !pc.se.LockMu?)
  }

  /** Still waits for the readers that came before it. */
  predicate Draining(pc: PC) {
    || (pc.Startup? && pc.st.DrainMu?)
    || (pc.Reconnect? && pc.re.DrainMu?)
    || (pc.Publishing? && pc.pu.DrainMu?)
    || (pc.Shutting? && pc.cz.DrainMu?)
    || (pc.Setting? && pc.se.DrainMu?)
  }

  /** Inside a write section of mu. */
  predicate OwnsMu(pc: PC) {
    Writes(pc) && !Draining(pc)
  }

  /** Inside a read section of mu. */
  predicate Reads(pc: PC) {
    || (pc.Announcing? && pc.an.Read?)
    || (pc.Probe? && pc.pr.Read?)
    || (pc.Get? && (pc.ge.Read? || pc.ge.ReadAgain?))
    || (pc.Health? && pc.he.Read?)
    || (pc.Check? && (pc.ck.Read? || pc.ck.ReadAgain?))
    || (pc.Stats? && !pc.sa.RLock?)
    || (pc.Warm? && pc.wa.Read?)
    || (pc.Cleanup? && pc.cl.Read?)
  }

  predicate LockFree(pc: PC) {
    !HoldsLifecycle(pc) && !Writes(pc) && !Reads(pc)
  }

  /** The locks know goroutine `t` as what its program counter says it is. */
  ghost predicate LockThread(s: State, t: Tid)
    requires t in s.threads
  {
    var pc := s.threads[t].pc;
    && (HoldsLifecycle(pc) <==> s.locks.lifecycleMu == Some(t))
    && (Writes(pc) <==> s.locks.writer == Some(t))
    && (Reads(pc) <==> t in s.locks.readers)
    && (OwnsMu(pc) ==> s.locks.readers == {})
  }

  ghost predicate LockInv(s: State) {
    && (forall t :: t in s.threads ==> LockThread(s, t))
    && (s.locks.lifecycleMu.Some? ==> s.locks.lifecycleMu.value in s.threads)
    && (s.locks.writer.Some? ==> s.locks.writer.value in s.threads)
    && (forall t :: t in s.locks.readers ==> t in s.threads)
  }

  /** The program counters agree with what the action does to the locks. */
  ghost predicate LockStep(pc: PC, op: LockOp, pc': PC) {
    && HoldsLifecycle(pc') == (op.LockLifecycle? || (HoldsLifecycle(pc) && !op.UnlockLifecycle?))
    && (op.LockLifecycle? ==> !HoldsLifecycle(pc))
    && (op.UnlockLifecycle? ==> HoldsLifecycle(pc))
    && Writes(pc') == (op.Announce? || (Writes(pc) && !op.UnlockWriter?))
    && OwnsMu(pc') == (op.Drain? || (OwnsMu(pc) && !op.UnlockWriter?))
    && (op.Announce? ==> !Writes(pc))
    && (op.Drain? ==> Writes(pc))
    && (op.UnlockWriter? ==> Writes(pc))
    && Reads(pc') == (op.LockReader? || (Reads(pc) && !op.UnlockReader?))
    && (op.UnlockReader? ==> Reads(pc))
  }

  ghost predicate OutLocks(pc: PC, o: Out) {
    && LockStep(pc, o.lock, o.pc)
    && (o.spawn.Some? ==> LockFree(o.spawn.value.pc))
  }

  /** An operation returns to its caller without any lock. */
  lemma ReconnectReturnsFree(k: AfterReconnect, ok: bool)
    ensures LockFree(AfterReconnecting(k, ok))
  {
  }

  lemma ProbeReturnsFree(cfg: Config, k: AfterProbe, b: bool)
    ensures LockFree(AfterProbing(cfg, k, b))
  {
  }

  lemma StartupLocksFirst(cfg: Config, sh: Shared, at: StartAt, ch: Choice, child: Tid)
    requires at.Lock? || at.CheckConnected? || at.CheckClosing? || at.CheckCtx? || at.Release?
    requires NextStartup(cfg, sh, at, ch, child).Some?
    ensures OutLocks(Startup(at), NextStartup(cfg, sh, at, ch, child).value)
  {
  }

  lemma StartupLocksSecond(cfg: Config, sh: Shared, at: StartAt, ch: Choice, child: Tid)
    requires at.SpawnWarmer? || at.LockMu? || at.DrainMu?
    requires NextStartup(cfg, sh, at, ch, child).Some?
    ensures OutLocks(Startup(at), NextStartup(cfg, sh, at, ch, child).value)
  {
  }

  lemma StartupLocks(cfg: Config, sh: Shared, at: StartAt, ch: Choice, child: Tid)
    requires NextStartup(cfg, sh, at, ch, child).Some?
    ensures OutLocks(Startup(at), NextStartup(cfg, sh, at, ch, child).value)
  {
    if at.SpawnWarmer? || at.LockMu? || at.DrainMu? {
      StartupLocksSecond(cfg, sh, at, ch, child);
    } else if at.Lock? || at.CheckConnected? || at.CheckClosing? || at.CheckCtx? || at.Release? {
      StartupLocksFirst(cfg, sh, at, ch, child);
    }
  }

  lemma ReconnectLocksFirst(sh: Shared, k: AfterReconnect, at: ReconnectAt, ch: Choice)
    requires at.Lock? || at.LockMu? || at.DrainMu? || at.CheckClosing?
    requires NextReconnect(sh, k, at, ch).Some?
    ensures OutLocks(Reconnect(k, at), NextReconnect(sh, k, at, ch).value)
  {
  }

  lemma ReconnectLocks(sh: Shared, k: AfterReconnect, at: ReconnectAt, ch: Choice)
    requires NextReconnect(sh, k, at, ch).Some?
    ensures OutLocks(Reconnect(k, at), NextReconnect(sh, k, at, ch).value)
  {
    if at.Lock? || at.LockMu? || at.DrainMu? || at.CheckClosing? {
      ReconnectLocksFirst(sh, k, at, ch);
    } else if at.Release? {
      ReconnectReturnsFree(k, false);
    }
  }

  lemma ConnectLocksFirst(cfg: Config, sh: Shared, o: Owner, at: ConnectAt, ch: Choice)
    requires at.UnlockMu? || at.Begin? || at.Head? || at.Wait? || at.Open?
    requires NextConnect(cfg, sh, o, at, ch).Some?
    ensures OutLocks(Connecting(o, at), NextConnect(cfg, sh, o, at, ch).value)
  {
  }

  lemma ConnectLocksSecond(cfg: Config, sh: Shared, o: Owner, at: ConnectAt, ch: Choice)
    requires at.Ping? || at.Verify? || at.Drop?
    requires NextConnect(cfg, sh, o, at, ch).Some?
    ensures OutLocks(Connecting(o, at), NextConnect(cfg, sh, o, at, ch).value)
  {
  }

  lemma ConnectLocks(cfg: Config, sh: Shared, o: Owner, at: ConnectAt, ch: Choice)
    requires NextConnect(cfg, sh, o, at, ch).Some?
    ensures OutLocks(Connecting(o, at), NextConnect(cfg, sh, o, at, ch).value)
  {
    if at.Ping? || at.Verify? || at.Drop? {
      ConnectLocksSecond(cfg, sh, o, at, ch);
    } else if at.UnlockMu? || at.Begin? || at.Head? || at.Wait? || at.Open? {
      ConnectLocksFirst(cfg, sh, o, at, ch);
    } else if at.GaveUp? && o.ByReconnect? {
      ReconnectReturnsFree(o.k, false);
    }
  }

  lemma PublishLocksFirst(sh: Shared, o: Owner, at: PublishAt, ch: Choice)
    requires at.CheckStale? || at.Discard? || at.LockMu? || at.DrainMu?
    requires NextPublish(sh, o, at, ch).Some?
    ensures OutLocks(Publishing(o, at), NextPublish(sh, o, at, ch).value)
  {
  }

  lemma PublishLocks(sh: Shared, o: Owner, at: PublishAt, ch: Choice)
    requires NextPublish(sh, o, at, ch).Some?
    ensures OutLocks(Publishing(o, at), NextPublish(sh, o, at, ch).value)
  {
    if at.CheckStale? || at.Discard? || at.LockMu? || at.DrainMu? {
      PublishLocksFirst(sh, o, at, ch);
    }
  }

  lemma AnnounceLocks(cfg: Config, sh: Shared, o: Owner, at: AnnounceAt, ch: Choice)
    requires NextAnnounce(cfg, sh, o, at, ch).Some?
    ensures OutLocks(Announcing(o, at), NextAnnounce(cfg, sh, o, at, ch).value)
  {
  }

  lemma ProbeLocksFirst(cfg: Config, sh: Shared, k: AfterProbe, at: ProbeAt, ch: Choice)
    requires at.Flag? || at.Closing? || at.RLock?
    requires NextProbe(cfg, sh, k, at, ch).Some?
    ensures OutLocks(Probe(k, at), NextProbe(cfg, sh, k, at, ch).value)
  {
    ProbeReturnsFree(cfg, k, false);
  }

  lemma ProbeLocks(cfg: Config, sh: Shared, k: AfterProbe, at: ProbeAt, ch: Choice)
    requires NextProbe(cfg, sh, k, at, ch).Some?
    ensures OutLocks(Probe(k, at), NextProbe(cfg, sh, k, at, ch).value)
  {
    if at.Flag? || at.Closing? || at.RLock? {
      ProbeLocksFirst(cfg, sh, k, at, ch);
    } else {
      ProbeReturnsFree(cfg, k, true);
      ProbeReturnsFree(cfg, k, false);
    }
  }

  lemma GetLocksFirst(cfg: Config, sh: Shared, g: AfterGet, at: GetAt, ch: Choice)
    requires at.CheckCtx? || at.RLock? || at.Read? || at.Alive?
    requires NextGet(cfg, sh, g, at, ch).Some?
    ensures OutLocks(Get(g, at), NextGet(cfg, sh, g, at, ch).value)
  {
  }

  lemma GetLocks(cfg: Config, sh: Shared, g: AfterGet, at: GetAt, ch: Choice)
    requires NextGet(cfg, sh, g, at, ch).Some?
    ensures OutLocks(Get(g, at), NextGet(cfg, sh, g, at, ch).value)
  {
    if at.CheckCtx? || at.RLock? || at.Read? || at.Alive? {
      GetLocksFirst(cfg, sh, g, at, ch);
    }
  }

  lemma HealthLocks(sh: Shared, at: HealthAt, ch: Choice)
    requires NextHealth(sh, at, ch).Some?
    ensures OutLocks(Health(at), NextHealth(sh, at, ch).value)
  {
  }

  lemma CheckLocks(cfg: Config, sh: Shared, at: CheckAt, ch: Choice)
    requires NextCheck(cfg, sh, at, ch).Some?
    ensures OutLocks(Check(at), NextCheck(cfg, sh, at, ch).value)
  {
  }

  lemma StatsLocks(sh: Shared, at: StatsAt)
    requires NextStats(sh, at).Some?
    ensures OutLocks(Stats(at), NextStats(sh, at).value)
  {
  }

  lemma WarmLocks(sh: Shared, at: WarmAt)
    requires NextWarm(sh, at).Some?
    ensures OutLocks(Warm(at), NextWarm(sh, at).value)
  {
  }

  lemma CleanupLocksFirst(sh: Shared, at: CleanupAt, ch: Choice, child: Tid)
    requires at.Cas? || at.Cancel? || at.RLock? || at.Read?
    requires NextCleanup(sh, at, ch, child).Some?
    ensures OutLocks(Cleanup(at), NextCleanup(sh, at, ch, child).value)
  {
  }

  lemma CleanupLocks(sh: Shared, at: CleanupAt, ch: Choice, child: Tid)
    requires NextCleanup(sh, at, ch, child).Some?
    ensures OutLocks(Cleanup(at), NextCleanup(sh, at, ch, child).value)
  {
    if at.Cas? || at.Cancel? || at.RLock? || at.Read? {
      CleanupLocksFirst(sh, at, ch, child);
    }
  }

  lemma ShuttingLocksFirst(sh: Shared, t: Tid, at: CloseAt)
    requires at.Lock? || at.LockMu? || at.DrainMu? || at.CloseDb?
    requires NextShutting(sh, t, at).Some?
    ensures OutLocks(Shutting(at), NextShutting(sh, t, at).value)
  {
  }

  lemma ShuttingLocks(sh: Shared, t: Tid, at: CloseAt)
    requires NextShutting(sh, t, at).Some?
    ensures OutLocks(Shutting(at), NextShutting(sh, t, at).value)
  {
    if at.Lock? || at.LockMu? || at.DrainMu? || at.CloseDb? {
      ShuttingLocksFirst(sh, t, at);
    }
  }

  lemma SettingLocks(sh: Shared, at: SetAt)
    requires NextSetting(sh, at).Some?
    ensures OutLocks(Setting(at), NextSetting(sh, at).value)
  {
  }

  lemma LifecycleLocks(cfg: Config, sh: Shared, pc: PC, ch: Choice, child: Tid)
    requires NextLifecycle(cfg, sh, pc, ch, child).Some?
    ensures OutLocks(pc, NextLifecycle(cfg, sh, pc, ch, child).value)
  {
    match pc
    case Startup(st) => StartupLocks(cfg, sh, st, ch, child);
    case Reconnect(k, re) => ReconnectLocks(sh, k, re, ch);
    case Connecting(o, co) => ConnectLocks(cfg, sh, o, co, ch);
    case Publishing(o, pu) => PublishLocks(sh, o, pu, ch);
    case Announcing(o, an) => AnnounceLocks(cfg, sh, o, an, ch);
    case Finishing(o) => if o.ByReconnect? { ReconnectReturnsFree(o.k, true); }
  }

  lemma ObserverLocks(cfg: Config, sh: Shared, pc: PC, ch: Choice)
    requires NextObserver(cfg, sh, pc, ch).Some?
    ensures OutLocks(pc, NextObserver(cfg, sh, pc, ch).value)
  {
    match pc
    case Probe(k, pr) => ProbeLocks(cfg, sh, k, pr, ch);
    case AutoDecide =>
    case Get(g, ge) => GetLocks(cfg, sh, g, ge, ch);
    case Validate(again, va) =>
    case Health(he) => HealthLocks(sh, he, ch);
    case Check(ck) => CheckLocks(cfg, sh, ck, ch);
    case Stats(sa) => StatsLocks(sh, sa);
    case Warm(wa) => WarmLocks(sh, wa);
    case Setting(se) => SettingLocks(sh, se);
  }

  lemma TeardownLocks(sh: Shared, t: Tid, pc: PC, ch: Choice, child: Tid)
    requires NextTeardown(sh, t, pc, ch, child).Some?
    ensures OutLocks(pc, NextTeardown(sh, t, pc, ch, child).value)
  {
    match pc
    case Cleanup(cl) => CleanupLocks(sh, cl, ch, child);
    case Stopping(rest) =>
    case Waiting(rest) =>
    case Shutting(cz) => ShuttingLocks(sh, t, cz);
  }

  lemma NextLocks(cfg: Config, sh: Shared, t: Tid, th: Thread, ch: Choice, child: Tid)
    requires Next(cfg, sh, t, th, ch, child).Some?
    ensures OutLocks(th.pc, Next(cfg, sh, t, th, ch, child).value)
  {
    if th.pc.Idle? {
    } else if InLifecycle(th.pc) {
      LifecycleLocks(cfg, sh, th.pc, ch, child);
    } else if InTeardown(th.pc) {
      TeardownLocks(sh, t, th.pc, ch, child);
    } else {
      ObserverLocks(cfg, sh, th.pc, ch);
    }
  }

  lemma MoveLockThread(s: State, t: Tid, op: LockOp, s': State, u: Tid)
    requires LockInv(s) && LockEnabled(op, s.locks) && s'.locks == LockEffect(op, s.locks, t)
    requires t in s'.threads && LockStep(ThreadOf(s, t).pc, op, s'.threads[t].pc)
    requires u in s'.threads
    requires u != t ==> if u in s.threads then s'.threads[u] == s.threads[u] else LockFree(s'.threads[u].pc)
    ensures LockThread(s', u)
  {
    assert t in s.threads ==> LockThread(s, t);
    assert u in s.threads ==> LockThread(s, u);
  }

  /** A lock step of one goroutine keeps the bookkeeping right, whatever else it does. */
  lemma MoveLocks(s: State, t: Tid, op: LockOp, s': State)
    requires LockInv(s) && LockEnabled(op, s.locks) && s'.locks == LockEffect(op, s.locks, t)
    requires t in s'.threads && LockStep(ThreadOf(s, t).pc, op, s'.threads[t].pc)
    requires forall u :: u in s.threads && u != t ==> u in s'.threads && s'.threads[u] == s.threads[u]
    requires forall u :: u in s'.threads && u != t && u !in s.threads ==> LockFree(s'.threads[u].pc)
    ensures LockInv(s')
  {
    forall u | u in s'.threads ensures LockThread(s', u) {
      MoveLockThread(s, t, op, s', u);
    }
  }

  lemma ApplyLocks(s: State, l: Label, o: Out)
    requires LockInv(s) && Allowed(s, l, o) && OutLocks(ThreadOf(s, l.t).pc, o)
    ensures LockInv(Apply(s, l, o))
  {
    MoveLocks(s, l.t, o.lock, Apply(s, l, o));
  }
}
