/**
 What each goroutine knows on its own: the balance of the connect metrics, the pool announced to the
 runtime, and facts about its own program counter that no other goroutine can destroy.
 */
module PluginLocal {
  import opened Wrappers
  import opened PluginMachine
  import opened PluginInvariant

  // ---------------------------------------------------------------- connect metrics

  /** A connect whose attempt has been counted and whose outcome has not. */
  predicate InFlight(pc: PC) {
    pc.Connecting? && !pc.co.UnlockMu? && !pc.co.Begin? && !pc.co.GaveUp?
  }

  /** A connect counted as success whose pool is neither published nor thrown away. */
  predicate HasSuccess(pc: PC) {
    pc.Publishing? && PhaseOf(pc).Candidate?
  }

  /** Both are zero in every reachable state, for the holder's program counter. */
  function Imbalance(sh: Shared, pc: PC): (int, int) {
    var m := sh.metrics;
    (m.attempts - m.successes - m.failures - m.cancellations - One(InFlight(pc)),
     m.successes - |sh.pools.history| - m.discards - One(HasSuccess(pc)))
  }

  // ---------------------------------------------------------------- resource contract

  function Latest(s: seq<PoolId>): Option<PoolId> {
    if s == [] then None else Some(s[|s| - 1])
  }

  /** Has published a pool and not yet announced it. */
  predicate Unannounced(pc: PC) {
    HasPublished(PhaseOf(pc)) && !pc.Finishing?
  }

  ghost predicate AnnounceInv(cfg: Config, sh: Shared, pc: PC) {
    && (cfg.hasRuntime && !sh.runtime.refused && !Unannounced(pc) ==> sh.runtime.registered == Latest(sh.pools.history))
    && (pc.Announcing? && pc.an.Register? ==> pc.an.snap == Latest(sh.pools.history))
  }

  // ---------------------------------------------------------------- per goroutine

  /** The program counters a background goroutine can have. */
  predicate InBackground(pc: PC) {
    || pc.Idle? || pc.Exited? || pc.Health? || pc.Stats? || pc.Warm? || pc.AutoDecide?
    || (pc.Probe? && pc.pk == ProbeToAuto)
    || (pc.Reconnect? && pc.k == ToAuto)
    || ((pc.Connecting? || pc.Publishing? || pc.Announcing? || pc.Finishing?) && pc.o.ByReconnect? && pc.o.k == ToAuto)
  }

  predicate HomeOk(th: Thread) {
    match th.home
    case Caller => !th.pc.Exited? && !th.pc.Stopping? && !th.pc.Waiting? && !th.pc.Shutting?
    case Phase1 => th.pc.Stopping? || th.pc.Waiting? || th.pc.Exited?
    case Phase2 => th.pc.Shutting? || th.pc.Exited?
    case _ => InBackground(th.pc)
  }

  ghost predicate LocalOk(sh: Shared, pc: PC) {
    && (pc.Get? ==> sh.pools.history != [])
    && (pc.Get? && pc.ge.Alive? && pc.ge.snap.None? ==> sh.pools.shut)
    && (pc.Get? && pc.ge.Return? && pc.ge.snap.None? ==> sh.pools.shut)
    && (pc.Validate? && pc.va.Conn? && pc.va.snap.None? ==> sh.pools.shut)
    && (pc.Crashed? ==> sh.pools.shut)
    && (pc.Probe? && (pc.pr.Cache? || pc.pr.Ping?) ==> sh.pools.history != [])
    && (pc.Publishing? && (pc.pu.CheckStale? || pc.pu.Discard?) ==> pc.o.ByStartup?)
    && (pc.Publishing? && pc.pu.CloseOld? ==> pc.o.ByReconnect? && pc.o.seen.Some?)
    && (pc.Cleanup? && !pc.cl.Cas? ==> sh.closing)
    && (pc.Cleanup? && !pc.cl.Cas? && !pc.cl.Cancel? ==> sh.cancelled)
    && (pc.Stopping? || pc.Waiting? || pc.Shutting? ==> sh.closing && sh.cancelled)
    && (pc.Waiting? ==> pc.rest != [] && pc.rest[0] in sh.bg.stopped)
  }

  /** Everything LocalOk depends on only grows. */
  ghost predicate Grows(sh: Shared, sh': Shared) {
    && (sh.pools.history != [] ==> sh'.pools.history != [])
    && (sh.pools.shut ==> sh'.pools.shut)
    && (sh.closing ==> sh'.closing)
    && (sh.cancelled ==> sh'.cancelled)
    && sh.bg.stopped <= sh'.bg.stopped
    && sh.bg.done1 <= sh'.bg.done1
    && sh.bg.done2 <= sh'.bg.done2
  }

  lemma LocalStable(sh: Shared, sh': Shared, pc: PC)
    requires LocalOk(sh, pc) && Grows(sh, sh')
    ensures LocalOk(sh', pc)
  {
  }

  /** What the invariant of the pools tells a goroutine that is about to move. */
  ghost predicate Known(sh: Shared, pc: PC) {
    && (sh.pools.db.None? ==> sh.pools.history == [] || sh.pools.shut)
    && (sh.pools.db.Some? ==> sh.pools.history != [])
    && (HasPublished(PhaseOf(pc)) ==> sh.pools.db.Some? && sh.pools.db == Latest(sh.pools.history))
  }

  /** About to store its pool into `db`. */
  predicate Stores(pc: PC) {
    pc.Publishing? && pc.pu.StoreDb?
  }

  /** A Startup past its check of `closing`: it may still start background goroutines. */
  predicate StartupUnderWay(pc: PC) {
    || (pc.Startup? && !pc.st.Lock? && !pc.st.CheckConnected? && !pc.st.CheckClosing? && !pc.st.Release?)
    || ((pc.Connecting? || pc.Publishing?) && pc.o.ByStartup?)
  }

  /** Nothing that is waited for is started or replaced. */
  ghost predicate StartsNothing(sh: Shared, o: Out) {
    && !(o.pc.Startup? && o.pc.st.StartComponents?)
    && o.sh.bg.components == sh.bg.components && o.sh.bg.generations == sh.bg.generations
    && (o.spawn.Some? ==> !o.spawn.value.home.Worker? && !o.spawn.value.home.Warmer?)
  }

  /** Who may touch what. */
  ghost predicate Touches(sh: Shared, pc: PC, o: Out) {
    && o.sh.pools.history == (if Stores(pc) then sh.pools.history + [pc.pu.p] else sh.pools.history)
    && o.sh.pools.orphans == (if Stores(pc) && pc.o.ByStartup? && sh.pools.db.Some?
                              then sh.pools.orphans + {sh.pools.db.value}
                              else sh.pools.orphans)
    && (o.sh.pools.connected && !sh.pools.connected ==> pc.Publishing? && pc.pu.StoreConnected?)
    && (o.sh.pools.db != sh.pools.db ==> Stores(pc) || pc == Shutting(NilDb))
    && (sh.closing && !StartupUnderWay(pc) ==> !StartupUnderWay(o.pc))
    && (!StartupUnderWay(pc) || !pc.Startup? ==> StartsNothing(sh, o))
  }

  /** The bookkeeping of one action. */
  ghost predicate OutBooks(cfg: Config, sh: Shared, pc: PC, o: Out) {
    && Imbalance(o.sh, o.pc) == Imbalance(sh, pc)
    && (AnnounceInv(cfg, sh, pc) ==> AnnounceInv(cfg, o.sh, o.pc))
    && (PhaseOf(pc).Quiet? && PhaseOf(o.pc).Quiet? ==>
        o.sh.runtime == sh.runtime && o.sh.pools.history == sh.pools.history)
  }

  /** What one action may do to the goroutines that are waited for. */
  ghost predicate OutWaits(sh: Shared, t: Tid, child: Tid, home: Home, pc: PC, o: Out) {
    && o.sh.bg.live == (if o.spawn.Some? && o.spawn.value.home.Worker? then sh.bg.live[child := o.spawn.value.home.c]
                        else if home.Worker? && o.pc.Exited? then sh.bg.live - {t} else sh.bg.live)
    && o.sh.bg.warmers == (if o.spawn.Some? && o.spawn.value.home.Warmer? then sh.bg.warmers + {child}
                           else if home.Warmer? && o.pc.Exited? then sh.bg.warmers - {t} else sh.bg.warmers)
    && (o.spawn.Some? ==> HomeOk(o.spawn.value) && LocalOk(o.sh, o.spawn.value.pc))
    && (o.spawn.Some? ==> !o.spawn.value.home.Caller? && !o.spawn.value.pc.Exited? && !o.pc.Exited?)
    && !pc.Exited?
    && (o.pc.Cleanup? && o.pc.cl.Await1? && o.pc != pc ==>
          o.pc.cl.w == child && o.spawn.Some? && o.spawn.value.pc.Stopping?)
    && (o.pc.Cleanup? && o.pc.cl.Await2? && o.pc != pc ==>
          o.pc.cl.w == child && o.spawn.Some? && o.spawn.value.pc.Shutting?)
    && (o.pc.Cleanup? && !o.pc.cl.Cas? ==> pc.Cleanup?)
    && (o.spawn.Some? && InTeardown(o.spawn.value.pc) ==> pc.Cleanup?)
    && (o.sh.bg.done1 != sh.bg.done1 ==> pc.Stopping?)
    && (pc.Stopping? || pc.Waiting? ==> o.pc.Stopping? || o.pc.Waiting? || t in o.sh.bg.done1)
    && (pc.Shutting? ==> o.pc.Shutting? || t in o.sh.bg.done2)
  }

  ghost predicate OutLocal(sh: Shared, t: Tid, child: Tid, home: Home, pc: PC, o: Out) {
    && Grows(sh, o.sh)
    && LocalOk(o.sh, o.pc)
    && HomeOk(Thread(home, o.pc))
    && (o.sh.closing != sh.closing ==> pc == Cleanup(Cas))
    && (o.pc == Stats(Sample) ==> o.sh.pools.db.Some?)
    && (o.pc.Get? && (o.pc.ge.Alive? || o.pc.ge.Ping? || o.pc.ge.Return?) ==> pc.Get?)
    && (o.pc.Validate? && o.pc.va.Conn? ==> pc.Get?)
    && OutWaits(sh, t, child, home, pc, o)
  }

  lemma StartupBooksFirst(cfg: Config, sh: Shared, at: StartAt, ch: Choice, child: Tid)
    requires at.Lock? || at.CheckConnected? || at.CheckClosing? || at.CheckCtx? || at.Release?
    requires NextStartup(cfg, sh, at, ch, child).Some?
    ensures OutBooks(cfg, sh, Startup(at), NextStartup(cfg, sh, at, ch, child).value)
  {
  }

  lemma StartupBooksSecond(cfg: Config, sh: Shared, at: StartAt, ch: Choice, child: Tid)
    requires at.SpawnWarmer? || at.LockMu? || at.DrainMu?
    requires NextStartup(cfg, sh, at, ch, child).Some?
    ensures OutBooks(cfg, sh, Startup(at), NextStartup(cfg, sh, at, ch, child).value)
  {
  }

  lemma StartupBooks(cfg: Config, sh: Shared, at: StartAt, ch: Choice, child: Tid)
    requires NextStartup(cfg, sh, at, ch, child).Some?
    ensures OutBooks(cfg, sh, Startup(at), NextStartup(cfg, sh, at, ch, child).value)
  {
    if at.SpawnWarmer? || at.LockMu? || at.DrainMu? {
      StartupBooksSecond(cfg, sh, at, ch, child);
    } else if at.Lock? || at.CheckConnected? || at.CheckClosing? || at.CheckCtx? || at.Release? {
      StartupBooksFirst(cfg, sh, at, ch, child);
    }
  }

  lemma ReconnectBooks(cfg: Config, sh: Shared, k: AfterReconnect, at: ReconnectAt, ch: Choice)
    requires NextReconnect(sh, k, at, ch).Some?
    ensures OutBooks(cfg, sh, Reconnect(k, at), NextReconnect(sh, k, at, ch).value)
  {
  }

  lemma ConnectBooksFirst(cfg: Config, sh: Shared, o: Owner, at: ConnectAt, ch: Choice)
    requires at.Head? || at.Wait? || at.Open?
    requires NextConnect(cfg, sh, o, at, ch).Some?
    ensures OutBooks(cfg, sh, Connecting(o, at), NextConnect(cfg, sh, o, at, ch).value)
  {
  }

  lemma ConnectBooksBegin(cfg: Config, sh: Shared, o: Owner, at: ConnectAt, ch: Choice)
    requires at.UnlockMu? || at.Begin?
    requires NextConnect(cfg, sh, o, at, ch).Some?
    ensures OutBooks(cfg, sh, Connecting(o, at), NextConnect(cfg, sh, o, at, ch).value)
  {
  }

  lemma ConnectBooks(cfg: Config, sh: Shared, o: Owner, at: ConnectAt, ch: Choice)
    requires NextConnect(cfg, sh, o, at, ch).Some?
    ensures OutBooks(cfg, sh, Connecting(o, at), NextConnect(cfg, sh, o, at, ch).value)
  {
    if at.UnlockMu? || at.Begin? {
      ConnectBooksBegin(cfg, sh, o, at, ch);
    } else if at.Head? || at.Wait? || at.Open? {
      ConnectBooksFirst(cfg, sh, o, at, ch);
    }
  }

  lemma PublishBooksFirst(cfg: Config, sh: Shared, o: Owner, at: PublishAt, ch: Choice)
    requires at.CheckStale? || at.Discard? || at.LockMu? || at.DrainMu?
    requires NextPublish(sh, o, at, ch).Some?
    ensures OutBooks(cfg, sh, Publishing(o, at), NextPublish(sh, o, at, ch).value)
  {
  }

  lemma PublishBooks(cfg: Config, sh: Shared, o: Owner, at: PublishAt, ch: Choice)
    requires NextPublish(sh, o, at, ch).Some?
    ensures OutBooks(cfg, sh, Publishing(o, at), NextPublish(sh, o, at, ch).value)
  {
    if at.CheckStale? || at.Discard? || at.LockMu? || at.DrainMu? {
      PublishBooksFirst(cfg, sh, o, at, ch);
    }
  }

  lemma AnnounceBooks(cfg: Config, sh: Shared, o: Owner, at: AnnounceAt, ch: Choice)
    requires Known(sh, Announcing(o, at)) && NextAnnounce(cfg, sh, o, at, ch).Some?
    ensures OutBooks(cfg, sh, Announcing(o, at), NextAnnounce(cfg, sh, o, at, ch).value)
  {
  }

  lemma ShuttingBooks(cfg: Config, sh: Shared, t: Tid, at: CloseAt)
    requires NextShutting(sh, t, at).Some?
    ensures OutBooks(cfg, sh, Shutting(at), NextShutting(sh, t, at).value)
  {
  }

  lemma StartupTouches(cfg: Config, sh: Shared, at: StartAt, ch: Choice, child: Tid)
    requires NextStartup(cfg, sh, at, ch, child).Some?
    ensures Touches(sh, Startup(at), NextStartup(cfg, sh, at, ch, child).value)
  {
  }

  lemma ReconnectTouches(sh: Shared, k: AfterReconnect, at: ReconnectAt, ch: Choice)
    requires NextReconnect(sh, k, at, ch).Some?
    ensures Touches(sh, Reconnect(k, at), NextReconnect(sh, k, at, ch).value)
  {
  }

  lemma ConnectTouches(cfg: Config, sh: Shared, o: Owner, at: ConnectAt, ch: Choice)
    requires NextConnect(cfg, sh, o, at, ch).Some?
    ensures Touches(sh, Connecting(o, at), NextConnect(cfg, sh, o, at, ch).value)
  {
  }

  lemma PublishTouches(sh: Shared, o: Owner, at: PublishAt, ch: Choice)
    requires NextPublish(sh, o, at, ch).Some?
    ensures Touches(sh, Publishing(o, at), NextPublish(sh, o, at, ch).value)
  {
  }

  lemma AnnounceTouches(cfg: Config, sh: Shared, o: Owner, at: AnnounceAt, ch: Choice)
    requires NextAnnounce(cfg, sh, o, at, ch).Some?
    ensures Touches(sh, Announcing(o, at), NextAnnounce(cfg, sh, o, at, ch).value)
  {
  }

  lemma ShuttingTouches(sh: Shared, t: Tid, at: CloseAt)
    requires NextShutting(sh, t, at).Some?
    ensures Touches(sh, Shutting(at), NextShutting(sh, t, at).value)
  {
  }

  // ---------------------------------------------------------------- local facts, family by family

  lemma StartupLocalFirst(cfg: Config, sh: Shared, t: Tid, child: Tid, home: Home, at: StartAt, ch: Choice)
    requires at.Lock? || at.CheckConnected? || at.CheckClosing? || at.CheckCtx? || at.Release?
    requires LocalOk(sh, Startup(at)) && HomeOk(Thread(home, Startup(at)))
    requires NextStartup(cfg, sh, at, ch, child).Some?
    ensures OutLocal(sh, t, child, home, Startup(at), NextStartup(cfg, sh, at, ch, child).value)
  {
  }

  lemma StartupLocalSecond(cfg: Config, sh: Shared, t: Tid, child: Tid, home: Home, at: StartAt, ch: Choice)
    requires at.SpawnWarmer? || at.LockMu? || at.DrainMu?
    requires LocalOk(sh, Startup(at)) && HomeOk(Thread(home, Startup(at)))
    requires NextStartup(cfg, sh, at, ch, child).Some?
    ensures OutLocal(sh, t, child, home, Startup(at), NextStartup(cfg, sh, at, ch, child).value)
  {
  }

  lemma StartupLocal(cfg: Config, sh: Shared, t: Tid, child: Tid, home: Home, at: StartAt, ch: Choice)
    requires LocalOk(sh, Startup(at)) && HomeOk(Thread(home, Startup(at)))
    requires NextStartup(cfg, sh, at, ch, child).Some?
    ensures OutLocal(sh, t, child, home, Startup(at), NextStartup(cfg, sh, at, ch, child).value)
  {
    if at.SpawnWarmer? || at.LockMu? || at.DrainMu? {
      StartupLocalSecond(cfg, sh, t, child, home, at, ch);
    } else if at.Lock? || at.CheckConnected? || at.CheckClosing? || at.CheckCtx? || at.Release? {
      StartupLocalFirst(cfg, sh, t, child, home, at, ch);
    }
  }

  lemma ReconnectLocalFirst(sh: Shared, t: Tid, child: Tid, home: Home, k: AfterReconnect, at: ReconnectAt, ch: Choice)
    requires at.Lock? || at.LockMu? || at.DrainMu? || at.CheckClosing?
    requires LocalOk(sh, Reconnect(k, at)) && HomeOk(Thread(home, Reconnect(k, at)))
    requires NextReconnect(sh, k, at, ch).Some?
    ensures OutLocal(sh, t, child, home, Reconnect(k, at), NextReconnect(sh, k, at, ch).value)
  {
  }

  lemma ReconnectLocal(sh: Shared, t: Tid, child: Tid, home: Home, k: AfterReconnect, at: ReconnectAt, ch: Choice)
    requires LocalOk(sh, Reconnect(k, at)) && HomeOk(Thread(home, Reconnect(k, at)))
    requires NextReconnect(sh, k, at, ch).Some?
    ensures OutLocal(sh, t, child, home, Reconnect(k, at), NextReconnect(sh, k, at, ch).value)
  {
    if at.Lock? || at.LockMu? || at.DrainMu? || at.CheckClosing? {
      ReconnectLocalFirst(sh, t, child, home, k, at, ch);
    }
  }

  lemma ConnectLocalSecond(cfg: Config, sh: Shared, t: Tid, child: Tid, home: Home, o: Owner, at: ConnectAt, ch: Choice)
    requires at.Ping? || at.Verify? || at.Drop?
    requires LocalOk(sh, Connecting(o, at)) && HomeOk(Thread(home, Connecting(o, at)))
    requires NextConnect(cfg, sh, o, at, ch).Some?
    ensures OutLocal(sh, t, child, home, Connecting(o, at), NextConnect(cfg, sh, o, at, ch).value)
  {
  }

  lemma ConnectLocalFirst(cfg: Config, sh: Shared, t: Tid, child: Tid, home: Home, o: Owner, at: ConnectAt, ch: Choice)
    requires at.UnlockMu? || at.Begin? || at.Head? || at.Wait? || at.Open?
    requires LocalOk(sh, Connecting(o, at)) && HomeOk(Thread(home, Connecting(o, at)))
    requires NextConnect(cfg, sh, o, at, ch).Some?
    ensures OutLocal(sh, t, child, home, Connecting(o, at), NextConnect(cfg, sh, o, at, ch).value)
  {
  }

  lemma ConnectLocal(cfg: Config, sh: Shared, t: Tid, child: Tid, home: Home, o: Owner, at: ConnectAt, ch: Choice)
    requires LocalOk(sh, Connecting(o, at)) && HomeOk(Thread(home, Connecting(o, at)))
    requires NextConnect(cfg, sh, o, at, ch).Some?
    ensures OutLocal(sh, t, child, home, Connecting(o, at), NextConnect(cfg, sh, o, at, ch).value)
  {
    if at.UnlockMu? || at.Begin? || at.Head? || at.Wait? || at.Open? {
      ConnectLocalFirst(cfg, sh, t, child, home, o, at, ch);
    } else if at.Ping? || at.Verify? || at.Drop? {
      ConnectLocalSecond(cfg, sh, t, child, home, o, at, ch);
    }
  }

  lemma PublishLocalFirst(sh: Shared, t: Tid, child: Tid, home: Home, o: Owner, at: PublishAt, ch: Choice)
    requires at.CheckStale? || at.Discard? || at.LockMu? || at.DrainMu?
    requires LocalOk(sh, Publishing(o, at)) && HomeOk(Thread(home, Publishing(o, at)))
    requires NextPublish(sh, o, at, ch).Some?
    ensures OutLocal(sh, t, child, home, Publishing(o, at), NextPublish(sh, o, at, ch).value)
  {
  }

  lemma PublishLocal(sh: Shared, t: Tid, child: Tid, home: Home, o: Owner, at: PublishAt, ch: Choice)
    requires LocalOk(sh, Publishing(o, at)) && HomeOk(Thread(home, Publishing(o, at)))
    requires NextPublish(sh, o, at, ch).Some?
    ensures OutLocal(sh, t, child, home, Publishing(o, at), NextPublish(sh, o, at, ch).value)
  {
    if at.CheckStale? || at.Discard? || at.LockMu? || at.DrainMu? {
      PublishLocalFirst(sh, t, child, home, o, at, ch);
    }
  }

  lemma AnnounceLocal(cfg: Config, sh: Shared, t: Tid, child: Tid, home: Home, o: Owner, at: AnnounceAt, ch: Choice)
    requires LocalOk(sh, Announcing(o, at)) && HomeOk(Thread(home, Announcing(o, at)))
    requires NextAnnounce(cfg, sh, o, at, ch).Some?
    ensures OutLocal(sh, t, child, home, Announcing(o, at), NextAnnounce(cfg, sh, o, at, ch).value)
  {
  }

  lemma ProbeLocalSecond(cfg: Config, sh: Shared, t: Tid, child: Tid, home: Home, k: AfterProbe, at: ProbeAt,
          ch: Choice)
    requires at.Read? || at.Cache?
    requires LocalOk(sh, Probe(k, at)) && HomeOk(Thread(home, Probe(k, at))) && Known(sh, Probe(k, at))
    requires NextProbe(cfg, sh, k, at, ch).Some?
    ensures OutLocal(sh, t, child, home, Probe(k, at), NextProbe(cfg, sh, k, at, ch).value)
  {
  }

  lemma ProbeLocalFirst(cfg: Config, sh: Shared, t: Tid, child: Tid, home: Home, k: AfterProbe, at: ProbeAt, ch: Choice)
    requires at.Flag? || at.Closing? || at.RLock?
    requires LocalOk(sh, Probe(k, at)) && HomeOk(Thread(home, Probe(k, at))) && Known(sh, Probe(k, at))
    requires NextProbe(cfg, sh, k, at, ch).Some?
    ensures OutLocal(sh, t, child, home, Probe(k, at), NextProbe(cfg, sh, k, at, ch).value)
  {
  }

  lemma ProbeLocal(cfg: Config, sh: Shared, t: Tid, child: Tid, home: Home, k: AfterProbe, at: ProbeAt, ch: Choice)
    requires LocalOk(sh, Probe(k, at)) && HomeOk(Thread(home, Probe(k, at))) && Known(sh, Probe(k, at))
    requires NextProbe(cfg, sh, k, at, ch).Some?
    ensures OutLocal(sh, t, child, home, Probe(k, at), NextProbe(cfg, sh, k, at, ch).value)
  {
    if at.Flag? || at.Closing? || at.RLock? {
      ProbeLocalFirst(cfg, sh, t, child, home, k, at, ch);
    } else if at.Read? || at.Cache? {
      ProbeLocalSecond(cfg, sh, t, child, home, k, at, ch);
    }
  }

  lemma GetLocalFirst(cfg: Config, sh: Shared, t: Tid, child: Tid, home: Home, g: AfterGet, at: GetAt, ch: Choice)
    requires at.CheckCtx? || at.RLock? || at.Read? || at.Alive?
    requires LocalOk(sh, Get(g, at)) && HomeOk(Thread(home, Get(g, at))) && Known(sh, Get(g, at))
    requires NextGet(cfg, sh, g, at, ch).Some?
    ensures OutLocal(sh, t, child, home, Get(g, at), NextGet(cfg, sh, g, at, ch).value)
  {
  }

  lemma GetLocal(cfg: Config, sh: Shared, t: Tid, child: Tid, home: Home, g: AfterGet, at: GetAt, ch: Choice)
    requires LocalOk(sh, Get(g, at)) && HomeOk(Thread(home, Get(g, at))) && Known(sh, Get(g, at))
    requires NextGet(cfg, sh, g, at, ch).Some?
    ensures OutLocal(sh, t, child, home, Get(g, at), NextGet(cfg, sh, g, at, ch).value)
  {
    if at.CheckCtx? || at.RLock? || at.Read? || at.Alive? {
      GetLocalFirst(cfg, sh, t, child, home, g, at, ch);
    }
  }

  lemma CheckLocal(cfg: Config, sh: Shared, t: Tid, child: Tid, home: Home, at: CheckAt, ch: Choice)
    requires LocalOk(sh, Check(at)) && HomeOk(Thread(home, Check(at)))
    requires NextCheck(cfg, sh, at, ch).Some?
    ensures OutLocal(sh, t, child, home, Check(at), NextCheck(cfg, sh, at, ch).value)
  {
  }

  lemma CleanupLocal(sh: Shared, t: Tid, child: Tid, home: Home, at: CleanupAt, ch: Choice)
    requires LocalOk(sh, Cleanup(at)) && HomeOk(Thread(home, Cleanup(at)))
    requires NextCleanup(sh, at, ch, child).Some?
    ensures OutLocal(sh, t, child, home, Cleanup(at), NextCleanup(sh, at, ch, child).value)
  {
  }

  lemma ShuttingLocal(sh: Shared, t: Tid, child: Tid, home: Home, at: CloseAt)
    requires LocalOk(sh, Shutting(at)) && HomeOk(Thread(home, Shutting(at)))
    requires NextShutting(sh, t, at).Some?
    ensures OutLocal(sh, t, child, home, Shutting(at), NextShutting(sh, t, at).value)
  {
  }
}
