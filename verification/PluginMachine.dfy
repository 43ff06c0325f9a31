/**
 The SQL plugin as a concurrent step machine.

 One step is one atomic action of one goroutine: an atomic load or store, a lock operation, a driver
 call, or a plain access made while the protecting lock is held. Any number of callers may run any
 operation at the same time. A pool (`*sql.DB`) is a number; numbers are handed out by `Open`.

 Driver outcomes, context expiry and cache freshness are inputs: a step is told by its `Choice`
 whether the call it makes succeeds (`Go`) or fails / finds its context done (`Bad`).
 */
module PluginMachine {
  import opened Wrappers

  type Tid = nat
  type PoolId = nat

  /** The four background components with a Start/Stop protocol. */
  datatype Kind = HealthChecks | PoolMonitoring | AutoReconnecting | LeakDetecting

  /** One component object; every Startup that gets that far builds a new generation. */
  datatype Component = Component(generation: nat, kind: Kind)

  datatype Config = Config(
    retryEnabled: bool,
    retryMaxAttempts: nat,
    autoReconnect: bool,
    ensureAlive: bool,
    healthCheck: bool,
    monitor: bool,
    leakDetection: bool,
    warmup: bool,
    hasRuntime: bool)

  /** The components one Startup creates, in the order it starts them and Cleanup stops them. */
  function Components(cfg: Config, g: nat): seq<Component> {
    (if cfg.healthCheck then [Component(g, HealthChecks)] else []) +
    (if cfg.monitor then [Component(g, PoolMonitoring)] else []) +
    (if cfg.autoReconnect then [Component(g, AutoReconnecting)] else []) +
    (if cfg.leakDetection then [Component(g, LeakDetecting)] else [])
  }

  // ---------------------------------------------------------------- program counters

  /** Where GetDBWithContext returns to. */
  datatype AfterGet = GetToCaller | GetToValidate | GetToRevalidate

  /** Where IsConnectedContext returns to. */
  datatype AfterProbe = ProbeToCaller | ProbeToGet(g: AfterGet) | ProbeToCheck | ProbeToAuto

  /** Where ReconnectContext returns to. */
  datatype AfterReconnect =
    | ToCaller | ToGet(g: AfterGet) | ToGetAgain(g: AfterGet) | ToCheck | ToCheckAgain | ToRevalidate | ToAuto

  /** The operation that holds lifecycleMu and connects. `seen` is `db` and `base` the number of
      pools opened so far, both at the moment the operation took its snapshot. */
  datatype Owner =
    | ByStartup(seen: Option<PoolId>, base: nat)
    | ByReconnect(seen: Option<PoolId>, base: nat, k: AfterReconnect)

  datatype StartAt =
    | Lock | CheckConnected | CheckClosing | CheckCtx
    | SpawnWarmer | LockMu | DrainMu | StoreComponents | UnlockMu
    | StartComponents(rest: seq<Component>) | SpawnReporter | Release

  datatype ReconnectAt = Lock | LockMu | DrainMu | CheckClosing | CheckCtx | Snapshot | UnlockMu | Release

  datatype ConnectAt =
    | UnlockMu | Begin | Head(n: nat) | Wait(n: nat) | Open(n: nat)
    | Ping(n: nat, p: PoolId) | Verify(n: nat, p: PoolId) | Drop(n: nat, p: PoolId)
    | Failed(n: nat) | Succeeded(p: PoolId) | GaveUp

  datatype PublishAt =
    | CheckStale(p: PoolId) | Discard(p: PoolId)
    | LockMu(p: PoolId) | DrainMu(p: PoolId) | StoreDb(p: PoolId)
    | StoreConnected | UnlockMu | CloseOld

  datatype AnnounceAt = RLock | Read | Register(snap: Option<PoolId>)

  datatype ProbeAt = Flag | Closing | RLock | Read | Cache(d: PoolId) | Ping(d: PoolId) | Clear

  datatype GetAt =
    | CheckCtx | RLock | Read | Alive(snap: Option<PoolId>) | Ping(d: PoolId) | Clear
    | RLockAgain | ReadAgain | Return(snap: Option<PoolId>)

  datatype ValidateAt = Conn(snap: Option<PoolId>) | Ping(d: PoolId)

  datatype HealthAt =
    | RLock | Read | Flag(snap: Option<PoolId>) | Closing(snap: Option<PoolId>) | Query(d: PoolId) | Clear

  datatype CheckAt = RLock | Read | Query(d: PoolId) | Clear | RLockAgain | ReadAgain | QueryAgain(d: PoolId)

  datatype StatsAt = RLock | Flag | Closing | Sample

  datatype WarmAt = Closing | Flag | RLock | Read | Fill(d: PoolId)

  datatype CleanupAt =
    | Cas | Cancel | RLock | Read | Spawn1(cs: seq<Component>) | Await1(w: Tid)
    | CheckCtx | Spawn2 | Await2(w: Tid)

  datatype CloseAt = Lock | LockMu | DrainMu | CloseDb | NilDb | ClearConnected | UnlockMu | Unlock

  datatype SetAt = LockMu | DrainMu | Store

  datatype PC =
    | Idle
    | Exited                                  // the goroutine returned
    | Crashed                                 // nil *sql.DB dereferenced
    | Startup(st: StartAt)
    | Reconnect(k: AfterReconnect, re: ReconnectAt)
    | Connecting(o: Owner, co: ConnectAt)
    | Publishing(o: Owner, pu: PublishAt)
    | Announcing(o: Owner, an: AnnounceAt)    // publishResourceContract
    | Finishing(o: Owner)                     // deferred lifecycleMu.Unlock, success
    | Probe(pk: AfterProbe, pr: ProbeAt)      // IsConnectedContext
    | AutoDecide                              // checkAndReconnect: attempts limit
    | Get(g: AfterGet, ge: GetAt)             // GetDBWithContext after its first check
    | Validate(again: bool, va: ValidateAt)   // GetValidatedConn
    | Health(he: HealthAt)                    // ReportHealth
    | Check(ck: CheckAt)                      // CheckHealthContext after its first check
    | Stats(sa: StatsAt)                      // GetStats
    | Warm(wa: WarmAt)                        // maintainMinPoolSize
    | Cleanup(cl: CleanupAt)
    | Stopping(rest: seq<Component>)          // cleanup phase one: about to stop rest[0]
    | Waiting(rest: seq<Component>)           // cleanup phase one: rest[0].wg.Wait()
    | Shutting(cz: CloseAt)                   // cleanup phase two
    | Setting(se: SetAt)                      // SetProvider, bindRuntime, SetMetricsRecorder

  datatype Op =
    | OpStartup | OpReconnect | OpCleanup | OpGetDB | OpGetValidatedConn | OpCheckHealth
    | OpReportHealth | OpIsConnected | OpGetStats | OpSet | Tick

  /** What a goroutine is for; decides what it may do when idle. */
  datatype Home = Caller | Worker(c: Component) | Warmer | Reporter | Phase1 | Phase2

  datatype Thread = Thread(home: Home, pc: PC)

  datatype Choice = Go | Bad | Start(op: Op)

  // ---------------------------------------------------------------- shared state

  /** What the metrics recorder was told, plus the retry loops that ended in cancellation and the
      successful connects a cancelled Startup threw away. */
  datatype Metrics = Metrics(attempts: nat, retries: nat, successes: nat, failures: nat, cancellations: nat,
          discards: nat)

  /** The two locks. `writer` is the writer of mu that announced itself, waiting for readers or owning. */
  datatype Locks = Locks(lifecycleMu: Option<Tid>, writer: Option<Tid>, readers: set<Tid>)

  /** What an action does to the locks. mu.Lock() is two actions: after `Announce` no new reader or
      writer gets in, and `Drain` waits until the readers that were in have left. */
  datatype LockOp =
    | NoLock | LockLifecycle | UnlockLifecycle | Announce | Drain | UnlockWriter | LockReader | UnlockReader

  predicate LockEnabled(op: LockOp, lk: Locks) {
    match op
    case LockLifecycle => lk.lifecycleMu.None?
    case Announce => lk.writer.None?
    case Drain => lk.readers == {}
    case LockReader => lk.writer.None?
    case _ => true
  }

  function LockEffect(op: LockOp, lk: Locks, t: Tid): Locks {
    match op
    case LockLifecycle => lk.(lifecycleMu := Some(t))
    case UnlockLifecycle => lk.(lifecycleMu := None)
    case Announce => lk.(writer := Some(t))
    case UnlockWriter => lk.(writer := None)
    case LockReader => lk.(readers := lk.readers + {t})
    case UnlockReader => lk.(readers := lk.readers - {t})
    case _ => lk
  }

  /** The pool, the flag that goes with it, and the record of what happened to every pool. */
  datatype Pools = Pools(
    db: Option<PoolId>,
    connected: bool,
    created: nat,                      // pools opened so far: 0..created
    closes: multiset<PoolId>,          // Close calls made by the plugin
    verified: set<PoolId>,             // pools that passed ping and verify query
    history: seq<PoolId>,              // every pool stored into db, in order
    replaced: seq<PoolId>,             // every pool a Reconnect closed after replacing it, in order
    orphans: set<PoolId>,              // pools overwritten by a Startup
    shut: bool)                        // phase two has set db to nil

  /** Components, the goroutines that are waited for, and the channels they report on. */
  datatype Background = Background(
    components: seq<Component>,        // the published component pointers
    generations: nat,                  // Startups that stored their components
    live: map<Tid, Component>,         // started component goroutines that have not returned
    warmers: set<Tid>,                 // goroutines counted by wg
    stopped: set<Component>,           // closed stop channels
    done1: set<Tid>,                   // phase one goroutines that reported completion
    done2: set<Tid>)                   // phase two goroutines that reported completion

  /** The runtime's private "db" resource, and whether a registration was ever refused. */
  datatype Runtime = Runtime(registered: Option<PoolId>, refused: bool)

  datatype Shared = Shared(
    closing: bool,
    cancelled: bool,                   // the plugin's own context
    pools: Pools,
    metrics: Metrics,
    runtime: Runtime,
    bg: Background)

  datatype State = State(sh: Shared, locks: Locks, threads: map<Tid, Thread>)

  const INIT_SHARED :=
    Shared(false, false,
           Pools(None, false, 0, multiset{}, {}, [], [], {}, false),
           Metrics(0, 0, 0, 0, 0, 0),
           Runtime(None, false),
           Background([], 0, map[], {}, {}, {}, {}))

  const INIT := State(INIT_SHARED, Locks(None, None, {}), map[])

  /** A goroutine not seen so far is an idle caller. */
  function ThreadOf(s: State, t: Tid): Thread {
    if t in s.threads then s.threads[t] else Thread(Caller, Idle)
  }

  // ---------------------------------------------------------------- steps

  /** The new shared state, where the goroutine continues, what it does to the locks, whom it starts. */
  datatype Out = Out(sh: Shared, pc: PC, lock: LockOp, spawn: Option<Thread>)

  function To(sh: Shared, pc: PC): Option<Out> {
    Some(Out(sh, pc, NoLock, None))
  }

  function With(op: LockOp, sh: Shared, pc: PC): Option<Out> {
    Some(Out(sh, pc, op, None))
  }

  function Spawn(sh: Shared, pc: PC, child: Thread): Option<Out> {
    Some(Out(sh, pc, NoLock, Some(child)))
  }

  function ClearConnected(sh: Shared, pc: PC): Option<Out> {
    To(sh.(pools := sh.pools.(connected := false)), pc)
  }

  function Closed(sh: Shared, p: PoolId): Shared {
    sh.(pools := sh.pools.(closes := sh.pools.closes + multiset{p}))
  }

  function BeginGet(g: AfterGet): PC {
    Probe(ProbeToGet(g), ProbeAt.Flag)
  }

  /** Where a thread continues once ReconnectContext returned nil (`ok`) or an error. */
  function AfterReconnecting(k: AfterReconnect, ok: bool): PC {
    match k
    case ToCaller => Idle
    case ToAuto => Idle
    case ToGet(g) => if ok then Get(g, GetAt.CheckCtx) else Idle
    case ToGetAgain(g) => if ok then Get(g, GetAt.RLockAgain) else Idle
    case ToCheck => if ok then Check(CheckAt.RLock) else Idle
    case ToCheckAgain => if ok then Check(CheckAt.RLockAgain) else Idle
    case ToRevalidate => if ok then BeginGet(GetToRevalidate) else Idle
  }

  /** Where a thread continues once IsConnectedContext answered `b`. */
  function AfterProbing(cfg: Config, k: AfterProbe, b: bool): PC {
    match k
    case ProbeToCaller => Idle
    case ProbeToAuto => if b then Idle else AutoDecide
    case ProbeToGet(g) =>
      if b then Get(g, GetAt.CheckCtx) else if cfg.autoReconnect then Reconnect(ToGet(g), ReconnectAt.Lock) else Idle
    case ProbeToCheck =>
      if b then Check(CheckAt.RLock) else if cfg.autoReconnect then Reconnect(ToCheck, ReconnectAt.Lock) else Idle
  }

  function NextIdle(cfg: Config, sh: Shared, t: Tid, home: Home, ch: Choice): Option<Out> {
    match home
    case Caller =>
      if !ch.Start? then None else
      (match ch.op
       case OpStartup => To(sh, Startup(StartAt.Lock))
       case OpReconnect => To(sh, Reconnect(ToCaller, ReconnectAt.Lock))
       case OpCleanup => To(sh, Cleanup(Cas))
       case OpGetDB => To(sh, BeginGet(GetToCaller))
       case OpGetValidatedConn => To(sh, BeginGet(GetToValidate))
       case OpCheckHealth => To(sh, Probe(ProbeToCheck, ProbeAt.Flag))
       case OpReportHealth => To(sh, Health(HealthAt.RLock))
       case OpIsConnected => To(sh, Probe(ProbeToCaller, ProbeAt.Flag))
       case OpGetStats => To(sh, Stats(StatsAt.RLock))
       case OpSet => To(sh, Setting(SetAt.LockMu))
       case Tick => None)
    case Worker(c) =>
      if ch == Start(Tick) then
        (match c.kind
         case HealthChecks => To(sh, Health(HealthAt.RLock))
         case PoolMonitoring => To(sh, Stats(StatsAt.RLock))
         case LeakDetecting => To(sh, Stats(StatsAt.RLock))
         case AutoReconnecting => To(sh, Probe(ProbeToAuto, ProbeAt.Flag)))
      else if ch == Go && (c in sh.bg.stopped || sh.cancelled)
          then To(sh.(bg := sh.bg.(live := sh.bg.live - {t})), Exited)
      else None
    case Warmer =>
      if ch == Start(Tick) then To(sh, Warm(WarmAt.Closing))
      else if ch == Go && sh.cancelled then To(sh.(bg := sh.bg.(warmers := sh.bg.warmers - {t})), Exited)
      else None
    case Reporter =>
      if ch == Start(Tick) then To(sh, Stats(StatsAt.RLock))
      else if ch == Go && sh.cancelled then To(sh, Exited)
      else None
    case Phase1 => None
    case Phase2 => None
  }

  function NextStartup(cfg: Config, sh: Shared, at: StartAt, ch: Choice, child: Tid): Option<Out> {
    match at
    case Lock => With(LockLifecycle, sh, Startup(CheckConnected))
    case CheckConnected => To(sh, Startup(if sh.pools.connected then StartAt.Release else StartAt.CheckClosing))
    case CheckClosing => To(sh, Startup(if sh.closing then StartAt.Release else StartAt.CheckCtx))
    case CheckCtx =>
      To(sh, if ch == Bad then Startup(StartAt.Release)
          else Connecting(ByStartup(sh.pools.db, sh.pools.created), Begin))
    case SpawnWarmer =>
      if cfg.warmup
      then Spawn(sh.(bg := sh.bg.(warmers := sh.bg.warmers + {child})), Startup(StartAt.LockMu),
                 Thread(Warmer, Warm(WarmAt.Closing)))
      else To(sh, Startup(StartAt.LockMu))
    case LockMu => With(Announce, sh, Startup(StartAt.DrainMu))
    case DrainMu => With(Drain, sh, Startup(StoreComponents))
    case StoreComponents =>
      To(sh.(bg := sh.bg.(components := Components(cfg, sh.bg.generations), generations := sh.bg.generations + 1)),
         Startup(StartAt.UnlockMu))
    case UnlockMu => With(UnlockWriter, sh, Startup(StartComponents(sh.bg.components)))
    case StartComponents(rest) =>
      if rest == [] then To(sh, Startup(SpawnReporter))
      else Spawn(sh.(bg := sh.bg.(live := sh.bg.live[child := rest[0]])), Startup(StartComponents(rest[1..])),
                 Thread(Worker(rest[0]), Idle))
    case SpawnReporter =>
      // the Owner is only read by the announcement for its kind
      Spawn(sh, Announcing(ByStartup(sh.pools.db, sh.pools.created), AnnounceAt.RLock), Thread(Reporter, Idle))
    case Release => With(UnlockLifecycle, sh, Idle)
  }

  function NextReconnect(sh: Shared, k: AfterReconnect, at: ReconnectAt, ch: Choice): Option<Out> {
    match at
    case Lock => With(LockLifecycle, sh, Reconnect(k, ReconnectAt.LockMu))
    case LockMu => With(Announce, sh, Reconnect(k, ReconnectAt.DrainMu))
    case DrainMu => With(Drain, sh, Reconnect(k, ReconnectAt.CheckClosing))
    case CheckClosing => To(sh, Reconnect(k, if sh.closing then ReconnectAt.UnlockMu else ReconnectAt.CheckCtx))
    case CheckCtx => To(sh, Reconnect(k, if ch == Bad then ReconnectAt.UnlockMu else Snapshot))
    case Snapshot => ClearConnected(sh, Connecting(ByReconnect(sh.pools.db, sh.pools.created, k), ConnectAt.UnlockMu))
    case UnlockMu => With(UnlockWriter, sh, Reconnect(k, ReconnectAt.Release))
    case Release => With(UnlockLifecycle, sh, AfterReconnecting(k, false))
  }

  /** connectWithContext and connectWithRetryContext. */
  function NextConnect(cfg: Config, sh: Shared, o: Owner, at: ConnectAt, ch: Choice): Option<Out> {
    var m := sh.metrics;
    match at
    case UnlockMu => With(UnlockWriter, sh, Connecting(o, Begin))
    case Begin =>
      To(sh.(metrics := m.(attempts := m.attempts + 1)), Connecting(o, if cfg.retryEnabled then Head(0) else Open(0)))
    case Head(n) =>
      if ch == Bad then To(sh.(metrics := m.(cancellations := m.cancellations + 1)), Connecting(o, GaveUp))
      else if n > 0 then To(sh.(metrics := m.(retries := m.retries + 1)), Connecting(o, Wait(n)))
      else To(sh, Connecting(o, Open(n)))
    case Wait(n) =>
      if ch == Bad then To(sh.(metrics := m.(cancellations := m.cancellations + 1)), Connecting(o, GaveUp))
      else To(sh, Connecting(o, Open(n)))
    case Open(n) =>
      if ch == Bad then To(sh, Connecting(o, Failed(n)))
      else To(sh.(pools := sh.pools.(created := sh.pools.created + 1)),
          Connecting(o, ConnectAt.Ping(n, sh.pools.created)))
    case Ping(n, p) => To(sh, Connecting(o, if ch == Bad then Drop(n, p) else Verify(n, p)))
    case Verify(n, p) =>
      if ch == Bad then To(sh, Connecting(o, Drop(n, p)))
      else To(sh.(pools := sh.pools.(verified := sh.pools.verified + {p})), Connecting(o, Succeeded(p)))
    case Drop(n, p) => To(Closed(sh, p), Connecting(o, Failed(n)))
    case Failed(n) =>
      if cfg.retryEnabled && n < cfg.retryMaxAttempts then To(sh, Connecting(o, Head(n + 1)))
      else To(sh.(metrics := m.(failures := m.failures + 1)), Connecting(o, GaveUp))
    case Succeeded(p) =>
      To(sh.(metrics := m.(successes := m.successes + 1)),
         Publishing(o, if o.ByStartup? then CheckStale(p) else PublishAt.LockMu(p)))
    case GaveUp =>
      With(UnlockLifecycle, sh, if o.ByStartup? then Idle else AfterReconnecting(o.k, false))
  }

  /** The stores that make a verified pool the published one, and what follows them under lifecycleMu. */
  function NextPublish(sh: Shared, o: Owner, at: PublishAt, ch: Choice): Option<Out> {
    match at
    case CheckStale(p) => To(sh, Publishing(o, if ch == Bad then Discard(p) else PublishAt.LockMu(p)))
    case Discard(p) =>
      To(Closed(sh, p).(metrics := sh.metrics.(discards := sh.metrics.discards + 1)),
         Startup(StartAt.Release))
    case LockMu(p) => With(Announce, sh, Publishing(o, PublishAt.DrainMu(p)))
    case DrainMu(p) => With(Drain, sh, Publishing(o, StoreDb(p)))
    case StoreDb(p) =>
      var ps := sh.pools;
      var orphans := if o.ByStartup? && ps.db.Some? then ps.orphans + {ps.db.value} else ps.orphans;
      To(sh.(pools := ps.(db := Some(p), history := ps.history + [p], orphans := orphans)),
         Publishing(o, StoreConnected))
    case StoreConnected => To(sh.(pools := sh.pools.(connected := true)), Publishing(o, PublishAt.UnlockMu))
    case UnlockMu =>
      With(UnlockWriter, sh,
         if o.ByStartup? then Startup(SpawnWarmer)
         else if o.seen.Some? then Publishing(o, CloseOld) else Announcing(o, AnnounceAt.RLock))
    case CloseOld =>
      if o.ByStartup? || o.seen.None? then None
      else
        var ps := Closed(sh, o.seen.value).pools;
        To(sh.(pools := ps.(replaced := ps.replaced + [o.seen.value])),
              Announcing(o, AnnounceAt.RLock))
  }

  /** publishResourceContract, the private "db" entry. */
  function NextAnnounce(cfg: Config, sh: Shared, o: Owner, at: AnnounceAt, ch: Choice): Option<Out> {
    match at
    case RLock => With(LockReader, sh, Announcing(o, AnnounceAt.Read))
    case Read => With(UnlockReader, sh, Announcing(o, Register(sh.pools.db)))
    case Register(d) =>
      if !cfg.hasRuntime || d.None? then To(sh, Finishing(o))
      else if ch == Bad then To(sh.(runtime := sh.runtime.(refused := true)), Finishing(o))
      else To(sh.(runtime := sh.runtime.(registered := d)), Finishing(o))
  }

  function NextProbe(cfg: Config, sh: Shared, k: AfterProbe, at: ProbeAt, ch: Choice): Option<Out> {
    match at
    case Flag => To(sh, if sh.pools.connected then Probe(k, ProbeAt.Closing) else AfterProbing(cfg, k, false))
    case Closing => To(sh, if sh.closing then AfterProbing(cfg, k, false) else Probe(k, ProbeAt.RLock))
    case RLock => With(LockReader, sh, Probe(k, ProbeAt.Read))
    case Read =>
      With(UnlockReader, sh, if sh.pools.db.None? then AfterProbing(cfg, k, false)
          else Probe(k, Cache(sh.pools.db.value)))
    case Cache(d) => To(sh, if ch == Bad then Probe(k, ProbeAt.Ping(d)) else AfterProbing(cfg, k, true))
    case Ping(d) => To(sh, if ch == Bad then Probe(k, ProbeAt.Clear) else AfterProbing(cfg, k, true))
    case Clear => ClearConnected(sh, AfterProbing(cfg, k, false))
  }

  function NextGet(cfg: Config, sh: Shared, g: AfterGet, at: GetAt, ch: Choice): Option<Out> {
    match at
    case CheckCtx => To(sh, if ch == Bad then Idle else Get(g, GetAt.RLock))
    case RLock => With(LockReader, sh, Get(g, GetAt.Read))
    case Read => With(UnlockReader, sh, Get(g, Alive(sh.pools.db)))
    case Alive(d) =>
      // Bad: the last validation is recent enough for the handout to skip its ping
      To(sh, if cfg.ensureAlive && d.Some? && !sh.closing && ch == Go then Get(g, GetAt.Ping(d.value))
          else Get(g, Return(d)))
    case Ping(d) =>
      To(sh, if ch != Bad then Get(g, Return(Some(d)))
             else if cfg.autoReconnect then Reconnect(ToGetAgain(g), ReconnectAt.Lock)
             else Get(g, GetAt.Clear))
    case Clear => ClearConnected(sh, Idle)
    case RLockAgain => With(LockReader, sh, Get(g, GetAt.ReadAgain))
    case ReadAgain => With(UnlockReader, sh, Get(g, Return(sh.pools.db)))
    case Return(d) =>
      To(sh, match g
             case GetToCaller => Idle
             case GetToValidate => Validate(false, Conn(d))
             case GetToRevalidate => Validate(true, Conn(d)))
  }

  function NextValidate(cfg: Config, sh: Shared, again: bool, at: ValidateAt, ch: Choice): Option<Out> {
    match at
    case Conn(d) =>
      To(sh, if d.None? then Crashed else if ch == Bad then Idle else Validate(again, ValidateAt.Ping(d.value)))
    case Ping(d) =>
      To(sh, if ch != Bad || again || !cfg.autoReconnect then Idle else Reconnect(ToRevalidate, ReconnectAt.Lock))
  }

  function NextHealth(sh: Shared, at: HealthAt, ch: Choice): Option<Out> {
    match at
    case RLock => With(LockReader, sh, Health(HealthAt.Read))
    case Read => With(UnlockReader, sh, Health(HealthAt.Flag(sh.pools.db)))
    case Flag(d) => To(sh, if d.Some? && sh.pools.connected then Health(HealthAt.Closing(d)) else Idle)
    case Closing(d) => To(sh, if sh.closing || d.None? then Idle else Health(HealthAt.Query(d.value)))
    case Query(d) => To(sh, if ch == Bad then Health(HealthAt.Clear) else Idle)
    case Clear => ClearConnected(sh, Idle)
  }

  function NextCheck(cfg: Config, sh: Shared, at: CheckAt, ch: Choice): Option<Out> {
    match at
    case RLock => With(LockReader, sh, Check(CheckAt.Read))
    case Read =>
      With(UnlockReader, sh, if sh.pools.db.None? then Idle else Check(CheckAt.Query(sh.pools.db.value)))
    case Query(d) =>
      To(sh, if ch != Bad then Idle
             else if cfg.autoReconnect then Reconnect(ToCheckAgain, ReconnectAt.Lock)
             else Check(CheckAt.Clear))
    case Clear => ClearConnected(sh, Idle)
    case RLockAgain =>
      With(LockReader, sh, Check(CheckAt.ReadAgain))
    case ReadAgain =>
      With(UnlockReader, sh, if sh.pools.db.None? then Idle else Check(QueryAgain(sh.pools.db.value)))
    case QueryAgain(d) => To(sh, Idle)
  }

  /** GetStats samples `db` while it still holds the read lock. */
  function NextStats(sh: Shared, at: StatsAt): Option<Out> {
    match at
    case RLock => With(LockReader, sh, Stats(StatsAt.Flag))
    case Flag =>
      if sh.pools.connected then To(sh, Stats(StatsAt.Closing)) else With(UnlockReader, sh, Idle)
    case Closing =>
      if sh.closing || sh.pools.db.None? then With(UnlockReader, sh, Idle) else To(sh, Stats(Sample))
    case Sample => With(UnlockReader, sh, Idle)
  }

  function NextWarm(sh: Shared, at: WarmAt): Option<Out> {
    match at
    case Closing => To(sh, if sh.closing then Idle else Warm(WarmAt.Flag))
    case Flag => To(sh, if sh.pools.connected then Warm(WarmAt.RLock) else Idle)
    case RLock => With(LockReader, sh, Warm(WarmAt.Read))
    case Read => With(UnlockReader, sh, if sh.pools.db.None? then Idle else Warm(Fill(sh.pools.db.value)))
    case Fill(d) => To(sh, Idle)
  }

  function NextCleanup(sh: Shared, at: CleanupAt, ch: Choice, child: Tid): Option<Out> {
    match at
    case Cas => if sh.closing then To(sh, Idle) else To(sh.(closing := true), Cleanup(Cancel))
    case Cancel => To(sh.(cancelled := true), Cleanup(CleanupAt.RLock))
    case RLock => With(LockReader, sh, Cleanup(CleanupAt.Read))
    case Read => With(UnlockReader, sh, Cleanup(Spawn1(sh.bg.components)))
    case Spawn1(cs) =>
      if ch == Bad then To(sh, Idle) else Spawn(sh, Cleanup(Await1(child)), Thread(Phase1, Stopping(cs)))
    case Await1(w) => if ch == Bad then To(sh, Idle) else if w in sh.bg.done1 then To(sh, Cleanup(CleanupAt.CheckCtx))
        else None
    case CheckCtx => To(sh, if ch == Bad then Idle else Cleanup(Spawn2))
    case Spawn2 =>
      if ch == Bad then To(sh, Idle) else Spawn(sh, Cleanup(Await2(child)), Thread(Phase2, Shutting(CloseAt.Lock)))
    case Await2(w) => if ch == Bad || w in sh.bg.done2 then To(sh, Idle) else None
  }

  function NextStopping(sh: Shared, t: Tid, rest: seq<Component>): Option<Out> {
    if rest != [] then To(sh.(bg := sh.bg.(stopped := sh.bg.stopped + {rest[0]})), Waiting(rest))
    else if sh.bg.warmers != {} then None
    else To(sh.(bg := sh.bg.(done1 := sh.bg.done1 + {t})), Exited)
  }

  function NextWaiting(sh: Shared, rest: seq<Component>): Option<Out> {
    if rest == [] || rest[0] in sh.bg.live.Values then None else To(sh, Stopping(rest[1..]))
  }

  function NextShutting(sh: Shared, t: Tid, at: CloseAt): Option<Out> {
    match at
    case Lock => With(LockLifecycle, sh, Shutting(CloseAt.LockMu))
    case LockMu => With(Announce, sh, Shutting(CloseAt.DrainMu))
    case DrainMu => With(Drain, sh, Shutting(CloseDb))
    case CloseDb =>
      if sh.pools.db.Some? then To(Closed(sh, sh.pools.db.value), Shutting(NilDb))
      else To(sh.(pools := sh.pools.(shut := true)), Shutting(CloseAt.ClearConnected))
    case NilDb => To(sh.(pools := sh.pools.(db := None, shut := true)), Shutting(CloseAt.ClearConnected))
    case ClearConnected => ClearConnected(sh, Shutting(CloseAt.UnlockMu))
    case UnlockMu => With(UnlockWriter, sh, Shutting(CloseAt.Unlock))
    case Unlock => With(UnlockLifecycle, sh.(bg := sh.bg.(done2 := sh.bg.done2 + {t})), Exited)
  }

  function NextSetting(sh: Shared, at: SetAt): Option<Out> {
    match at
    case LockMu => With(Announce, sh, Setting(SetAt.DrainMu))
    case DrainMu => With(Drain, sh, Setting(SetAt.Store))
    case Store => With(UnlockWriter, sh, Idle)
  }

  /** Startup, ReconnectContext and everything they do under lifecycleMu. */
  function NextLifecycle(cfg: Config, sh: Shared, pc: PC, ch: Choice, child: Tid): Option<Out> {
    match pc
    case Startup(st) => NextStartup(cfg, sh, st, ch, child)
    case Reconnect(k, re) => NextReconnect(sh, k, re, ch)
    case Connecting(o, co) => NextConnect(cfg, sh, o, co, ch)
    case Publishing(o, pu) => NextPublish(sh, o, pu, ch)
    case Announcing(o, an) => NextAnnounce(cfg, sh, o, an, ch)
    case Finishing(o) => With(UnlockLifecycle, sh, if o.ByStartup? then Idle else AfterReconnecting(o.k, true))
    case _ => None
  }

  /** Operations that look at the pool and may at most clear `connected`. */
  function NextObserver(cfg: Config, sh: Shared, pc: PC, ch: Choice): Option<Out> {
    match pc
    case Probe(k, pr) => NextProbe(cfg, sh, k, pr, ch)
    case AutoDecide => To(sh, if ch == Bad then Idle else Reconnect(ToAuto, ReconnectAt.Lock))
    case Get(g, ge) => NextGet(cfg, sh, g, ge, ch)
    case Validate(again, va) => NextValidate(cfg, sh, again, va, ch)
    case Health(he) => NextHealth(sh, he, ch)
    case Check(ck) => NextCheck(cfg, sh, ck, ch)
    case Stats(sa) => NextStats(sh, sa)
    case Warm(wa) => NextWarm(sh, wa)
    case Setting(se) => NextSetting(sh, se)
    case _ => None
  }

  /** CleanupTasksContext and its two phases. */
  function NextTeardown(sh: Shared, t: Tid, pc: PC, ch: Choice, child: Tid): Option<Out> {
    match pc
    case Cleanup(cl) => NextCleanup(sh, cl, ch, child)
    case Stopping(rest) => NextStopping(sh, t, rest)
    case Waiting(rest) => NextWaiting(sh, rest)
    case Shutting(cz) => NextShutting(sh, t, cz)
    case _ => None
  }

  predicate InLifecycle(pc: PC) {
    pc.Startup? || pc.Reconnect? || pc.Connecting? || pc.Publishing? || pc.Announcing? || pc.Finishing?
  }

  predicate InTeardown(pc: PC) {
    pc.Cleanup? || pc.Stopping? || pc.Waiting? || pc.Shutting?
  }

  /** One atomic action of goroutine `t`; None when it is blocked or the choice does not apply. */
  function Next(cfg: Config, sh: Shared, t: Tid, th: Thread, ch: Choice, child: Tid): Option<Out> {
    if th.pc.Idle? then NextIdle(cfg, sh, t, th.home, ch)
    else if ch.Start? then None
    else if InLifecycle(th.pc) then NextLifecycle(cfg, sh, th.pc, ch, child)
    else if InTeardown(th.pc) then NextTeardown(sh, t, th.pc, ch, child)
    else NextObserver(cfg, sh, th.pc, ch)
  }

  /** Which goroutine moves, what happens to it, and the name of the goroutine it may start. */
  datatype Label = Label(t: Tid, ch: Choice, child: Tid)

  /** The action's outcome, carried into the state. */
  function Apply(s: State, l: Label, o: Out): State {
    var moved := s.threads[l.t := ThreadOf(s, l.t).(pc := o.pc)];
    State(o.sh, LockEffect(o.lock, s.locks, l.t), if o.spawn.Some? then moved[l.child := o.spawn.value] else moved)
  }

  /** The locks allow the action, and a goroutine it starts gets an unused name. */
  predicate Allowed(s: State, l: Label, o: Out) {
    LockEnabled(o.lock, s.locks) && (o.spawn.Some? ==> l.child !in s.threads && l.child != l.t)
  }

  function Step(cfg: Config, s: State, l: Label): Option<State> {
    var n := Next(cfg, s.sh, l.t, ThreadOf(s, l.t), l.ch, l.child);
    if n.Some? && Allowed(s, l, n.value) then Some(Apply(s, l, n.value)) else None
  }

  /** A run from the initial state: `labels[i]` takes `states[i]` to `states[i+1]`. */
  ghost predicate IsRun(cfg: Config, states: seq<State>, labels: seq<Label>) {
    && |states| == |labels| + 1
    && states[0] == INIT
    && forall i {:trigger Step(cfg, states[i], labels[i])} ::
         0 <= i < |labels| ==> Step(cfg, states[i], labels[i]) == Some(states[i + 1])
  }
}
