/**
 The whole invariant, and its proof for every reachable state: whatever interleaving of any number of
 goroutines, driver outcomes and context expiries a run consists of, all of its states satisfy `Inv`.
 */
module PluginReachable {
  import opened Wrappers
  import opened PluginMachine
  import opened PluginLocks
  import opened PluginInvariant
  import opened PluginLocal

  /** The program counter of the goroutine that holds lifecycleMu; Idle when nobody does. */
  function HolderPC(s: State): PC {
    if s.locks.lifecycleMu.Some? then ThreadOf(s, s.locks.lifecycleMu.value).pc else Idle
  }

  ghost predicate ThreadsOk(s: State) {
    forall t :: t in s.threads ==> LocalOk(s.sh, s.threads[t].pc) && HomeOk(s.threads[t])
  }

  /** A component's wait group counts exactly its goroutines that have not returned. */
  ghost predicate LiveOk(s: State) {
    && (forall t :: t in s.sh.bg.live ==>
                      t in s.threads && s.threads[t].home == Worker(s.sh.bg.live[t]) && !s.threads[t].pc.Exited?)
    && (forall t :: t in s.threads && s.threads[t].home.Worker? && !s.threads[t].pc.Exited? ==> t in s.sh.bg.live)
  }

  /** So does the plugin's own, for its warmup goroutines. */
  ghost predicate WarmersOk(s: State) {
    && (forall t :: t in s.sh.bg.warmers ==> t in s.threads && s.threads[t].home.Warmer? && !s.threads[t].pc.Exited?)
    && (forall t :: t in s.threads && s.threads[t].home.Warmer? && !s.threads[t].pc.Exited? ==> t in s.sh.bg.warmers)
  }

  predicate InPhase1(s: State, w: Tid) {
    w in s.sh.bg.done1 || (w in s.threads && (s.threads[w].pc.Stopping? || s.threads[w].pc.Waiting?))
  }

  predicate InPhase2(s: State, w: Tid) {
    w in s.sh.bg.done2 || (w in s.threads && s.threads[w].pc.Shutting?)
  }

  /** A Cleanup that waits for a phase waits for a goroutine that runs it or has reported. */
  ghost predicate AwaitsOk(s: State) {
    && (forall t :: t in s.threads && s.threads[t].pc.Cleanup? && s.threads[t].pc.cl.Await1? ==>
                      InPhase1(s, s.threads[t].pc.cl.w))
    && (forall t :: t in s.threads && s.threads[t].pc.Cleanup? && s.threads[t].pc.cl.Await2? ==>
                      InPhase2(s, s.threads[t].pc.cl.w))
  }

  ghost predicate HolderOk(cfg: Config, sh: Shared, pc: PC) {
    && PoolInv(sh.closing, sh.bg.done2, sh.pools, PhaseOf(pc))
    && Imbalance(sh, pc) == (0, 0)
    && AnnounceInv(cfg, sh, pc)
  }

  ghost predicate Inv(cfg: Config, s: State) {
    && LockInv(s)
    && HolderOk(cfg, s.sh, HolderPC(s))
    && ThreadsOk(s)
    && LiveOk(s)
    && WarmersOk(s)
    && AwaitsOk(s)
  }

  // ---------------------------------------------------------------- one action, all families

  ghost predicate OutAll(cfg: Config, sh: Shared, t: Tid, child: Tid, th: Thread, o: Out) {
    && OutPools(sh, th.pc, o)
    && OutBooks(cfg, sh, th.pc, o)
    && Touches(sh, th.pc, o)
    && OutLocal(sh, t, child, th.home, th.pc, o)
  }

  ghost predicate Ready(sh: Shared, th: Thread) {
    LocalOk(sh, th.pc) && HomeOk(th) && Known(sh, th.pc)
  }

  lemma LifecycleOut(cfg: Config, sh: Shared, t: Tid, th: Thread, ch: Choice, child: Tid)
    requires Ready(sh, th) && NextLifecycle(cfg, sh, th.pc, ch, child).Some?
    ensures OutAll(cfg, sh, t, child, th, NextLifecycle(cfg, sh, th.pc, ch, child).value)
  {
    var home := th.home;
    assert th == Thread(home, th.pc);
    match th.pc
    case Startup(st) =>
      StartupMoves(cfg, sh, st, ch, child);
      StartupBooks(cfg, sh, st, ch, child);
      StartupTouches(cfg, sh, st, ch, child);
      StartupLocal(cfg, sh, t, child, home, st, ch);
    case Reconnect(k, re) =>
      ReconnectMoves(sh, k, re, ch);
      ReconnectBooks(cfg, sh, k, re, ch);
      ReconnectTouches(sh, k, re, ch);
      ReconnectLocal(sh, t, child, home, k, re, ch);
    case Connecting(o, co) =>
      ConnectMoves(cfg, sh, o, co, ch);
      ConnectBooks(cfg, sh, o, co, ch);
      ConnectTouches(cfg, sh, o, co, ch);
      ConnectLocal(cfg, sh, t, child, home, o, co, ch);
    case Publishing(o, pu) =>
      PublishMoves(sh, o, pu, ch);
      PublishBooks(cfg, sh, o, pu, ch);
      PublishTouches(sh, o, pu, ch);
      PublishLocal(sh, t, child, home, o, pu, ch);
    case Announcing(o, an) =>
      AnnounceMoves(cfg, sh, o, an, ch);
      AnnounceBooks(cfg, sh, o, an, ch);
      AnnounceTouches(cfg, sh, o, an, ch);
      AnnounceLocal(cfg, sh, t, child, home, o, an, ch);
    case Finishing(o) =>
  }

  /** Without lifecycleMu an action at most clears `connected`, as far as the pools are concerned. */
  ghost predicate Harmless(sh: Shared, pc: PC, o: Out) {
    && (o.sh.pools == sh.pools || o.sh.pools == sh.pools.(connected := false))
    && o.sh.metrics == sh.metrics && o.sh.runtime == sh.runtime
    && (sh.closing ==> o.sh.closing) && o.sh.bg.done2 == sh.bg.done2
    && !HoldsLifecycle(pc) && !HoldsLifecycle(o.pc)
    && StartsNothing(sh, o)
  }

  lemma HarmlessPools(sh: Shared, pc: PC, o: Out)
    requires Harmless(sh, pc, o)
    ensures OutPools(sh, pc, o)
  {
    OutsiderQuiet(pc);
    OutsiderQuiet(o.pc);
  }

  lemma HarmlessBooks(cfg: Config, sh: Shared, pc: PC, o: Out)
    requires Harmless(sh, pc, o)
    ensures OutBooks(cfg, sh, pc, o)
  {
    OutsiderQuiet(pc);
    OutsiderQuiet(o.pc);
  }

  lemma HarmlessTouches(sh: Shared, pc: PC, o: Out)
    requires Harmless(sh, pc, o)
    ensures Touches(sh, pc, o)
  {
  }

  lemma HarmlessOut(cfg: Config, sh: Shared, pc: PC, o: Out)
    requires Harmless(sh, pc, o)
    ensures OutPools(sh, pc, o) && OutBooks(cfg, sh, pc, o) && Touches(sh, pc, o)
  {
    HarmlessPools(sh, pc, o);
    HarmlessBooks(cfg, sh, pc, o);
    HarmlessTouches(sh, pc, o);
  }

  lemma ProbeHarmlessFirst(cfg: Config, sh: Shared, k: AfterProbe, at: ProbeAt, ch: Choice)
    requires at.Flag? || at.Closing? || at.RLock?
    requires NextProbe(cfg, sh, k, at, ch).Some?
    ensures Harmless(sh, Probe(k, at), NextProbe(cfg, sh, k, at, ch).value)
  {
  }

  lemma ProbeHarmless(cfg: Config, sh: Shared, k: AfterProbe, at: ProbeAt, ch: Choice)
    requires NextProbe(cfg, sh, k, at, ch).Some?
    ensures Harmless(sh, Probe(k, at), NextProbe(cfg, sh, k, at, ch).value)
  {
    if at.Flag? || at.Closing? || at.RLock? {
      ProbeHarmlessFirst(cfg, sh, k, at, ch);
    }
  }

  lemma GetHarmless(cfg: Config, sh: Shared, g: AfterGet, at: GetAt, ch: Choice)
    requires NextGet(cfg, sh, g, at, ch).Some?
    ensures Harmless(sh, Get(g, at), NextGet(cfg, sh, g, at, ch).value)
  {
  }

  lemma HealthHarmless(sh: Shared, at: HealthAt, ch: Choice)
    requires NextHealth(sh, at, ch).Some?
    ensures Harmless(sh, Health(at), NextHealth(sh, at, ch).value)
  {
  }

  lemma CheckHarmless(cfg: Config, sh: Shared, at: CheckAt, ch: Choice)
    requires NextCheck(cfg, sh, at, ch).Some?
    ensures Harmless(sh, Check(at), NextCheck(cfg, sh, at, ch).value)
  {
  }

  lemma StatsHarmless(sh: Shared, at: StatsAt)
    requires NextStats(sh, at).Some?
    ensures Harmless(sh, Stats(at), NextStats(sh, at).value)
  {
  }

  lemma WarmHarmless(sh: Shared, at: WarmAt)
    requires NextWarm(sh, at).Some?
    ensures Harmless(sh, Warm(at), NextWarm(sh, at).value)
  {
  }

  lemma CleanupHarmless(sh: Shared, at: CleanupAt, ch: Choice, child: Tid)
    requires NextCleanup(sh, at, ch, child).Some?
    ensures Harmless(sh, Cleanup(at), NextCleanup(sh, at, ch, child).value)
  {
  }

  lemma IdleHarmless(cfg: Config, sh: Shared, t: Tid, home: Home, ch: Choice)
    requires NextIdle(cfg, sh, t, home, ch).Some?
    ensures Harmless(sh, Idle, NextIdle(cfg, sh, t, home, ch).value)
  {
  }

  lemma HealthLocal(sh: Shared, t: Tid, child: Tid, home: Home, at: HealthAt, ch: Choice)
    requires Ready(sh, Thread(home, Health(at))) && NextHealth(sh, at, ch).Some?
    ensures OutLocal(sh, t, child, home, Health(at), NextHealth(sh, at, ch).value)
  {
  }

  lemma StatsLocal(sh: Shared, t: Tid, child: Tid, home: Home, at: StatsAt)
    requires Ready(sh, Thread(home, Stats(at))) && NextStats(sh, at).Some?
    ensures OutLocal(sh, t, child, home, Stats(at), NextStats(sh, at).value)
  {
  }

  lemma WarmLocal(sh: Shared, t: Tid, child: Tid, home: Home, at: WarmAt)
    requires Ready(sh, Thread(home, Warm(at))) && NextWarm(sh, at).Some?
    ensures OutLocal(sh, t, child, home, Warm(at), NextWarm(sh, at).value)
  {
  }

  lemma IdleLocalCaller(cfg: Config, sh: Shared, t: Tid, child: Tid, home: Home, ch: Choice)
    requires home.Caller?
    requires Ready(sh, Thread(home, Idle)) && NextIdle(cfg, sh, t, home, ch).Some?
    ensures OutLocal(sh, t, child, home, Idle, NextIdle(cfg, sh, t, home, ch).value)
  {
  }

  lemma IdleLocal(cfg: Config, sh: Shared, t: Tid, child: Tid, home: Home, ch: Choice)
    requires Ready(sh, Thread(home, Idle)) && NextIdle(cfg, sh, t, home, ch).Some?
    ensures OutLocal(sh, t, child, home, Idle, NextIdle(cfg, sh, t, home, ch).value)
  {
    if home.Caller? {
      IdleLocalCaller(cfg, sh, t, child, home, ch);
    }
  }

  /** AutoDecide, GetValidatedConn and the setters. */
  lemma ValidateLocal(cfg: Config, sh: Shared, t: Tid, child: Tid, th: Thread, ch: Choice)
    requires th.pc.Validate?
    requires Ready(sh, th) && (th.pc.AutoDecide? || th.pc.Validate? || th.pc.Setting?)
    requires NextObserver(cfg, sh, th.pc, ch).Some?
    ensures OutLocal(sh, t, child, th.home, th.pc, NextObserver(cfg, sh, th.pc, ch).value)
  {
  }

  lemma OthersLocal(cfg: Config, sh: Shared, t: Tid, child: Tid, th: Thread, ch: Choice)
    requires Ready(sh, th) && (th.pc.AutoDecide? || th.pc.Validate? || th.pc.Setting?)
    requires NextObserver(cfg, sh, th.pc, ch).Some?
    ensures OutLocal(sh, t, child, th.home, th.pc, NextObserver(cfg, sh, th.pc, ch).value)
  {
    if th.pc.Validate? {
      ValidateLocal(cfg, sh, t, child, th, ch);
    }
  }

  lemma ObserverHarmless(cfg: Config, sh: Shared, pc: PC, ch: Choice)
    requires NextObserver(cfg, sh, pc, ch).Some?
    ensures Harmless(sh, pc, NextObserver(cfg, sh, pc, ch).value)
  {
    match pc
    case Probe(k, pr) => ProbeHarmless(cfg, sh, k, pr, ch);
    case Get(g, ge) => GetHarmless(cfg, sh, g, ge, ch);
    case Check(ck) => CheckHarmless(cfg, sh, ck, ch);
    case Health(he) => HealthHarmless(sh, he, ch);
    case Stats(sa) => StatsHarmless(sh, sa);
    case Warm(wa) => WarmHarmless(sh, wa);
    case AutoDecide =>
    case Validate(again, va) =>
    case Setting(se) =>
  }

  lemma ObserverLocal(cfg: Config, sh: Shared, t: Tid, th: Thread, ch: Choice, child: Tid)
    requires Ready(sh, th) && NextObserver(cfg, sh, th.pc, ch).Some?
    ensures OutLocal(sh, t, child, th.home, th.pc, NextObserver(cfg, sh, th.pc, ch).value)
  {
    var home := th.home;
    assert th == Thread(home, th.pc);
    match th.pc
    case Probe(k, pr) => ProbeLocal(cfg, sh, t, child, home, k, pr, ch);
    case Get(g, ge) => GetLocal(cfg, sh, t, child, home, g, ge, ch);
    case Check(ck) => CheckLocal(cfg, sh, t, child, home, ck, ch);
    case Health(he) => HealthLocal(sh, t, child, home, he, ch);
    case Stats(sa) => StatsLocal(sh, t, child, home, sa);
    case Warm(wa) => WarmLocal(sh, t, child, home, wa);
    case AutoDecide => OthersLocal(cfg, sh, t, child, th, ch);
    case Validate(again, va) => OthersLocal(cfg, sh, t, child, th, ch);
    case Setting(se) => OthersLocal(cfg, sh, t, child, th, ch);
  }

  lemma ObserverOut(cfg: Config, sh: Shared, t: Tid, th: Thread, ch: Choice, child: Tid)
    requires Ready(sh, th) && NextObserver(cfg, sh, th.pc, ch).Some?
    ensures OutAll(cfg, sh, t, child, th, NextObserver(cfg, sh, th.pc, ch).value)
  {
    ObserverHarmless(cfg, sh, th.pc, ch);
    HarmlessOut(cfg, sh, th.pc, NextObserver(cfg, sh, th.pc, ch).value);
    ObserverLocal(cfg, sh, t, th, ch, child);
  }

  lemma TeardownOut(cfg: Config, sh: Shared, t: Tid, th: Thread, ch: Choice, child: Tid)
    requires Ready(sh, th) && NextTeardown(sh, t, th.pc, ch, child).Some?
    ensures OutAll(cfg, sh, t, child, th, NextTeardown(sh, t, th.pc, ch, child).value)
  {
    var home := th.home;
    assert th == Thread(home, th.pc);
    match th.pc
    case Cleanup(cl) =>
      CleanupHarmless(sh, cl, ch, child);
      HarmlessOut(cfg, sh, th.pc, NextCleanup(sh, cl, ch, child).value);
      CleanupLocal(sh, t, child, home, cl, ch);
    case Stopping(rest) => HarmlessOut(cfg, sh, th.pc, NextStopping(sh, t, rest).value);
    case Waiting(rest) => HarmlessOut(cfg, sh, th.pc, NextWaiting(sh, rest).value);
    case Shutting(cz) =>
      ShuttingMoves(sh, t, cz);
      ShuttingBooks(cfg, sh, t, cz);
      ShuttingTouches(sh, t, cz);
      ShuttingLocal(sh, t, child, home, cz);
  }

  lemma IdleOut(cfg: Config, sh: Shared, t: Tid, home: Home, ch: Choice, child: Tid)
    requires Ready(sh, Thread(home, Idle)) && NextIdle(cfg, sh, t, home, ch).Some?
    ensures OutAll(cfg, sh, t, child, Thread(home, Idle), NextIdle(cfg, sh, t, home, ch).value)
  {
    IdleHarmless(cfg, sh, t, home, ch);
    HarmlessOut(cfg, sh, Idle, NextIdle(cfg, sh, t, home, ch).value);
    IdleLocal(cfg, sh, t, child, home, ch);
  }

  lemma NextOut(cfg: Config, sh: Shared, t: Tid, th: Thread, ch: Choice, child: Tid)
    requires Ready(sh, th) && Next(cfg, sh, t, th, ch, child).Some?
    ensures OutAll(cfg, sh, t, child, th, Next(cfg, sh, t, th, ch, child).value)
  {
    if th.pc.Idle? {
      assert th == Thread(th.home, Idle);
      IdleOut(cfg, sh, t, th.home, ch, child);
    } else if InLifecycle(th.pc) {
      LifecycleOut(cfg, sh, t, th, ch, child);
    } else if InTeardown(th.pc) {
      TeardownOut(cfg, sh, t, th, ch, child);
    } else {
      ObserverOut(cfg, sh, t, th, ch, child);
    }
  }

  // ---------------------------------------------------------------- one step

  /** Whoever does not hold lifecycleMu might as well be idle. */
  lemma OutsiderOk(cfg: Config, sh: Shared, pc: PC)
    requires !HoldsLifecycle(pc)
    ensures HolderOk(cfg, sh, pc) <==> HolderOk(cfg, sh, Idle)
  {
  }

  lemma KnownOf(sh: Shared, holder: PC, pc: PC)
    requires PoolInv(sh.closing, sh.bg.done2, sh.pools, PhaseOf(holder))
    requires pc == holder || !HoldsLifecycle(pc)
    ensures Known(sh, pc)
  {
  }

  /** The thread that moves is ready for its move, and the holder is either itself or another thread. */
  lemma ReadyToMove(cfg: Config, s: State, t: Tid)
    requires Inv(cfg, s)
    ensures Ready(s.sh, ThreadOf(s, t))
    ensures HoldsLifecycle(ThreadOf(s, t).pc) ==> HolderPC(s) == ThreadOf(s, t).pc
  {
    KnownOf(s.sh, HolderPC(s), ThreadOf(s, t).pc);
  }

  lemma MoveHolder(cfg: Config, sh: Shared, pc: PC, o: Out)
    requires HolderOk(cfg, sh, pc) && OutPools(sh, pc, o) && OutBooks(cfg, sh, pc, o)
    ensures HolderOk(cfg, o.sh, o.pc)
  {
    MoveInv(sh, pc, o);
  }

  lemma BystanderHolder(cfg: Config, sh: Shared, pc: PC, o: Out, holder: PC)
    requires HolderOk(cfg, sh, holder) && OutPools(sh, pc, o) && OutBooks(cfg, sh, pc, o)
    requires !HoldsLifecycle(pc) && !HoldsLifecycle(o.pc)
    ensures HolderOk(cfg, o.sh, holder)
  {
    OutsiderQuiet(pc);
    OutsiderQuiet(o.pc);
    BystanderInv(sh, pc, o, PhaseOf(holder));
    BystanderBooks(cfg, sh, pc, o, holder);
  }

  lemma BystanderBooks(cfg: Config, sh: Shared, pc: PC, o: Out, holder: PC)
    requires Imbalance(sh, holder) == (0, 0) && AnnounceInv(cfg, sh, holder) && OutBooks(cfg, sh, pc, o)
    requires !HoldsLifecycle(pc) && !HoldsLifecycle(o.pc)
    ensures Imbalance(o.sh, holder) == (0, 0) && AnnounceInv(cfg, o.sh, holder)
  {
    OutsiderQuiet(pc);
    OutsiderQuiet(o.pc);
  }

  /** Goroutine `l.t` is about to do `o`: the case checks above, gathered. */
  ghost predicate Does(cfg: Config, s: State, l: Label, o: Out) {
    && Allowed(s, l, o)
    && OutLocks(ThreadOf(s, l.t).pc, o)
    && OutAll(cfg, s.sh, l.t, l.child, ThreadOf(s, l.t), o)
  }

  lemma StepDoes(cfg: Config, s: State, l: Label) returns (o: Out)
    requires Inv(cfg, s) && Step(cfg, s, l).Some?
    ensures Does(cfg, s, l, o) && Step(cfg, s, l).value == Apply(s, l, o)
    ensures Next(cfg, s.sh, l.t, ThreadOf(s, l.t), l.ch, l.child) == Some(o)
  {
    var th := ThreadOf(s, l.t);
    o := Next(cfg, s.sh, l.t, th, l.ch, l.child).value;
    ReadyToMove(cfg, s, l.t);
    NextOut(cfg, s.sh, l.t, th, l.ch, l.child);
    NextLocks(cfg, s.sh, l.t, th, l.ch, l.child);
  }

  /** The holder after the step is who the moved program counter says, if it says anything. */
  lemma HolderFollows(s: State, l: Label, o: Out)
    requires LockInv(s) && Allowed(s, l, o) && OutLocks(ThreadOf(s, l.t).pc, o)
    ensures var pc := ThreadOf(s, l.t).pc;
            && HolderPC(Apply(s, l, o)) == (if HoldsLifecycle(o.pc) then o.pc else if HoldsLifecycle(pc) then Idle
                else HolderPC(s))
            && (HoldsLifecycle(pc) ==> HolderPC(s) == pc)
            && (HoldsLifecycle(o.pc) && !HoldsLifecycle(pc) ==> HolderPC(s) == Idle)
  {
    assert l.t in s.threads ==> LockThread(s, l.t);
    assert s.locks.lifecycleMu.Some? ==> LockThread(s, s.locks.lifecycleMu.value);
  }

  lemma HolderAfter(cfg: Config, s: State, l: Label, o: Out)
    requires Inv(cfg, s) && Does(cfg, s, l, o)
    ensures var pc := ThreadOf(s, l.t).pc;
            HolderPC(Apply(s, l, o)) == (if HoldsLifecycle(o.pc) then o.pc else if HoldsLifecycle(pc) then Idle
                else HolderPC(s))
    ensures HoldsLifecycle(o.pc) && !HoldsLifecycle(ThreadOf(s, l.t).pc) ==> HolderPC(s) == Idle
  {
    HolderFollows(s, l, o);
  }

  /** How the holder's phase follows the goroutine that moves. */
  lemma PhasesFollow(holder: PC, pc: PC, pc': PC, holder': PC)
    requires holder' == (if HoldsLifecycle(pc') then pc' else if HoldsLifecycle(pc) then Idle else holder)
    requires HoldsLifecycle(pc) ==> holder == pc
    requires HoldsLifecycle(pc') && !HoldsLifecycle(pc) ==> holder == Idle
    ensures if HoldsLifecycle(pc) || HoldsLifecycle(pc') then PhaseOf(holder) == PhaseOf(pc) &&
        PhaseOf(holder') == PhaseOf(pc')
            else PhaseOf(pc).Quiet? && PhaseOf(pc').Quiet? && holder' == holder
  {
    if !HoldsLifecycle(pc) {
      OutsiderQuiet(pc);
    }
    if !HoldsLifecycle(pc') {
      OutsiderQuiet(pc');
    }
  }

  lemma HolderPhases(cfg: Config, s: State, l: Label, o: Out)
    requires Inv(cfg, s) && Does(cfg, s, l, o)
    ensures var pc := ThreadOf(s, l.t).pc; var s' := Apply(s, l, o);
            if HoldsLifecycle(pc) || HoldsLifecycle(o.pc)
            then PhaseOf(HolderPC(s)) == PhaseOf(pc) && PhaseOf(HolderPC(s')) == PhaseOf(o.pc)
            else PhaseOf(pc).Quiet? && PhaseOf(o.pc).Quiet? && HolderPC(s') == HolderPC(s)
  {
    HolderFollows(s, l, o);
    PhasesFollow(HolderPC(s), ThreadOf(s, l.t).pc, o.pc, HolderPC(Apply(s, l, o)));
  }

  lemma ApplyHolder(cfg: Config, s: State, l: Label, o: Out)
    requires Inv(cfg, s) && Does(cfg, s, l, o)
    ensures HolderOk(cfg, o.sh, HolderPC(Apply(s, l, o)))
  {
    var pc := ThreadOf(s, l.t).pc;
    ReadyToMove(cfg, s, l.t);
    HolderAfter(cfg, s, l, o);
    HolderPreserved(cfg, s.sh, HolderPC(s), pc, o, HolderPC(Apply(s, l, o)));
  }

  lemma HolderPreserved(cfg: Config, sh: Shared, holder: PC, pc: PC, o: Out, after: PC)
    requires HolderOk(cfg, sh, holder) && OutPools(sh, pc, o) && OutBooks(cfg, sh, pc, o)
    requires HoldsLifecycle(pc) ==> holder == pc
    requires HoldsLifecycle(o.pc) && !HoldsLifecycle(pc) ==> holder == Idle
    requires after == (if HoldsLifecycle(o.pc) then o.pc else if HoldsLifecycle(pc) then Idle else holder)
    ensures HolderOk(cfg, o.sh, after)
  {
    if HoldsLifecycle(pc) || HoldsLifecycle(o.pc) {
      if !HoldsLifecycle(pc) {
        OutsiderOk(cfg, sh, pc);
      }
      MoveHolder(cfg, sh, pc, o);
      if !HoldsLifecycle(o.pc) {
        OutsiderOk(cfg, o.sh, o.pc);
      }
    } else {
      BystanderHolder(cfg, sh, pc, o, holder);
    }
  }

  lemma ApplyThreads(cfg: Config, s: State, l: Label, o: Out)
    requires Inv(cfg, s) && Does(cfg, s, l, o)
    ensures ThreadsOk(Apply(s, l, o))
  {
    var s' := Apply(s, l, o);
    forall u | u in s'.threads ensures LocalOk(s'.sh, s'.threads[u].pc) && HomeOk(s'.threads[u]) {
      if u in s.threads && u != l.t {
        LocalStable(s.sh, s'.sh, s.threads[u].pc);
      }
    }
  }

  lemma ApplyLiveExists(cfg: Config, s: State, l: Label, o: Out, u: Tid)
    requires LiveOk(s) && Does(cfg, s, l, o) && u in o.sh.bg.live
    ensures var s' := Apply(s, l, o);
            u in s'.threads && s'.threads[u].home == Worker(s'.sh.bg.live[u]) && !s'.threads[u].pc.Exited?
  {
  }

  lemma ApplyLive(cfg: Config, s: State, l: Label, o: Out)
    requires LiveOk(s) && Does(cfg, s, l, o)
    ensures LiveOk(Apply(s, l, o))
  {
    var s' := Apply(s, l, o);
    forall u | u in s'.sh.bg.live
      ensures u in s'.threads && s'.threads[u].home == Worker(s'.sh.bg.live[u]) && !s'.threads[u].pc.Exited?
    {
      ApplyLiveExists(cfg, s, l, o, u);
    }
    forall u | u in s'.threads && s'.threads[u].home.Worker? && !s'.threads[u].pc.Exited? ensures u in s'.sh.bg.live {
      if u in s.threads {
        assert s'.threads[u].home == s.threads[u].home;
      }
    }
  }

  lemma ApplyWarmers(cfg: Config, s: State, l: Label, o: Out)
    requires WarmersOk(s) && Does(cfg, s, l, o)
    ensures WarmersOk(Apply(s, l, o))
  {
    var s' := Apply(s, l, o);
    forall u | u in s'.threads && s'.threads[u].home.Warmer? && !s'.threads[u].pc.Exited?
        ensures u in s'.sh.bg.warmers {
      if u in s.threads {
        assert s'.threads[u].home == s.threads[u].home;
      }
    }
  }

  lemma ApplyPhases(cfg: Config, s: State, l: Label, o: Out, w: Tid)
    requires Does(cfg, s, l, o)
    ensures InPhase1(s, w) ==> InPhase1(Apply(s, l, o), w)
    ensures InPhase2(s, w) ==> InPhase2(Apply(s, l, o), w)
  {
  }

  lemma ApplyAwaits(cfg: Config, s: State, l: Label, o: Out)
    requires AwaitsOk(s) && Does(cfg, s, l, o)
    ensures AwaitsOk(Apply(s, l, o))
  {
    var s' := Apply(s, l, o);
    forall u | u in s'.threads && s'.threads[u].pc.Cleanup? && s'.threads[u].pc.cl.Await1?
      ensures InPhase1(s', s'.threads[u].pc.cl.w)
    {
      ApplyPhases(cfg, s, l, o, s'.threads[u].pc.cl.w);
    }
    forall u | u in s'.threads && s'.threads[u].pc.Cleanup? && s'.threads[u].pc.cl.Await2?
      ensures InPhase2(s', s'.threads[u].pc.cl.w)
    {
      ApplyPhases(cfg, s, l, o, s'.threads[u].pc.cl.w);
    }
  }

  /** Every step keeps the invariant. */
  lemma StepInv(cfg: Config, s: State, l: Label)
    requires Inv(cfg, s) && Step(cfg, s, l).Some?
    ensures Inv(cfg, Step(cfg, s, l).value)
  {
    var o := StepDoes(cfg, s, l);
    ApplyInv(cfg, s, l, o);
  }

  lemma ApplyInv(cfg: Config, s: State, l: Label, o: Out)
    requires Inv(cfg, s) && Does(cfg, s, l, o)
    ensures Inv(cfg, Apply(s, l, o))
  {
    ApplyLocks(s, l, o);
    ApplyHolder(cfg, s, l, o);
    ApplyThreads(cfg, s, l, o);
    ApplyLive(cfg, s, l, o);
    ApplyWarmers(cfg, s, l, o);
    ApplyAwaits(cfg, s, l, o);
  }

  lemma InitPools()
    ensures PoolInv(false, {}, INIT.sh.pools, Quiet)
  {
    var ps := INIT.sh.pools;
    forall p: PoolId ensures Places(ps, Quiet, p) == One(p < ps.created) {
    }
    assert Replaced(ps, Quiet) == [] == ButLast(ps.history);
    assert multiset(ps.orphans) == multiset{};
  }

  lemma InitInv(cfg: Config)
    ensures Inv(cfg, INIT)
  {
    InitPools();
  }

  /** Every state of every run satisfies the invariant. */
  lemma {:induction false} RunInv(cfg: Config, states: seq<State>, labels: seq<Label>, i: nat)
    requires IsRun(cfg, states, labels) && i < |states|
    ensures Inv(cfg, states[i])
  {
    if i == 0 {
      InitInv(cfg);
    } else {
      RunInv(cfg, states, labels, i - 1);
      assert Step(cfg, states[i - 1], labels[i - 1]) == Some(states[i - 1 + 1]);
      StepInv(cfg, states[i - 1], labels[i - 1]);
    }
  }

  // ---------------------------------------------------------------- runs, explained

  /** Step `i` goes from a good state to the next by what `outs[i]` says. */
  ghost predicate StepOk(cfg: Config, states: seq<State>, labels: seq<Label>, outs: seq<Out>, i: nat)
    requires i < |labels| == |outs| && |states| == |labels| + 1
  {
    && Inv(cfg, states[i]) && Does(cfg, states[i], labels[i], outs[i])
    && states[i + 1] == Apply(states[i], labels[i], outs[i])
  }

  /** A run together with what each step did; later proofs need nothing else of a run. */
  ghost predicate Explained(cfg: Config, states: seq<State>, labels: seq<Label>, outs: seq<Out>) {
    && |states| == |labels| + 1 && |outs| == |labels|
    && states[0] == INIT
    && (forall i :: 0 <= i < |labels| ==> StepOk(cfg, states, labels, outs, i))
    && Inv(cfg, states[|labels|])
  }

  function WhatHappens(cfg: Config, s: State, l: Label): Out {
    var n := Next(cfg, s.sh, l.t, ThreadOf(s, l.t), l.ch, l.child);
    if n.Some? then n.value else Out(s.sh, Idle, NoLock, None)
  }

  lemma ExplainStep(cfg: Config, s: State, l: Label)
    requires Inv(cfg, s) && Step(cfg, s, l).Some?
    ensures Does(cfg, s, l, WhatHappens(cfg, s, l)) && Step(cfg, s, l).value == Apply(s, l, WhatHappens(cfg, s, l))
  {
    var o := StepDoes(cfg, s, l);
  }

  /** Every run can be explained, and every step was the machine's. */
  lemma Explain(cfg: Config, states: seq<State>, labels: seq<Label>) returns (outs: seq<Out>)
    requires IsRun(cfg, states, labels)
    ensures Explained(cfg, states, labels, outs)
    ensures forall i :: 0 <= i < |labels| ==> outs[i] == WhatHappens(cfg, states[i], labels[i])
  {
    outs := seq(|labels|, i requires 0 <= i < |labels| => WhatHappens(cfg, states[i], labels[i]));
    forall i | 0 <= i < |labels| ensures StepOk(cfg, states, labels, outs, i) {
      RunInv(cfg, states, labels, i);
      assert Step(cfg, states[i], labels[i]) == Some(states[i + 1]);
      ExplainStep(cfg, states[i], labels[i]);
    }
    RunInv(cfg, states, labels, |labels|);
  }

  ghost predicate Kept(cfg: Config, P: State -> bool) {
    forall s, l, o :: Inv(cfg, s) && Does(cfg, s, l, o) && P(s) ==> P(Apply(s, l, o))
  }

  lemma StepKeeps(cfg: Config, states: seq<State>, labels: seq<Label>, outs: seq<Out>, i: nat, P: State -> bool)
    requires Explained(cfg, states, labels, outs) && i < |labels| && Kept(cfg, P) && P(states[i])
    ensures P(states[i + 1])
  {
    assert StepOk(cfg, states, labels, outs, i);
  }

  /** What every action keeps, a run keeps. */
  lemma {:induction false} RunKeeps(cfg: Config, states: seq<State>, labels: seq<Label>, outs: seq<Out>,
                                    from: nat, to: nat, P: State -> bool)
    requires Explained(cfg, states, labels, outs) && from <= to < |states|
    requires P(states[from]) && Kept(cfg, P)
    ensures P(states[to])
  {
    if from < to {
      RunKeeps(cfg, states, labels, outs, from, to - 1, P);
      StepKeeps(cfg, states, labels, outs, to - 1, P);
    }
  }

  /** What the machine has goroutine `l.t` do. */
  ghost predicate Actual(cfg: Config, s: State, l: Label, o: Out) {
    Next(cfg, s.sh, l.t, ThreadOf(s, l.t), l.ch, l.child) == Some(o)
  }

  ghost predicate KeptActual(cfg: Config, P: State -> bool) {
    forall s, l, o :: Inv(cfg, s) && Does(cfg, s, l, o) && Actual(cfg, s, l, o) && P(s) ==> P(Apply(s, l, o))
  }

  lemma StepKeepsActual(cfg: Config, states: seq<State>, labels: seq<Label>, i: nat, P: State -> bool)
    requires IsRun(cfg, states, labels) && i < |labels| && KeptActual(cfg, P) && P(states[i])
    ensures P(states[i + 1])
  {
    RunInv(cfg, states, labels, i);
    assert Step(cfg, states[i], labels[i]) == Some(states[i + 1]);
    var o := StepDoes(cfg, states[i], labels[i]);
    assert Actual(cfg, states[i], labels[i], o);
  }

  /** The same for properties that need to know the machine's code. */
  lemma {:induction false} RunKeepsActual(cfg: Config, states: seq<State>, labels: seq<Label>,
                                          from: nat, to: nat, P: State -> bool)
    requires IsRun(cfg, states, labels) && from <= to < |states|
    requires P(states[from]) && KeptActual(cfg, P)
    ensures P(states[to])
  {
    if from < to {
      RunKeepsActual(cfg, states, labels, from, to - 1, P);
      StepKeepsActual(cfg, states, labels, to - 1, P);
    }
  }

  /** A run followed by one more step is a run. */
  lemma ExtendRun(cfg: Config, states: seq<State>, labels: seq<Label>, l: Label, s: State)
    requires IsRun(cfg, states, labels) && Step(cfg, states[|labels|], l) == Some(s)
    ensures IsRun(cfg, states + [s], labels + [l])
  {
    var states', labels' := states + [s], labels + [l];
    forall i | 0 <= i < |labels'| ensures Step(cfg, states'[i], labels'[i]) == Some(states'[i + 1]) {
      if i < |labels| {
        assert Step(cfg, states[i], labels[i]) == Some(states[i + 1]);
      }
    }
  }
}
