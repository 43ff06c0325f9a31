/**
 When a Cleanup can rely on its first phase: the condition at the moment it wins, and that under it the
 background goroutines are gone once the pool is closed.
 */
module PluginHeldBack {
  import opened Wrappers
  import opened PluginMachine
  import opened PluginLocks
  import opened PluginLocal
  import opened PluginReachable
  import opened PluginShutdown
  import opened PluginWorkers
  import opened PluginComponents

  const AUTO := Component(0, AutoReconnecting)
  const LEAK := Component(0, LeakDetecting)

  /** The auto-reconnector `u` waits for lifecycleMu. */
  predicate Blocked(s: State, u: Tid) {
    && u in s.threads && u in s.sh.bg.live && s.sh.bg.live[u] == AUTO
    && s.threads[u].pc == Reconnect(ToAuto, ReconnectAt.Lock)
  }

  /** A Startup has only its leak detector still to start. */
  predicate LeakNext(pc: PC) {
    pc == Startup(StartComponents([LEAK]))
  }

  /** And phase one cannot overtake it: the auto-reconnector, which is stopped before the leak detector,
      waits for the lock that Startup holds. */
  ghost predicate HeldBack(s: State) {
    LeakNext(HolderPC(s)) && exists u :: Blocked(s, u)
  }

  /** At most one Startup has stored components, or there are none to store; and no Startup may still
      start anything, except a leak detector that phase one has to wait for. */
  ghost predicate SafeToClose(cfg: Config, s: State) {
    && (!HasComponents(cfg) || s.sh.bg.generations <= 1)
    && (!MayStart(cfg, HolderPC(s)) || HeldBack(s))
  }

  predicate EndsSo(cs: seq<Component>) {
    |cs| >= 2 && cs[|cs| - 2] == AUTO && cs[|cs| - 1] == LEAK
  }

  predicate StageHeld(pc: PC) {
    && (pc.Cleanup? && pc.cl.Spawn1? ==> EndsSo(pc.cl.cs))
    && (pc.Stopping? || pc.Waiting? ==> EndsSo(pc.rest))
  }

  ghost predicate StagesHeld(s: State) {
    forall t :: t in s.threads ==> StageHeld(s.threads[t].pc)
  }

  /** While the Startup holds phase one back. */
  ghost predicate Held(cfg: Config, s: State, u: Tid) {
    && s.sh.closing && LeakNext(HolderPC(s)) && Blocked(s, u)
    && Stored(cfg, s.sh.bg) && EndsSo(s.sh.bg.components)
    && CoveredSoFar(s.sh) && StagesOk(s) && StagesHeld(s)
  }

  // ---------------------------------------------------------------- one action

  lemma BlockedWaits(cfg: Config, s: State, l: Label, o: Out)
    requires Does(cfg, s, l, o) && Actual(cfg, s, l, o) && s.locks.lifecycleMu.Some?
    ensures ThreadOf(s, l.t).pc != Reconnect(ToAuto, ReconnectAt.Lock)
  {
    if ThreadOf(s, l.t).pc == Reconnect(ToAuto, ReconnectAt.Lock) {
      LocksFirst(cfg, s, l, o);
    }
  }

  lemma LocksFirst(cfg: Config, s: State, l: Label, o: Out)
    requires Actual(cfg, s, l, o) && ThreadOf(s, l.t).pc == Reconnect(ToAuto, ReconnectAt.Lock)
    ensures o.lock == LockLifecycle
  {
  }

  lemma EndsTail(rest: seq<Component>)
    requires EndsSo(rest) && rest[0] != AUTO
    ensures EndsSo(rest[1..])
  {
  }

  lemma EndsHas(cs: seq<Component>)
    requires EndsSo(cs)
    ensures AUTO in cs && LEAK in cs
  {
  }

  ghost predicate OutHeld(o: Out) {
    StageHeld(o.pc) && (o.spawn.Some? ==> StageHeld(o.spawn.value.pc))
  }

  lemma CleanupHeld(sh: Shared, at: CleanupAt, ch: Choice, child: Tid)
    requires NextCleanup(sh, at, ch, child).Some? && StageHeld(Cleanup(at)) && EndsSo(sh.bg.components)
    ensures OutHeld(NextCleanup(sh, at, ch, child).value)
  {
  }

  lemma WaitingHeld(sh: Shared, rest: seq<Component>)
    requires NextWaiting(sh, rest).Some? && EndsSo(rest) && AUTO in sh.bg.live.Values
    ensures OutHeld(NextWaiting(sh, rest).value)
  {
    EndsTail(rest);
  }

  lemma TeardownHeld(cfg: Config, s: State, l: Label, o: Out)
    requires Actual(cfg, s, l, o) && InTeardown(ThreadOf(s, l.t).pc)
    requires StageHeld(ThreadOf(s, l.t).pc) && EndsSo(s.sh.bg.components) && AUTO in s.sh.bg.live.Values
    ensures OutHeld(o)
  {
    match ThreadOf(s, l.t).pc
    case Cleanup(cl) => CleanupHeld(s.sh, cl, l.ch, l.child);
    case Stopping(rest) =>
    case Waiting(rest) => WaitingHeld(s.sh, rest);
    case Shutting(cz) =>
  }

  lemma ElsewhereHeld(cfg: Config, s: State, l: Label, o: Out)
    requires Inv(cfg, s) && Does(cfg, s, l, o) && !InTeardown(ThreadOf(s, l.t).pc)
    ensures OutHeld(o)
  {
    ReadyToMove(cfg, s, l.t);
    OutsideHeld(s.sh, l.t, l.child, ThreadOf(s, l.t), o);
  }

  lemma OutsideHeld(sh: Shared, t: Tid, child: Tid, th: Thread, o: Out)
    requires OutWaits(sh, t, child, th.home, th.pc, o) && HomeOk(th) && HomeOk(Thread(th.home, o.pc))
    requires !InTeardown(th.pc)
    ensures OutHeld(o)
  {
  }

  lemma ActionHeld(cfg: Config, s: State, l: Label, o: Out, u: Tid)
    requires Inv(cfg, s) && Does(cfg, s, l, o) && Actual(cfg, s, l, o) && Held(cfg, s, u)
    ensures OutHeld(o)
  {
    if InTeardown(ThreadOf(s, l.t).pc) {
      assert s.sh.bg.live[u] in s.sh.bg.live.Values;
      TeardownHeld(cfg, s, l, o);
    } else {
      ElsewhereHeld(cfg, s, l, o);
    }
  }

  // ---------------------------------------------------------------- somebody else moves

  lemma BystanderMoves(cfg: Config, s: State, l: Label, o: Out, u: Tid)
    requires Inv(cfg, s) && Does(cfg, s, l, o) && Actual(cfg, s, l, o) && Held(cfg, s, u)
    requires !HoldsLifecycle(ThreadOf(s, l.t).pc)
    ensures CoveredSoFar(o.sh) && StagesOk(Apply(s, l, o)) && Shrinks(s.sh.bg, o.sh.bg) && Stored(cfg, o.sh.bg)
    ensures HolderPC(Apply(s, l, o)) == HolderPC(s)
  {
    var th := ThreadOf(s, l.t);
    MayStartUnderWay(cfg, th.pc);
    ActionStages(cfg, s, l, o);
    CalmAction(cfg, s, l, o);
    CalmShrinks(s.sh, l.t, l.child, th.home, th.pc, o);
    CoveredStays(cfg, s, l, o);
    HolderFollows(s, l, o);
  }

  lemma StillBlocked(cfg: Config, s: State, l: Label, o: Out, u: Tid)
    requires Inv(cfg, s) && Does(cfg, s, l, o) && Blocked(s, u) && l.t != u
    requires o.spawn.Some? ==> !Awaited(o.spawn.value.home)
    ensures Blocked(Apply(s, l, o), u)
  {
  }

  lemma HeldByBystander(cfg: Config, s: State, l: Label, o: Out, u: Tid)
    requires Inv(cfg, s) && Does(cfg, s, l, o) && Actual(cfg, s, l, o) && Held(cfg, s, u)
    requires !HoldsLifecycle(ThreadOf(s, l.t).pc)
    ensures Held(cfg, Apply(s, l, o), u)
  {
    var s', th := Apply(s, l, o), ThreadOf(s, l.t);
    BlockedWaits(cfg, s, l, o);
    BystanderMoves(cfg, s, l, o, u);
    ActionHeld(cfg, s, l, o, u);
    MayStartUnderWay(cfg, th.pc);
    CalmAction(cfg, s, l, o);
    StillBlocked(cfg, s, l, o, u);
    StagesStayHeld(s, l, o);
  }

  lemma StagesStayHeld(s: State, l: Label, o: Out)
    requires StagesHeld(s) && OutHeld(o)
    ensures StagesHeld(Apply(s, l, o))
  {
    var s' := Apply(s, l, o);
    forall t | t in s'.threads ensures StageHeld(s'.threads[t].pc) {
      if t in s.threads && t != l.t {
        assert s.threads[t].pc == s'.threads[t].pc || s'.threads[t] == o.spawn.value;
      }
    }
  }

  // ---------------------------------------------------------------- the Startup goes on

  function LeakOut(sh: Shared, child: Tid): Out {
    Out(sh.(bg := sh.bg.(live := sh.bg.live[child := LEAK])), Startup(StartComponents([])), NoLock,
        Some(Thread(Worker(LEAK), Idle)))
  }

  lemma LeakAction(cfg: Config, s: State, l: Label, o: Out)
    requires Actual(cfg, s, l, o) && LeakNext(ThreadOf(s, l.t).pc)
    ensures o == LeakOut(s.sh, l.child)
  {
    assert [LEAK][1..] == [];
  }

  /** With the leak detector running, phase one still has to stop it. */
  lemma StageCovers(bg: Background, pc: PC, child: Tid)
    requires StageOk(bg, pc) && StageHeld(pc) && bg.live != map[]
    ensures StageOk(bg.(live := bg.live[child := LEAK]), pc)
  {
    if pc.Cleanup? && pc.cl.Spawn1? {
      EndsHas(pc.cl.cs);
    }
    if pc.Stopping? || pc.Waiting? {
      EndsHas(pc.rest);
    }
  }

  lemma LeakStarts(cfg: Config, s: State, l: Label, o: Out, u: Tid)
    requires Inv(cfg, s) && Does(cfg, s, l, o) && Held(cfg, s, u) && LeakNext(ThreadOf(s, l.t).pc)
    requires o == LeakOut(s.sh, l.child)
    ensures WindingDown(cfg, Apply(s, l, o))
  {
    LeakHolder(cfg, s, l, o);
    LeakLedger(s.sh, l.child, u);
    StoredStays(cfg, s.sh.bg, o.sh.bg);
    LeakStages(s, l, o);
  }

  lemma LeakHolder(cfg: Config, s: State, l: Label, o: Out)
    requires Inv(cfg, s) && Does(cfg, s, l, o) && LeakNext(ThreadOf(s, l.t).pc) && o.pc == Startup(StartComponents([]))
    ensures !MayStart(cfg, HolderPC(Apply(s, l, o)))
  {
    HolderFollows(s, l, o);
  }

  lemma LeakLedger(sh: Shared, child: Tid, u: Tid)
    requires CoveredSoFar(sh) && EndsSo(sh.bg.components) && u in sh.bg.live
    ensures CoveredSoFar(sh.(bg := sh.bg.(live := sh.bg.live[child := LEAK])))
  {
    EndsHas(sh.bg.components);
    assert !Gone(sh.bg);
    LeakCovered(sh, child);
  }

  lemma StoredStays(cfg: Config, bg: Background, bg': Background)
    requires Stored(cfg, bg) && bg'.components == bg.components && bg'.generations == bg.generations
    ensures Stored(cfg, bg')
  {
  }

  lemma LeakCovered(sh: Shared, child: Tid)
    requires CoveredSoFar(sh) && !Gone(sh.bg) && LEAK in sh.bg.components
    ensures CoveredSoFar(sh.(bg := sh.bg.(live := sh.bg.live[child := LEAK])))
  {
  }

  lemma LeakStages(s: State, l: Label, o: Out)
    requires StagesOk(s) && StagesHeld(s) && s.sh.bg.live != map[]
    requires o == LeakOut(s.sh, l.child)
    ensures StagesOk(Apply(s, l, o))
  {
    var s' := Apply(s, l, o);
    forall t | t in s'.threads ensures StageOk(s'.sh.bg, s'.threads[t].pc) {
      if t in s.threads && t != l.t && t != l.child {
        StageCovers(s.sh.bg, s.threads[t].pc, l.child);
      }
    }
  }

  lemma HeldKept(cfg: Config, s: State, l: Label, o: Out, u: Tid)
    requires Inv(cfg, s) && Does(cfg, s, l, o) && Actual(cfg, s, l, o) && Held(cfg, s, u)
    ensures Held(cfg, Apply(s, l, o), u) || WindingDown(cfg, Apply(s, l, o))
  {
    HolderFollows(s, l, o);
    if HoldsLifecycle(ThreadOf(s, l.t).pc) {
      LeakAction(cfg, s, l, o);
      LeakStarts(cfg, s, l, o, u);
    } else {
      HeldByBystander(cfg, s, l, o, u);
    }
  }

  // ---------------------------------------------------------------- the win

  lemma ComponentsEnd(cfg: Config)
    requires AUTO in Components(cfg, 0) && LEAK in Components(cfg, 0)
    ensures EndsSo(Components(cfg, 0))
  {
    assert cfg.autoReconnect && cfg.leakDetection;
    var front := (if cfg.healthCheck then [Component(0, HealthChecks)] else []) +
                 (if cfg.monitor then [Component(0, PoolMonitoring)] else []);
    assert Components(cfg, 0) == front + [AUTO, LEAK];
  }

  lemma NoTeardownYet(sh: Shared, pc: PC)
    requires LocalOk(sh, pc) && !sh.closing
    ensures StageHeld(pc)
  {
  }

  lemma LeakIsStored(cfg: Config, sh: Shared, pc: PC)
    requires Ledger(cfg, sh, pc) && LeakNext(pc)
    ensures LEAK in sh.bg.components && sh.bg.generations == 1
  {
    assert sh.bg.components[|sh.bg.components| - 1..] == [LEAK];
    assert sh.bg.components[|sh.bg.components| - 1] == LEAK;
  }

  lemma WinStages(cfg: Config, s: State, l: Label)
    requires Inv(cfg, s) && !s.sh.closing
    ensures StagesHeld(Apply(s, l, Out(s.sh.(closing := true), Cleanup(Cancel), NoLock, None)))
  {
    var s' := Apply(s, l, Out(s.sh.(closing := true), Cleanup(Cancel), NoLock, None));
    forall t | t in s'.threads ensures StageHeld(s'.threads[t].pc) {
      if t in s.threads && t != l.t {
        NoTeardownYet(s.sh, s.threads[t].pc);
      }
    }
  }

  lemma WinEnds(cfg: Config, sh: Shared, pc: PC, u: Tid)
    requires Ledger(cfg, sh, pc) && Stored(cfg, sh.bg) && Covered(sh.bg, sh.bg.components)
    requires LeakNext(pc) && u in sh.bg.live && sh.bg.live[u] == AUTO
    ensures EndsSo(sh.bg.components)
  {
    LeakIsStored(cfg, sh, pc);
    ComponentsEnd(cfg);
  }

  /** A win while phase one is held back. */
  lemma HeldAtWin(cfg: Config, states: seq<State>, labels: seq<Label>, i: nat, u: Tid)
    requires IsRun(cfg, states, labels) && i < |labels| && Wins(states[i], labels[i])
    requires LeakNext(HolderPC(states[i])) && Blocked(states[i], u)
    ensures Held(cfg, states[i + 1], u)
  {
    var s := states[i];
    LedgerRun(cfg, states, labels, i);
    StoredRun(cfg, states, labels, i);
    LeakIsStored(cfg, s.sh, HolderPC(s));
    OneStartupIsCovered(cfg, states, labels, i);
    WinEnds(cfg, s.sh, HolderPC(s), u);
    WindingBegins(cfg, states, labels, i);
    RunInv(cfg, states, labels, i);
    WinStages(cfg, s, labels[i]);
  }

  lemma NothingRuns(cfg: Config, sh: Shared, pc: PC)
    requires Ledger(cfg, sh, pc) && !HasComponents(cfg)
    ensures Covered(sh.bg, sh.bg.components)
  {
  }

  lemma FirstNotPublished(cfg: Config, sh: Shared, pc: PC)
    requires Ledger(cfg, sh, pc) && Untold(sh) && HasComponents(cfg) && sh.bg.generations >= 2
    ensures !Covered(sh.bg, sh.bg.components)
  {
    assert First(cfg) in sh.bg.live.Values;
    var t :| t in sh.bg.live && sh.bg.live[t] == First(cfg);
  }

  /** Before a shutdown, the running components are all published if and only if at most one Startup has
      stored components, or there are none to store. */
  lemma CoveredExactly(cfg: Config, states: seq<State>, labels: seq<Label>, i: nat)
    requires IsRun(cfg, states, labels) && i < |states| && !states[i].sh.closing
    ensures Covered(states[i].sh.bg, states[i].sh.bg.components) <==>
              !HasComponents(cfg) || states[i].sh.bg.generations <= 1
  {
    LedgerRun(cfg, states, labels, i);
    if !HasComponents(cfg) {
      NothingRuns(cfg, states[i].sh, HolderPC(states[i]));
    } else if states[i].sh.bg.generations <= 1 {
      OneStartupIsCovered(cfg, states, labels, i);
    } else {
      FirstNotPublished(cfg, states[i].sh, HolderPC(states[i]));
    }
  }

  lemma HeldGone(cfg: Config, states: seq<State>, labels: seq<Label>, i: nat, j: nat, u: Tid)
    requires IsRun(cfg, states, labels) && i <= j < |states| && Held(cfg, states[i], u)
    ensures states[j].sh.pools.shut ==> Gone(states[j].sh.bg)
  {
    var P := (s: State) => Held(cfg, s, u) || WindingDown(cfg, s);
    forall s, l, o | Inv(cfg, s) && Does(cfg, s, l, o) && Actual(cfg, s, l, o) && P(s) ensures P(Apply(s, l, o)) {
      if Held(cfg, s, u) {
        HeldKept(cfg, s, l, o, u);
      } else {
        WindingKept(cfg, s, l, o);
      }
    }
    RunKeepsActual(cfg, states, labels, i, j, P);
  }

  /** If it is safe to close when a Cleanup wins, then whenever the close phase has emptied `db` every
      component and warmup goroutine has exited. */
  lemma GoneWhenSafe(cfg: Config, states: seq<State>, labels: seq<Label>, i: nat, j: nat)
    requires IsRun(cfg, states, labels) && i < |labels| && i < j < |states| && Wins(states[i], labels[i])
    requires SafeToClose(cfg, states[i]) && states[j].sh.pools.shut
    ensures AllExited(states[j])
  {
    if MayStart(cfg, HolderPC(states[i])) {
      var u :| Blocked(states[i], u);
      HeldAtWin(cfg, states, labels, i, u);
      HeldGone(cfg, states, labels, i + 1, j, u);
    } else {
      if HasComponents(cfg) {
        OneStartupIsCovered(cfg, states, labels, i);
      } else {
        LedgerRun(cfg, states, labels, i);
        NothingRuns(cfg, states[i].sh, HolderPC(states[i]));
      }
      WorkersGoneBeforeClose(cfg, states, labels, i, j);
    }
    RunInv(cfg, states, labels, j);
    GoneMeansExited(cfg, states[j]);
  }
}
