/**
 When a Cleanup cannot rely on its first phase: unless it is safe to close, the run can be continued so
 that the pool is closed while a goroutine that should have been waited for lives on.
 */
module PluginStragglers {
  import opened Wrappers
  import opened PluginMachine
  import opened PluginLocks
  import opened PluginLocal
  import opened PluginReachable
  import opened PluginProgress
  import opened PluginShutdown
  import opened PluginRelease
  import opened PluginRoles
  import opened PluginWorkers
  import opened PluginComponents
  import opened PluginHeldBack
  import opened PluginDriven
  import opened PluginOvertaking

  // ---------------------------------------------------------------- a goroutine is left behind

  predicate Ignores(pc: PC, c: Component) {
    && (pc.Cleanup? && pc.cl.Spawn1? ==> c !in pc.cl.cs)
    && (pc.Stopping? || pc.Waiting? ==> c !in pc.rest)
  }

  /** Nobody will wait for a goroutine of component `c`. */
  ghost predicate Ignored(s: State, c: Component) {
    && c.generation < s.sh.bg.generations && c !in s.sh.bg.components
    && forall x :: x in s.threads ==> Ignores(s.threads[x].pc, c)
  }

  predicate Past(pc: PC) {
    !pc.Stopping? && !pc.Waiting? && !BeforePhase2(pc)
  }

  /** Nobody will wait for any background goroutine any more. */
  ghost predicate PhaseOneOver(s: State) {
    forall x :: x in s.threads ==> Past(s.threads[x].pc)
  }

  /** The shutdown will be carried on. */
  ghost predicate CarriedOn(s: State, w: Tid) {
    w in s.threads && (BeforePhase2(s.threads[w].pc) || exists p :: InPhase2(s, p))
  }

  ghost predicate LeftOut(s: State, home: Home) {
    (home.Worker? && Ignored(s, home.c)) || PhaseOneOver(s)
  }

  /** Goroutine `t` has not exited and nobody will wait for it, while the shutdown is carried on. */
  ghost predicate Straggles(w: Tid, t: Tid, s: State) {
    && s.sh.closing && t in s.threads && Awaited(s.threads[t].home) && !s.threads[t].pc.Exited?
    && CarriedOn(s, w) && LeftOut(s, s.threads[t].home)
  }

  lemma HoldersActive(cfg: Config, s: State, y: Tid, t: Tid)
    requires LockInv(s) && WaitsFor(s, y, t) && Rank(s.threads[y].pc) <= 3
    ensures Active(s.threads[t].pc)
  {
    assert LockThread(s, t);
    HoldersRank(s.threads[t].pc);
    WithheldLock(s, y, t);
  }

  /** Who waits for a straggler waits for a lock it holds. */
  lemma OnlyForLocks(cfg: Config, s: State, w: Tid, t: Tid, y: Tid)
    requires Inv(cfg, s) && Straggles(w, t, s) && WaitsFor(s, y, t)
    ensures Active(s.threads[t].pc)
  {
    if Rank(s.threads[y].pc) <= 3 {
      HoldersActive(cfg, s, y, t);
    } else if s.threads[y].pc.Cleanup? {
      PhasesActive(cfg, s, y, t);
    }
  }

  lemma PhasesActive(cfg: Config, s: State, y: Tid, t: Tid)
    requires Inv(cfg, s) && WaitsFor(s, y, t) && s.threads[y].pc.Cleanup? && Rank(s.threads[y].pc) > 3
    ensures Active(s.threads[t].pc)
  {
    if s.threads[y].pc.cl.Await1? {
      assert InPhase1(s, t);
    } else {
      assert InPhase2(s, t);
    }
  }

  lemma StragglerMover(cfg: Config, s: State, w: Tid, t: Tid) returns (u: Tid)
    requires Inv(cfg, s) && Straggles(w, t, s) && !AtRest(s)
    ensures u in s.threads && CanGo(cfg, s, u) && (u == t ==> Active(s.threads[t].pc))
  {
    var x :| x in s.threads && Active(s.threads[x].pc);
    var chain := Progress(cfg, s, x);
    u := chain[|chain| - 1];
    if u == t && |chain| > 1 {
      assert WaitsFor(s, chain[|chain| - 2], chain[|chain| - 2 + 1]);
      OnlyForLocks(cfg, s, w, t, chain[|chain| - 2]);
    }
  }

  // it stays so

  lemma LifecycleStays(cfg: Config, sh: Shared, pc: PC, ch: Choice, child: Tid)
    requires NextLifecycle(cfg, sh, pc, ch, child).Some?
    ensures !NextLifecycle(cfg, sh, pc, ch, child).value.pc.Exited?
  {
  }

  lemma ObserverStays(cfg: Config, sh: Shared, pc: PC, ch: Choice)
    requires NextObserver(cfg, sh, pc, ch).Some?
    ensures !NextObserver(cfg, sh, pc, ch).value.pc.Exited?
  {
  }

  lemma ActiveStays(cfg: Config, s: State, l: Label, o: Out)
    requires Actual(cfg, s, l, o) && Active(ThreadOf(s, l.t).pc) && !InTeardown(ThreadOf(s, l.t).pc)
    ensures !o.pc.Exited?
  {
    var pc := ThreadOf(s, l.t).pc;
    if InLifecycle(pc) {
      LifecycleStays(cfg, s.sh, pc, l.ch, l.child);
    } else {
      ObserverStays(cfg, s.sh, pc, l.ch);
    }
  }

  lemma AwaitedNotTeardown(th: Thread)
    requires HomeOk(th) && Awaited(th.home)
    ensures !InTeardown(th.pc)
  {
  }

  lemma CarriedOnKept(cfg: Config, s: State, l: Label, o: Out, w: Tid)
    requires Inv(cfg, s) && Does(cfg, s, l, o) && Actual(cfg, s, l, o) && CarriedOn(s, w) && l.ch == Go
    ensures CarriedOn(Apply(s, l, o), w)
  {
    if p :| InPhase2(s, p) {
      ApplyPhases(cfg, s, l, o, p);
    } else if l.t == w {
      assert NextCleanup(s.sh, s.threads[w].pc.cl, Go, l.child) == Some(o);
      WinnerCarriesOn(s.sh, s.threads[w].pc.cl, l.child);
      if !BeforePhase2(o.pc) {
        assert InPhase2(Apply(s, l, o), l.child);
      }
    }
  }

  lemma WinnerCarriesOn(sh: Shared, at: CleanupAt, child: Tid)
    requires NextCleanup(sh, at, Go, child).Some? && BeforePhase2(Cleanup(at))
    ensures var o := NextCleanup(sh, at, Go, child).value;
            BeforePhase2(o.pc) || (o.spawn.Some? && o.spawn.value.pc.Shutting?)
  {
  }

  ghost predicate OutIgnores(o: Out, c: Component) {
    && c.generation < o.sh.bg.generations && c !in o.sh.bg.components
    && Ignores(o.pc, c) && (o.spawn.Some? ==> Ignores(o.spawn.value.pc, c))
  }

  lemma StartupIgnores(cfg: Config, sh: Shared, at: StartAt, ch: Choice, child: Tid, c: Component)
    requires NextStartup(cfg, sh, at, ch, child).Some? && c.generation < sh.bg.generations && c !in sh.bg.components
    ensures OutIgnores(NextStartup(cfg, sh, at, ch, child).value, c)
  {
    ComponentsListed(cfg, sh.bg.generations);
  }

  lemma CleanupIgnores(sh: Shared, at: CleanupAt, ch: Choice, child: Tid, c: Component)
    requires NextCleanup(sh, at, ch, child).Some? && c.generation < sh.bg.generations && c !in sh.bg.components
    requires Ignores(Cleanup(at), c)
    ensures OutIgnores(NextCleanup(sh, at, ch, child).value, c)
  {
  }

  lemma TeardownIgnores(cfg: Config, s: State, l: Label, o: Out, c: Component)
    requires Actual(cfg, s, l, o) && InTeardown(ThreadOf(s, l.t).pc) && Ignores(ThreadOf(s, l.t).pc, c)
    requires c.generation < s.sh.bg.generations && c !in s.sh.bg.components
    ensures OutIgnores(o, c)
  {
    match ThreadOf(s, l.t).pc
    case Cleanup(cl) => CleanupIgnores(s.sh, cl, l.ch, l.child, c);
    case Stopping(rest) =>
    case Waiting(rest) =>
    case Shutting(cz) =>
  }

  lemma ElsewhereIgnores(cfg: Config, s: State, l: Label, o: Out, c: Component)
    requires Inv(cfg, s) && Does(cfg, s, l, o) && !ThreadOf(s, l.t).pc.Startup? && !InTeardown(ThreadOf(s, l.t).pc)
    requires c.generation < s.sh.bg.generations && c !in s.sh.bg.components
    ensures OutIgnores(o, c)
  {
    ReadyToMove(cfg, s, l.t);
    OutsideIgnores(s.sh, l.t, l.child, ThreadOf(s, l.t), o, c);
  }

  lemma OutsideIgnores(sh: Shared, t: Tid, child: Tid, th: Thread, o: Out, c: Component)
    requires OutWaits(sh, t, child, th.home, th.pc, o) && Touches(sh, th.pc, o)
    requires HomeOk(th) && HomeOk(Thread(th.home, o.pc)) && !th.pc.Startup? && !InTeardown(th.pc)
    requires c.generation < sh.bg.generations && c !in sh.bg.components
    ensures OutIgnores(o, c)
  {
  }

  lemma ActionIgnores(cfg: Config, s: State, l: Label, o: Out, c: Component)
    requires Inv(cfg, s) && Does(cfg, s, l, o) && Actual(cfg, s, l, o) && Ignored(s, c)
    ensures OutIgnores(o, c)
  {
    var pc := ThreadOf(s, l.t).pc;
    if pc.Startup? {
      StartupAction(cfg, s, l, o);
      StartupIgnores(cfg, s.sh, pc.st, l.ch, l.child, c);
    } else if InTeardown(pc) {
      assert l.t in s.threads;
      TeardownIgnores(cfg, s, l, o, c);
    } else {
      ElsewhereIgnores(cfg, s, l, o, c);
    }
  }

  lemma IgnoredKept(s: State, l: Label, o: Out, c: Component)
    requires Ignored(s, c) && OutIgnores(o, c)
    ensures Ignored(Apply(s, l, o), c)
  {
    var s' := Apply(s, l, o);
    forall x | x in s'.threads ensures Ignores(s'.threads[x].pc, c) {
      if x in s.threads && x != l.t {
        assert Ignores(s.threads[x].pc, c);
      }
    }
  }

  lemma PhaseOneStaysOver(cfg: Config, s: State, l: Label, o: Out)
    requires Inv(cfg, s) && Does(cfg, s, l, o) && Actual(cfg, s, l, o) && PhaseOneOver(s) && s.sh.closing
    ensures PhaseOneOver(Apply(s, l, o))
  {
    var s', pc := Apply(s, l, o), ThreadOf(s, l.t).pc;
    CasMoves(cfg, s, l, o);
    ReadyToMove(cfg, s, l.t);
    if pc.Cleanup? {
      assert l.t in s.threads && Past(pc);
      LateCleanup(cfg, s, l, o);
    }
    StopperOnly(s.sh, l.t, l.child, ThreadOf(s, l.t), o);
    forall x | x in s'.threads ensures Past(s'.threads[x].pc) {
      if x in s.threads && x != l.t {
        assert Past(s.threads[x].pc);
      }
    }
  }

  lemma LateCleanup(cfg: Config, s: State, l: Label, o: Out)
    requires Actual(cfg, s, l, o) && s.sh.closing && ThreadOf(s, l.t).pc.Cleanup? && Past(ThreadOf(s, l.t).pc)
    ensures o.spawn.None?
  {
    assert NextCleanup(s.sh, ThreadOf(s, l.t).pc.cl, l.ch, l.child) == Some(o);
  }

  lemma StragglesKept(cfg: Config, s: State, l: Label, o: Out, w: Tid, t: Tid)
    requires Inv(cfg, s) && Does(cfg, s, l, o) && Actual(cfg, s, l, o) && Straggles(w, t, s) && l.ch == Go
    requires l.t == t ==> Active(s.threads[t].pc)
    ensures Straggles(w, t, Apply(s, l, o))
  {
    assert HomeOk(s.threads[t]);
    AwaitedNotTeardown(s.threads[t]);
    if l.t == t {
      ActiveStays(cfg, s, l, o);
    }
    CarriedOnKept(cfg, s, l, o, w);
    if PhaseOneOver(s) {
      PhaseOneStaysOver(cfg, s, l, o);
    } else {
      ActionIgnores(cfg, s, l, o, s.threads[t].home.c);
      IgnoredKept(s, l, o, s.threads[t].home.c);
    }
  }

  lemma StragglerAdvances(cfg: Config, s: State, w: Tid, t: Tid) returns (l: Label)
    requires Inv(cfg, s) && Straggles(w, t, s) && !AtRest(s)
    ensures l.ch == Go && Step(cfg, s, l).Some? && Straggles(w, t, Step(cfg, s, l).value)
  {
    var u := StragglerMover(cfg, s, w, t);
    var child: Tid :| Step(cfg, s, Label(u, Go, child)).Some?;
    l := Label(u, Go, child);
    var o := StepDoes(cfg, s, l);
    StragglesKept(cfg, s, l, o, w, t);
  }

  lemma RestedStraggler(cfg: Config, s: State, w: Tid, t: Tid)
    requires Inv(cfg, s) && Straggles(w, t, s) && AtRest(s)
    ensures s.sh.pools.shut && !AllExited(s)
  {
    assert !Active(s.threads[w].pc);
    var p :| InPhase2(s, p);
    assert p in s.sh.bg.done2;
  }

  /** A straggler survives the close of the pool, in some continuation. */
  lemma LeavesStraggler(cfg: Config, states: seq<State>, labels: seq<Label>, w: Tid, t: Tid)
      returns (states': seq<State>, labels': seq<Label>)
    requires IsRun(cfg, states, labels) && Straggles(w, t, states[|labels|])
    ensures IsRun(cfg, states', labels') && states <= states' && labels <= labels'
    ensures AtRest(states'[|labels'|]) && states'[|labels'|].sh.pools.shut && !AllExited(states'[|labels'|])
  {
    var Keep := (s: State) => Straggles(w, t, s);
    var Stop := (s: State) => AtRest(s);
    forall s | Sound(cfg, s) && Keep(s) && !Stop(s) ensures Advances(cfg, Keep, s) {
      var l := StragglerAdvances(cfg, s, w, t);
      assert Keep(Step(cfg, s, l).value);
    }
    states', labels' := RunsUntil(cfg, states, labels, Keep, Stop);
    SoundRun(cfg, states', labels', |labels'|);
    RestedStraggler(cfg, states'[|labels'|], w, t);
  }

  // ---------------------------------------------------------------- from the win on

  /** The win has just happened: Cleanup `w` has done nothing else, and nobody else anything for it. */
  ghost predicate JustWon(w: Tid, s: State) {
    && w in s.threads && s.threads[w] == Thread(Caller, Cleanup(Cancel)) && s.sh.closing && Untold(s.sh)
    && NoStopper(s) && s.sh.bg.done1 == {}
  }

  lemma WinApplied(cfg: Config, states: seq<State>, labels: seq<Label>, i: nat)
    requires IsRun(cfg, states, labels) && i < |labels| && Wins(states[i], labels[i])
    ensures Inv(cfg, states[i]) && Untold(states[i].sh) && states[i].sh.bg.done1 == {}
    ensures states[i + 1] ==
        Apply(states[i], labels[i], Out(states[i].sh.(closing := true), Cleanup(Cancel), NoLock, None))
  {
    var outs := Explain(cfg, states, labels);
    Phase1NotBeforeClosing(cfg, states, labels, outs, i);
    LedgerRun(cfg, states, labels, i);
    RunInv(cfg, states, labels, i);
    assert Step(cfg, states[i], labels[i]) == Some(states[i + 1]);
    var o := StepDoes(cfg, states[i], labels[i]);
    WinningAction(cfg, states[i], labels[i], o);
  }

  lemma WinState(cfg: Config, states: seq<State>, labels: seq<Label>, i: nat)
    requires IsRun(cfg, states, labels) && i < |labels| && Wins(states[i], labels[i])
    ensures JustWon(labels[i].t, states[i + 1])
    ensures SafeToClose(cfg, states[i + 1]) == SafeToClose(cfg, states[i])
  {
    WinApplied(cfg, states, labels, i);
    WinThread(cfg, states[i], labels[i], states[i + 1]);
    WinSafety(cfg, states[i], labels[i], states[i + 1]);
  }

  lemma WinThread(cfg: Config, s: State, l: Label, s': State)
    requires Inv(cfg, s) && Wins(s, l) && Untold(s.sh) && s.sh.bg.done1 == {}
    requires s' == Apply(s, l, Out(s.sh.(closing := true), Cleanup(Cancel), NoLock, None))
    ensures JustWon(l.t, s')
  {
    NobodyStopsYet(cfg, s);
    assert HomeOk(ThreadOf(s, l.t));
  }

  lemma WinHolder(cfg: Config, s: State, l: Label, s': State)
    requires LockInv(s) && Wins(s, l)
    requires s' == Apply(s, l, Out(s.sh.(closing := true), Cleanup(Cancel), NoLock, None))
    ensures HolderPC(s') == HolderPC(s)
  {
    assert l.t in s.threads ==> LockThread(s, l.t);
  }

  lemma WinBlocked(s: State, l: Label, s': State)
    requires Wins(s, l)
    requires s' == Apply(s, l, Out(s.sh.(closing := true), Cleanup(Cancel), NoLock, None))
    ensures forall u :: Blocked(s', u) <==> Blocked(s, u)
  {
  }

  /** The win itself makes nothing safe or unsafe. */
  lemma WinSafety(cfg: Config, s: State, l: Label, s': State)
    requires Inv(cfg, s) && Wins(s, l)
    requires s' == Apply(s, l, Out(s.sh.(closing := true), Cleanup(Cancel), NoLock, None))
    ensures SafeToClose(cfg, s') == SafeToClose(cfg, s)
  {
    WinHolder(cfg, s, l, s');
    WinBlocked(s, l, s');
  }

  lemma NobodyStopsYet(cfg: Config, s: State)
    requires Inv(cfg, s) && !s.sh.closing
    ensures NoStopper(s)
  {
    forall t | t in s.threads ensures !s.threads[t].pc.Stopping? && !s.threads[t].pc.Waiting? {
      assert LocalOk(s.sh, s.threads[t].pc);
    }
  }

  // an earlier generation

  /** The first component of the first Startup is not one that Cleanup will see. */
  lemma FirstIsIgnored(cfg: Config, s: State, w: Tid) returns (t: Tid)
    requires Sound(cfg, s) && JustWon(w, s) && HasComponents(cfg) && s.sh.bg.generations >= 2
    ensures Straggles(w, t, s)
  {
    assert First(cfg) in s.sh.bg.live.Values;
    t :| t in s.sh.bg.live && s.sh.bg.live[t] == First(cfg);
    forall x | x in s.threads ensures Ignores(s.threads[x].pc, First(cfg)) {
      if PastCas(s.threads[x].pc) {
        assert PastCas(s.threads[w].pc);
      }
    }
    assert BeforePhase2(s.threads[w].pc);
  }

  // a Startup that may still start something

  lemma SuffixHas(rest: seq<Component>, all: seq<Component>, k: nat)
    requires Suffix(rest, all) && k < |all|
    ensures k < |all| - |rest| || all[k] in rest
  {
    if |all| - |rest| <= k {
      assert rest[k - (|all| - |rest|)] == all[k];
    }
  }

  lemma SuffixWithoutAuto(cfg: Config, rest: seq<Component>, all: seq<Component>)
    requires cfg.autoReconnect && all == Components(cfg, 0) && Suffix(rest, all) && rest != [] && AUTO !in rest
    ensures rest == [LEAK]
  {
    var front := (if cfg.healthCheck then [Component(0, HealthChecks)] else []) +
                 (if cfg.monitor then [Component(0, PoolMonitoring)] else []);
    var back := if cfg.leakDetection then [LEAK] else [];
    assert all == front + [AUTO] + back;
    assert all[|front|] == AUTO;
    SuffixHas(rest, all, |front|);
  }

  lemma AutoIsStored(cfg: Config)
    requires cfg.autoReconnect
    ensures AUTO in Components(cfg, 0)
  {
  }

  /** A background goroutine that waits for lifecycleMu is an auto-reconnector. */
  lemma OnlyAutoWaits(cfg: Config, s: State, u: Tid)
    requires Sound(cfg, s) && u in s.threads && !LooseThread(s.threads[u])
    ensures u in s.sh.bg.live && s.sh.bg.live[u].kind == AutoReconnecting
    ensures s.threads[u].pc == Reconnect(ToAuto, ReconnectAt.Lock)
  {
    assert OnlyWatches(s.threads[u]) && HomeOk(s.threads[u]);
  }

  /** If one waits while a Startup of the first generation is about to start something, it is held back. */
  lemma LooseOrHeldBack(cfg: Config, s: State, h: Tid)
    requires Sound(cfg, s) && s.locks.lifecycleMu == Some(h) && h in s.threads && Paused(cfg, s.threads[h].pc)
    requires HasComponents(cfg) ==> s.sh.bg.generations <= 1
    ensures Loose(s) || HeldBack(s)
  {
    if u :| u in s.threads && !LooseThread(s.threads[u]) {
      OnlyAutoWaits(cfg, s, u);
      AutoHeldBack(cfg, s.sh.bg, s.threads[h].pc, u);
      assert Blocked(s, u);
    }
  }

  lemma AutoHeldBack(cfg: Config, bg: Background, pc: PC, u: Tid)
    requires LiveFrom(cfg, bg.generations, bg.live) && RestFrom(bg, pc) && Stored(cfg, bg) && Paused(cfg, pc)
    requires HasComponents(cfg) ==> bg.generations <= 1
    requires u in bg.live && bg.live[u].kind == AutoReconnecting
    ensures bg.live[u] == AUTO && LeakNext(pc)
  {
    FirstGeneration(cfg, bg, u);
    RestRemains(cfg, bg, pc, u);
    assert bg.live[u] == AUTO;
    SuffixWithoutAuto(cfg, pc.st.rest, bg.components);
  }

  lemma FirstGeneration(cfg: Config, bg: Background, u: Tid)
    requires LiveFrom(cfg, bg.generations, bg.live) && Stored(cfg, bg) && u in bg.live
    requires HasComponents(cfg) ==> bg.generations <= 1
    ensures HasComponents(cfg) && bg.live[u].generation == 0 && Enabled(cfg, bg.live[u].kind)
    ensures bg.components == Components(cfg, 0)
  {
    assert Enabled(cfg, bg.live[u].kind);
  }

  lemma RestRemains(cfg: Config, bg: Background, pc: PC, u: Tid)
    requires RestFrom(bg, pc) && Paused(cfg, pc) && HasComponents(cfg) && u in bg.live
    ensures pc.Startup? && pc.st.StartComponents? && pc.st.rest != [] && Suffix(pc.st.rest, bg.components)
    ensures bg.live[u] !in pc.st.rest
  {
  }

  /** Not when none of its components has been started. */
  lemma NotFromScratch(cfg: Config, s: State, h: Tid)
    requires Sound(cfg, s) && s.locks.lifecycleMu == Some(h) && h in s.threads && FromScratch(s.sh.bg, s.threads[h].pc)
    ensures !HeldBack(s)
  {
    if LeakNext(HolderPC(s)) {
      AutoNotRunning(cfg, s.sh, s.threads[h].pc);
    }
  }

  lemma AutoNotRunning(cfg: Config, sh: Shared, pc: PC)
    requires Ledger(cfg, sh, pc) && LeakNext(pc) && FromScratch(sh.bg, pc) && Stored(cfg, sh.bg)
    ensures forall u :: u in sh.bg.live ==> sh.bg.live[u] != AUTO
  {
    LeakIsStored(cfg, sh, pc);
    forall u | u in sh.bg.live ensures sh.bg.live[u] != AUTO {
      assert Enabled(cfg, sh.bg.live[u].kind);
      if cfg.autoReconnect {
        AutoIsStored(cfg);
      }
    }
  }

  /** The Startup, about to start something, starts it once phase one is over. */
  lemma StartsLate(cfg: Config, s: State, w: Tid, h: Tid, at: StartAt) returns (l: Label)
    requires Sound(cfg, s) && Overtaking(w, h, at, s) && s.threads[w].pc.cl.Await2? && Paused(cfg, Startup(at))
    ensures Step(cfg, s, l).Some? && Straggles(w, l.child, Step(cfg, s, l).value)
  {
    var child := UnusedName(s.threads.Keys);
    l := Label(h, Go, child);
    StartsAwaited(cfg, s.sh, at, child);
    assert Next(cfg, s.sh, h, s.threads[h], Go, child) == NextStartup(cfg, s.sh, at, Go, child);
    var o := StepDoes(cfg, s, l);
    PhaseOneIsOver(cfg, s, w);
    PhaseOneStaysOver(cfg, s, l, o);
    PhaseTwoStays(cfg, s, l, o, w);
  }

  lemma PhaseTwoStays(cfg: Config, s: State, l: Label, o: Out, w: Tid)
    requires Inv(cfg, s) && Does(cfg, s, l, o)
    requires w in s.threads && s.threads[w].pc.Cleanup? && s.threads[w].pc.cl.Await2?
    ensures CarriedOn(Apply(s, l, o), w)
  {
    var p := s.threads[w].pc.cl.w;
    assert InPhase2(s, p);
    ApplyPhases(cfg, s, l, o, p);
  }

  lemma StartsAwaited(cfg: Config, sh: Shared, at: StartAt, child: Tid)
    requires Paused(cfg, Startup(at))
    ensures var n := NextStartup(cfg, sh, at, Go, child);
            && n.Some? && n.value.lock == NoLock && n.value.spawn.Some?
            && Awaited(n.value.spawn.value.home) && !n.value.spawn.value.pc.Exited?
  {
  }

  lemma PhaseOneIsOver(cfg: Config, s: State, w: Tid)
    requires Sound(cfg, s) && OneStopper(s, w) && s.threads[w].pc.Cleanup? && s.threads[w].pc.cl.Await2?
    ensures PhaseOneOver(s)
  {
    forall x | x in s.threads ensures Past(s.threads[x].pc) {
      assert PastCas(s.threads[w].pc);
      assert PastCas(s.threads[x].pc) ==> x == w;
    }
  }

  lemma NobodyStops(s: State, w: Tid)
    requires JustWon(w, s)
    ensures OneStopper(s, w)
  {
  }

  lemma PausedAt(cfg: Config, th: Thread)
    requires Paused(cfg, th.pc) && HomeOk(th)
    ensures th.home.Caller? && HoldsLifecycle(th.pc) && !InMu(th.pc)
  {
  }

  lemma StandsStill(cfg: Config, s: State, w: Tid, h: Tid) returns (at: StartAt)
    requires Sound(cfg, s) && JustWon(w, s) && Loose(s)
    requires h in s.threads && s.locks.lifecycleMu == Some(h) && Paused(cfg, s.threads[h].pc)
    ensures Overtaking(w, h, at, s) && Paused(cfg, Startup(at))
  {
    NobodyStops(s, w);
    PausedAt(cfg, s.threads[h]);
    at := s.threads[h].pc.st;
  }

  lemma LetsStart(cfg: Config, states: seq<State>, labels: seq<Label>, w: Tid, h: Tid, at: StartAt)
      returns (states': seq<State>, labels': seq<Label>, t: Tid)
    requires IsRun(cfg, states, labels) && Overtaking(w, h, at, states[|labels|]) && Paused(cfg, Startup(at))
    ensures IsRun(cfg, states', labels') && states <= states' && labels <= labels'
    ensures Straggles(w, t, states'[|labels'|])
  {
    states', labels' := Overtake(cfg, states, labels, w, h, at);
    SoundRun(cfg, states', labels', |labels'|);
    var l := StartsLate(cfg, states'[|labels'|], w, h, at);
    var next := Step(cfg, states'[|labels'|], l).value;
    ExtendRun(cfg, states', labels', l, next);
    states', labels', t := states' + [next], labels' + [l], l.child;
  }

  /** A Startup that nothing holds phase one back for. */
  lemma PausedStraggles(cfg: Config, states: seq<State>, labels: seq<Label>, w: Tid, h: Tid)
      returns (states': seq<State>, labels': seq<Label>, t: Tid)
    requires IsRun(cfg, states, labels) && JustWon(w, states[|labels|]) && !HeldBack(states[|labels|])
    requires h in states[|labels|].threads && states[|labels|].locks.lifecycleMu == Some(h)
    requires Paused(cfg, states[|labels|].threads[h].pc)
    ensures IsRun(cfg, states', labels') && states <= states' && labels <= labels'
    ensures Straggles(w, t, states'[|labels'|])
  {
    SoundRun(cfg, states, labels, |labels|);
    if HasComponents(cfg) && states[|labels|].sh.bg.generations >= 2 {
      t := FirstIsIgnored(cfg, states[|labels|], w);
      states', labels' := states, labels;
    } else {
      LooseOrHeldBack(cfg, states[|labels|], h);
      var at := StandsStill(cfg, states[|labels|], w, h);
      states', labels', t := LetsStart(cfg, states, labels, w, h, at);
    }
  }

  /** A Startup that may start something gets to where nothing holds phase one back for it. */
  lemma DrivenStraggles(cfg: Config, states: seq<State>, labels: seq<Label>, w: Tid, h: Tid)
      returns (states': seq<State>, labels': seq<Label>, t: Tid)
    requires IsRun(cfg, states, labels) && Driving(cfg, w, h, states[|labels|])
    ensures IsRun(cfg, states', labels') && states <= states' && labels <= labels'
    ensures Straggles(w, t, states'[|labels'|])
  {
    states', labels' := DriveStartup(cfg, states, labels, w, h);
    SoundRun(cfg, states', labels', |labels'|);
    NotFromScratch(cfg, states'[|labels'|], h);
    states', labels', t := PausedStraggles(cfg, states', labels', w, h);
  }

  lemma StarterStraggles(cfg: Config, states: seq<State>, labels: seq<Label>, w: Tid, h: Tid)
      returns (states': seq<State>, labels': seq<Label>, t: Tid)
    requires IsRun(cfg, states, labels) && JustWon(w, states[|labels|]) && !HeldBack(states[|labels|])
    requires h in states[|labels|].threads && states[|labels|].locks.lifecycleMu == Some(h)
    requires MayStart(cfg, states[|labels|].threads[h].pc)
    ensures IsRun(cfg, states', labels') && states <= states' && labels <= labels'
    ensures Straggles(w, t, states'[|labels'|])
  {
    if Paused(cfg, states[|labels|].threads[h].pc) {
      states', labels', t := PausedStraggles(cfg, states, labels, w, h);
    } else {
      states', labels', t := DrivenStraggles(cfg, states, labels, w, h);
    }
  }

  lemma UnsafeStraggles(cfg: Config, states: seq<State>, labels: seq<Label>, w: Tid)
      returns (states': seq<State>, labels': seq<Label>, t: Tid)
    requires IsRun(cfg, states, labels) && JustWon(w, states[|labels|]) && !SafeToClose(cfg, states[|labels|])
    ensures IsRun(cfg, states', labels') && states <= states' && labels <= labels'
    ensures Straggles(w, t, states'[|labels'|])
  {
    var s := states[|labels|];
    SoundRun(cfg, states, labels, |labels|);
    if HasComponents(cfg) && s.sh.bg.generations >= 2 {
      t := FirstIsIgnored(cfg, s, w);
      states', labels' := states, labels;
    } else {
      var h := Starter(cfg, s);
      states', labels', t := StarterStraggles(cfg, states, labels, w, h);
    }
  }

  lemma Starter(cfg: Config, s: State) returns (h: Tid)
    requires LockInv(s) && MayStart(cfg, HolderPC(s))
    ensures s.locks.lifecycleMu == Some(h) && h in s.threads && s.threads[h].pc == HolderPC(s)
  {
    h := s.locks.lifecycleMu.value;
    assert h in s.threads by {
      MayStartUnderWay(cfg, HolderPC(s));
    }
  }

  /** Unless it is safe to close, some continuation comes to rest with the pool closed and a goroutine left
      that should have been waited for. */
  lemma UnsafeToClose(cfg: Config, states: seq<State>, labels: seq<Label>)
      returns (states': seq<State>, labels': seq<Label>)
    requires IsRun(cfg, states, labels) && labels != [] && Wins(states[|labels| - 1], labels[|labels| - 1])
    requires !SafeToClose(cfg, states[|labels| - 1])
    ensures IsRun(cfg, states', labels') && states <= states' && labels <= labels'
    ensures AtRest(states'[|labels'|]) && states'[|labels'|].sh.pools.shut && !AllExited(states'[|labels'|])
  {
    WinState(cfg, states, labels, |labels| - 1);
    var w, t := labels[|labels| - 1].t, 0;
    states', labels', t := UnsafeStraggles(cfg, states, labels, w);
    states', labels' := LeavesStraggler(cfg, states', labels', w, t);
  }

  // ---------------------------------------------------------------- exactly

  /** However the run goes on, once the close phase has emptied `db` every component and warmup goroutine
      has exited. */
  ghost predicate AlwaysGone(cfg: Config, states: seq<State>, labels: seq<Label>) {
    forall states': seq<State>, labels': seq<Label>, j: nat ::
      (IsRun(cfg, states', labels') && states <= states' && labels <= labels' && |labels| <= j < |states'| &&
       states'[j].sh.pools.shut) ==> AllExited(states'[j])
  }

  lemma SafeMeansGone(cfg: Config, states: seq<State>, labels: seq<Label>)
    requires IsRun(cfg, states, labels) && labels != [] && Wins(states[|labels| - 1], labels[|labels| - 1])
    requires SafeToClose(cfg, states[|labels| - 1])
    ensures AlwaysGone(cfg, states, labels)
  {
    forall states': seq<State>, labels': seq<Label>, j: nat |
        IsRun(cfg, states', labels') && states <= states' && labels <= labels' && |labels| <= j < |states'| &&
        states'[j].sh.pools.shut
      ensures AllExited(states'[j]) {
      GoneWhenSafe(cfg, states', labels', |labels| - 1, j);
    }
  }

  /** When a Cleanup wins, it is safe to close if and only if in every continuation the background
      goroutines and the warmup are gone once the pool is closed. */
  lemma WorkersGoneExactly(cfg: Config, states: seq<State>, labels: seq<Label>)
    requires IsRun(cfg, states, labels) && labels != [] && Wins(states[|labels| - 1], labels[|labels| - 1])
    ensures AlwaysGone(cfg, states, labels) <==> SafeToClose(cfg, states[|labels| - 1])
  {
    if SafeToClose(cfg, states[|labels| - 1]) {
      SafeMeansGone(cfg, states, labels);
    } else {
      var states', labels' := UnsafeToClose(cfg, states, labels);
      assert |labels| <= |labels'| < |states'|;
    }
  }
}
