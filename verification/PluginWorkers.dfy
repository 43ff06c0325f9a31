/**
 Cleanup's first phase: by the time the pool is closed, the background goroutines are gone.
 */
module PluginWorkers {
  import opened Wrappers
  import opened PluginMachine
  import opened PluginLocks
  import opened PluginInvariant
  import opened PluginLocal
  import opened PluginReachable
  import opened PluginShutdown

  // ---------------------------------------------------------------- what a Startup may still start

  predicate HasComponents(cfg: Config) {
    cfg.healthCheck || cfg.monitor || cfg.autoReconnect || cfg.leakDetection
  }

  predicate StartsAny(cfg: Config) {
    cfg.warmup || HasComponents(cfg)
  }

  /** The connect is bound to fail. */
  predicate BoundToFail(cfg: Config, co: ConnectAt) {
    co.GaveUp? || ((co.Drop? || co.Failed?) && !(cfg.retryEnabled && co.n < cfg.retryMaxAttempts))
  }

  /** A Startup past its check of `closing` that will, if all goes well, still start a component or the
      warmup. */
  predicate MayStart(cfg: Config, pc: PC) {
    || (pc.Startup? && (pc.st.CheckCtx? || pc.st.SpawnWarmer?) && StartsAny(cfg))
    || (&& pc.Startup? && HasComponents(cfg)
        && (pc.st.LockMu? || pc.st.DrainMu? || pc.st.StoreComponents? || pc.st.UnlockMu?))
    || (pc.Startup? && pc.st.StartComponents? && pc.st.rest != [])
    || (pc.Connecting? && pc.o.ByStartup? && StartsAny(cfg) && !BoundToFail(cfg, pc.co))
    || (pc.Publishing? && pc.o.ByStartup? && StartsAny(cfg) && !pc.pu.Discard?)
  }

  lemma MayStartUnderWay(cfg: Config, pc: PC)
    ensures MayStart(cfg, pc) ==> StartupUnderWay(pc) && HoldsLifecycle(pc)
  {
  }

  lemma SameComponents(cfg: Config, g: nat)
    ensures Components(cfg, g) == [] <==> !HasComponents(cfg)
  {
  }

  /** Component and warmup goroutines. */
  predicate Awaited(home: Home) {
    home.Worker? || home.Warmer?
  }

  /** The published components are those of the last Startup that stored any. */
  predicate Stored(cfg: Config, bg: Background) {
    bg.components == if bg.generations == 0 then [] else Components(cfg, bg.generations - 1)
  }

  /** Every running component is one of `cs`. */
  ghost predicate Covered(bg: Background, cs: seq<Component>) {
    forall t :: t in bg.live ==> bg.live[t] in cs
  }

  /** All goroutines that are waited for have returned. */
  predicate Gone(bg: Background) {
    bg.live == map[] && bg.warmers == {}
  }

  /** How far the first phase has got, by the program counter of whoever works on the shutdown. */
  ghost predicate StageOk(bg: Background, pc: PC) {
    && (pc.Cleanup? && pc.cl.Spawn1? ==> Covered(bg, pc.cl.cs))
    && (pc.Stopping? || pc.Waiting? ==> Covered(bg, pc.rest))
    && (pc.Cleanup? && (pc.cl.CheckCtx? || pc.cl.Spawn2? || pc.cl.Await2?) ==> Gone(bg))
    && (pc.Shutting? ==> Gone(bg))
  }

  /** What the shutdown may rely on. */
  ghost predicate CoveredSoFar(sh: Shared) {
    && Covered(sh.bg, sh.bg.components)
    && (sh.bg.done1 != {} ==> Gone(sh.bg))
    && (sh.pools.shut ==> Gone(sh.bg))
  }

  ghost predicate StagesOk(s: State) {
    forall t :: t in s.threads ==> StageOk(s.sh.bg, s.threads[t].pc)
  }

  /** Shutdown has begun, nothing will be started any more, and no component was replaced while running. */
  ghost predicate WindingDown(cfg: Config, s: State) {
    s.sh.closing && !MayStart(cfg, HolderPC(s)) && Stored(cfg, s.sh.bg) && CoveredSoFar(s.sh) && StagesOk(s)
  }

  /** Only fewer goroutines run. */
  ghost predicate Shrinks(bg: Background, bg': Background) {
    && bg'.live.Keys <= bg.live.Keys && (forall t :: t in bg'.live ==> bg'.live[t] == bg.live[t])
    && bg'.warmers <= bg.warmers
    && bg'.components == bg.components
  }

  lemma StageStable(bg: Background, bg': Background, pc: PC)
    requires StageOk(bg, pc) && Shrinks(bg, bg')
    ensures StageOk(bg', pc)
  {
    if Gone(bg) {
      assert bg'.live.Keys == {};
    }
  }

  // ---------------------------------------------------------------- one action of the shutdown

  /** The moving goroutine, and the one it starts, are where the first phase says. */
  ghost predicate OutStages(sh: Shared, pc: PC, o: Out) {
    && (Shrinks(sh.bg, o.sh.bg) ==> StageOk(o.sh.bg, o.pc) && (o.spawn.Some? ==> StageOk(o.sh.bg, o.spawn.value.pc)))
    && (o.sh.bg.done1 != sh.bg.done1 ==> Gone(sh.bg))
  }

  lemma CleanupStages(sh: Shared, at: CleanupAt, ch: Choice, child: Tid)
    requires NextCleanup(sh, at, ch, child).Some?
    requires StageOk(sh.bg, Cleanup(at)) && Covered(sh.bg, sh.bg.components) && (sh.bg.done1 != {} ==> Gone(sh.bg))
    ensures OutStages(sh, Cleanup(at), NextCleanup(sh, at, ch, child).value)
  {
  }

  lemma StoppingStages(sh: Shared, t: Tid, rest: seq<Component>)
    requires NextStopping(sh, t, rest).Some? && StageOk(sh.bg, Stopping(rest))
    ensures OutStages(sh, Stopping(rest), NextStopping(sh, t, rest).value)
  {
    if rest == [] {
      assert sh.bg.live.Keys == {};
    }
  }

  lemma WaitingStages(sh: Shared, rest: seq<Component>)
    requires NextWaiting(sh, rest).Some? && StageOk(sh.bg, Waiting(rest))
    ensures OutStages(sh, Waiting(rest), NextWaiting(sh, rest).value)
  {
    forall t | t in sh.bg.live ensures sh.bg.live[t] in rest[1..] {
      assert sh.bg.live[t] in sh.bg.live.Values;
    }
  }

  lemma ShuttingStages(sh: Shared, t: Tid, at: CloseAt)
    requires NextShutting(sh, t, at).Some? && StageOk(sh.bg, Shutting(at))
    ensures OutStages(sh, Shutting(at), NextShutting(sh, t, at).value)
  {
  }

  lemma TeardownStages(cfg: Config, s: State, l: Label, o: Out)
    requires Actual(cfg, s, l, o) && InTeardown(ThreadOf(s, l.t).pc)
    requires StageOk(s.sh.bg, ThreadOf(s, l.t).pc)
    requires Covered(s.sh.bg, s.sh.bg.components) && (s.sh.bg.done1 != {} ==> Gone(s.sh.bg))
    ensures OutStages(s.sh, ThreadOf(s, l.t).pc, o)
  {
    match ThreadOf(s, l.t).pc
    case Cleanup(cl) => CleanupStages(s.sh, cl, l.ch, l.child);
    case Stopping(rest) => StoppingStages(s.sh, l.t, rest);
    case Waiting(rest) => WaitingStages(s.sh, rest);
    case Shutting(cz) => ShuttingStages(s.sh, l.t, cz);
  }

  lemma ElsewhereStages(cfg: Config, s: State, l: Label, o: Out)
    requires Inv(cfg, s) && Does(cfg, s, l, o) && !InTeardown(ThreadOf(s, l.t).pc)
    ensures OutStages(s.sh, ThreadOf(s, l.t).pc, o)
  {
    ReadyToMove(cfg, s, l.t);
    OutsideStages(s.sh, l.t, l.child, ThreadOf(s, l.t), o);
  }

  lemma OutsideStages(sh: Shared, t: Tid, child: Tid, th: Thread, o: Out)
    requires OutWaits(sh, t, child, th.home, th.pc, o) && HomeOk(th) && HomeOk(Thread(th.home, o.pc)) &&
        !InTeardown(th.pc)
    ensures OutStages(sh, th.pc, o)
  {
  }

  // ---------------------------------------------------------------- nothing is started any more

  /** One action while shutdown has begun and nothing will be started. */
  ghost predicate OutCalm(cfg: Config, sh: Shared, o: Out) {
    !MayStart(cfg, o.pc) && Stored(cfg, o.sh.bg) &&
    o.sh.bg.components == sh.bg.components && (o.spawn.Some? ==> !Awaited(o.spawn.value.home))
  }

  lemma StartupCalm(cfg: Config, sh: Shared, at: StartAt, ch: Choice, child: Tid)
    requires NextStartup(cfg, sh, at, ch, child).Some? && sh.closing
    requires !MayStart(cfg, Startup(at)) && Stored(cfg, sh.bg)
    ensures OutCalm(cfg, sh, NextStartup(cfg, sh, at, ch, child).value)
  {
    SameComponents(cfg, sh.bg.generations);
    if sh.bg.generations > 0 {
      SameComponents(cfg, sh.bg.generations - 1);
    }
  }

  lemma ConnectCalm(cfg: Config, sh: Shared, o: Owner, at: ConnectAt, ch: Choice)
    requires NextConnect(cfg, sh, o, at, ch).Some? && !MayStart(cfg, Connecting(o, at)) && Stored(cfg, sh.bg)
    ensures OutCalm(cfg, sh, NextConnect(cfg, sh, o, at, ch).value)
  {
  }

  lemma PublishCalm(cfg: Config, sh: Shared, o: Owner, at: PublishAt, ch: Choice)
    requires NextPublish(sh, o, at, ch).Some? && !MayStart(cfg, Publishing(o, at)) && Stored(cfg, sh.bg)
    ensures OutCalm(cfg, sh, NextPublish(sh, o, at, ch).value)
  {
  }

  lemma ElsewhereCalm(cfg: Config, s: State, l: Label, o: Out)
    requires Does(cfg, s, l, o) && Actual(cfg, s, l, o) && s.sh.closing && Stored(cfg, s.sh.bg)
    requires var pc := ThreadOf(s, l.t).pc; !pc.Startup? && !pc.Connecting? && !pc.Publishing?
    ensures OutCalm(cfg, s.sh, o)
  {
    assert StartsNothing(s.sh, o);
    MayStartUnderWay(cfg, o.pc);
  }

  lemma CalmAction(cfg: Config, s: State, l: Label, o: Out)
    requires Does(cfg, s, l, o) && Actual(cfg, s, l, o) && s.sh.closing && Stored(cfg, s.sh.bg)
    requires !MayStart(cfg, ThreadOf(s, l.t).pc)
    ensures OutCalm(cfg, s.sh, o)
  {
    var pc := ThreadOf(s, l.t).pc;
    if pc.Startup? {
      StartupCalm(cfg, s.sh, pc.st, l.ch, l.child);
    } else if pc.Connecting? {
      ConnectCalm(cfg, s.sh, pc.o, pc.co, l.ch);
    } else if pc.Publishing? {
      PublishCalm(cfg, s.sh, pc.o, pc.pu, l.ch);
    } else {
      ElsewhereCalm(cfg, s, l, o);
    }
  }

  lemma CalmShrinks(sh: Shared, t: Tid, child: Tid, home: Home, pc: PC, o: Out)
    requires OutWaits(sh, t, child, home, pc, o) && o.sh.bg.components == sh.bg.components
    requires o.spawn.Some? ==> !Awaited(o.spawn.value.home)
    ensures Shrinks(sh.bg, o.sh.bg)
  {
  }

  lemma GoneStays(bg: Background, bg': Background)
    requires Gone(bg) && Shrinks(bg, bg')
    ensures Gone(bg')
  {
    assert bg'.live.Keys == {};
  }

  lemma CoveredStays(cfg: Config, s: State, l: Label, o: Out)
    requires Inv(cfg, s) && Does(cfg, s, l, o) && CoveredSoFar(s.sh) && StagesOk(s)
    requires OutStages(s.sh, ThreadOf(s, l.t).pc, o) && Shrinks(s.sh.bg, o.sh.bg)
    ensures CoveredSoFar(o.sh) && StagesOk(Apply(s, l, o))
  {
    var s' := Apply(s, l, o);
    if Gone(s.sh.bg) {
      GoneStays(s.sh.bg, o.sh.bg);
    }
    if !ThreadOf(s, l.t).pc.Shutting? {
      OnlyPhase2Shuts(s.sh, ThreadOf(s, l.t).pc, o);
    }
    forall u | u in s'.threads ensures StageOk(s'.sh.bg, s'.threads[u].pc) {
      if u in s.threads && u != l.t {
        StageStable(s.sh.bg, s'.sh.bg, s.threads[u].pc);
      }
    }
  }

  lemma OnlyPhase2Shuts(sh: Shared, pc: PC, o: Out)
    requires OutPools(sh, pc, o) && !pc.Shutting?
    ensures o.sh.pools.shut == sh.pools.shut
  {
  }

  lemma ActionStages(cfg: Config, s: State, l: Label, o: Out)
    requires Inv(cfg, s) && Does(cfg, s, l, o) && Actual(cfg, s, l, o) && CoveredSoFar(s.sh) && StagesOk(s)
    ensures OutStages(s.sh, ThreadOf(s, l.t).pc, o)
  {
    if InTeardown(ThreadOf(s, l.t).pc) {
      assert l.t in s.threads;
      TeardownStages(cfg, s, l, o);
    } else {
      ElsewhereStages(cfg, s, l, o);
    }
  }

  /** Who moves may start nothing if the holder of lifecycleMu may not. */
  lemma MoverCalm(cfg: Config, s: State, l: Label, o: Out)
    requires Inv(cfg, s) && Does(cfg, s, l, o) && !MayStart(cfg, HolderPC(s))
    ensures !MayStart(cfg, ThreadOf(s, l.t).pc)
  {
    HolderFollows(s, l, o);
    MayStartUnderWay(cfg, ThreadOf(s, l.t).pc);
  }

  lemma HolderCalm(cfg: Config, s: State, l: Label, o: Out)
    requires Inv(cfg, s) && Does(cfg, s, l, o) && !MayStart(cfg, HolderPC(s)) && !MayStart(cfg, o.pc)
    ensures !MayStart(cfg, HolderPC(Apply(s, l, o)))
  {
    HolderFollows(s, l, o);
  }

  lemma WindingKept(cfg: Config, s: State, l: Label, o: Out)
    requires Inv(cfg, s) && Does(cfg, s, l, o) && Actual(cfg, s, l, o) && WindingDown(cfg, s)
    ensures WindingDown(cfg, Apply(s, l, o))
  {
    ActionStages(cfg, s, l, o);
    MoverCalm(cfg, s, l, o);
    CalmAction(cfg, s, l, o);
    CalmShrinks(s.sh, l.t, l.child, ThreadOf(s, l.t).home, ThreadOf(s, l.t).pc, o);
    CoveredStays(cfg, s, l, o);
    HolderCalm(cfg, s, l, o);
  }

  lemma Phase1NotBeforeClosing(cfg: Config, states: seq<State>, labels: seq<Label>, outs: seq<Out>, i: nat)
    requires Explained(cfg, states, labels, outs) && i < |states|
    ensures states[i].sh.bg.done1 != {} ==> states[i].sh.closing
  {
    var P := (s: State) => s.sh.bg.done1 != {} ==> s.sh.closing;
    forall s, l, o | Inv(cfg, s) && Does(cfg, s, l, o) && P(s) ensures P(Apply(s, l, o)) {
      ReadyToMove(cfg, s, l.t);
    }
    RunKeeps(cfg, states, labels, outs, 0, i, P);
  }

  lemma WinningAction(cfg: Config, s: State, l: Label, o: Out)
    requires Actual(cfg, s, l, o) && Wins(s, l)
    ensures o == Out(s.sh.(closing := true), Cleanup(Cancel), NoLock, None)
  {
  }

  lemma WindingStart(cfg: Config, s: State, l: Label, o: Out)
    requires Inv(cfg, s) && Does(cfg, s, l, o) && Wins(s, l) && s.sh.bg.done1 == {}
    requires o == Out(s.sh.(closing := true), Cleanup(Cancel), NoLock, None)
    requires Covered(s.sh.bg, s.sh.bg.components)
    ensures CoveredSoFar(o.sh) && StagesOk(Apply(s, l, o)) && HolderPC(Apply(s, l, o)) == HolderPC(s)
    ensures !s.sh.pools.shut
  {
    var s' := Apply(s, l, o);
    HolderFollows(s, l, o);
    forall t | t in s'.threads ensures StageOk(s'.sh.bg, s'.threads[t].pc) {
      if t in s.threads && t != l.t {
        EarlyStage(s.sh, s.threads[t].pc);
      }
    }
  }

  /** Before `closing` is set nobody works on a shutdown. */
  lemma EarlyStage(sh: Shared, pc: PC)
    requires LocalOk(sh, pc) && !sh.closing
    ensures StageOk(sh.bg, pc)
  {
  }

  lemma WindingBegins(cfg: Config, states: seq<State>, labels: seq<Label>, i: nat)
    requires IsRun(cfg, states, labels) && i < |labels| && Wins(states[i], labels[i])
    requires Covered(states[i].sh.bg, states[i].sh.bg.components)
    ensures var s, s' := states[i], states[i + 1];
            && s'.sh == s.sh.(closing := true) && CoveredSoFar(s'.sh) && StagesOk(s') && HolderPC(s') == HolderPC(s)
            && s' == Apply(s, labels[i], Out(s.sh.(closing := true), Cleanup(Cancel), NoLock, None)) && !s.sh.pools.shut
  {
    var outs := Explain(cfg, states, labels);
    Phase1NotBeforeClosing(cfg, states, labels, outs, i);
    RunInv(cfg, states, labels, i);
    assert Step(cfg, states[i], labels[i]) == Some(states[i + 1]);
    var o := StepDoes(cfg, states[i], labels[i]);
    WinningAction(cfg, states[i], labels[i], o);
    WindingStart(cfg, states[i], labels[i], o);
  }

  /** When a Cleanup wins, no Startup may still start anything, and every running component is one of the
      published ones, the background goroutines and the warmup are gone before the pool is closed. */
  lemma WorkersGoneBeforeClose(cfg: Config, states: seq<State>, labels: seq<Label>, i: nat, j: nat)
    requires IsRun(cfg, states, labels) && i < |labels| && i < j < |states|
    requires Wins(states[i], labels[i])
    requires !MayStart(cfg, HolderPC(states[i])) && Covered(states[i].sh.bg, states[i].sh.bg.components)
    ensures states[j].sh.pools.shut || (exists u :: u in states[j].threads && states[j].threads[u].pc.Shutting?) ==>
              Gone(states[j].sh.bg)
  {
    WindingBegins(cfg, states, labels, i);
    StoredRun(cfg, states, labels, i + 1);
    var P := (s: State) => WindingDown(cfg, s);
    forall s, l, o | Inv(cfg, s) && Does(cfg, s, l, o) && Actual(cfg, s, l, o) && P(s) ensures P(Apply(s, l, o)) {
      WindingKept(cfg, s, l, o);
    }
    RunKeepsActual(cfg, states, labels, i + 1, j, P);
    if u :| u in states[j].threads && states[j].threads[u].pc.Shutting? {
      assert StageOk(states[j].sh.bg, states[j].threads[u].pc);
    }
  }

  /** No goroutine that is waited for is left. */
  ghost predicate AllExited(s: State) {
    forall t :: t in s.threads && Awaited(s.threads[t].home) ==> s.threads[t].pc.Exited?
  }

  lemma GoneMeansExited(cfg: Config, s: State)
    requires Inv(cfg, s)
    ensures Gone(s.sh.bg) <==> AllExited(s)
  {
    if AllExited(s) {
      assert s.sh.bg.live.Keys == {} && s.sh.bg.warmers == {};
    }
  }

  lemma StoredStartup(cfg: Config, sh: Shared, at: StartAt, ch: Choice, child: Tid)
    requires NextStartup(cfg, sh, at, ch, child).Some? && Stored(cfg, sh.bg)
    ensures Stored(cfg, NextStartup(cfg, sh, at, ch, child).value.sh.bg)
  {
  }

  lemma StoredElsewhere(cfg: Config, sh: Shared, pc: PC, o: Out)
    requires Touches(sh, pc, o) && !pc.Startup? && Stored(cfg, sh.bg)
    ensures Stored(cfg, o.sh.bg)
  {
  }

  lemma StartupAction(cfg: Config, s: State, l: Label, o: Out)
    requires Actual(cfg, s, l, o) && ThreadOf(s, l.t).pc.Startup?
    ensures NextStartup(cfg, s.sh, ThreadOf(s, l.t).pc.st, l.ch, l.child) == Some(o)
  {
  }

  lemma StoredKept(cfg: Config, s: State, l: Label, o: Out)
    requires Does(cfg, s, l, o) && Actual(cfg, s, l, o) && Stored(cfg, s.sh.bg)
    ensures Stored(cfg, o.sh.bg)
  {
    var pc := ThreadOf(s, l.t).pc;
    if pc.Startup? {
      StartupAction(cfg, s, l, o);
      StoredStartup(cfg, s.sh, pc.st, l.ch, l.child);
    } else {
      StoredElsewhere(cfg, s.sh, pc, o);
    }
  }

  lemma StoredRun(cfg: Config, states: seq<State>, labels: seq<Label>, i: nat)
    requires IsRun(cfg, states, labels) && i < |states|
    ensures Stored(cfg, states[i].sh.bg)
  {
    var P := (s: State) => Stored(cfg, s.sh.bg);
    forall s, l, o | Inv(cfg, s) && Does(cfg, s, l, o) && Actual(cfg, s, l, o) && P(s) ensures P(Apply(s, l, o)) {
      StoredKept(cfg, s, l, o);
    }
    RunKeepsActual(cfg, states, labels, 0, i, P);
  }

  // ---------------------------------------------------------------- one Startup

  ghost predicate RestOk(bg: Background, pc: PC) {
    pc.Startup? && pc.st.StartComponents? ==> forall c :: c in pc.st.rest ==> c in bg.components
  }

  /** As long as components were stored at most once, all running ones are the stored ones. */
  ghost predicate OneGeneration(bg: Background, pc: PC) {
    && (bg.generations == 0 ==> bg.components == [])
    && (bg.generations <= 1 ==> Covered(bg, bg.components) && RestOk(bg, pc))
  }

  lemma StartupGeneration(cfg: Config, sh: Shared, at: StartAt, ch: Choice, child: Tid)
    requires NextStartup(cfg, sh, at, ch, child).Some? && OneGeneration(sh.bg, Startup(at))
    ensures var o := NextStartup(cfg, sh, at, ch, child).value; OneGeneration(o.sh.bg, o.pc)
  {
  }

  /** The goroutine that moves keeps the property for its own program counter. */
  lemma GenerationMoves(cfg: Config, s: State, l: Label, o: Out)
    requires Does(cfg, s, l, o) && Actual(cfg, s, l, o) && OneGeneration(s.sh.bg, ThreadOf(s, l.t).pc)
    ensures OneGeneration(o.sh.bg, o.pc)
  {
    var pc := ThreadOf(s, l.t).pc;
    if pc.Startup? {
      StartupGeneration(cfg, s.sh, pc.st, l.ch, l.child);
    } else {
      assert StartsNothing(s.sh, o);
    }
  }

  lemma GenerationKept(cfg: Config, s: State, l: Label, o: Out)
    requires Inv(cfg, s) && Does(cfg, s, l, o) && Actual(cfg, s, l, o) && OneGeneration(s.sh.bg, HolderPC(s))
    ensures OneGeneration(o.sh.bg, HolderPC(Apply(s, l, o)))
  {
    ReadyToMove(cfg, s, l.t);
    GenerationMoves(cfg, s, l, o);
    GenerationHolder(cfg, s, l, o);
  }

  lemma GenerationHolder(cfg: Config, s: State, l: Label, o: Out)
    requires Inv(cfg, s) && Does(cfg, s, l, o) && OneGeneration(s.sh.bg, HolderPC(s)) && OneGeneration(o.sh.bg, o.pc)
    ensures OneGeneration(o.sh.bg, HolderPC(Apply(s, l, o)))
  {
    HolderFollows(s, l, o);
    var pc := ThreadOf(s, l.t).pc;
    if !HoldsLifecycle(pc) && !HoldsLifecycle(o.pc) {
      BystanderStartsNothing(s.sh, pc, o);
    }
  }

  lemma BystanderStartsNothing(sh: Shared, pc: PC, o: Out)
    requires Touches(sh, pc, o) && !HoldsLifecycle(pc)
    ensures StartsNothing(sh, o)
  {
  }

  /** If at most one Startup of the run ever stored its components, the premise of
      WorkersGoneBeforeClose about the running components holds. */
  lemma OneStartupIsCovered(cfg: Config, states: seq<State>, labels: seq<Label>, i: nat)
    requires IsRun(cfg, states, labels) && i < |states| && states[i].sh.bg.generations <= 1
    ensures Covered(states[i].sh.bg, states[i].sh.bg.components)
  {
    var P := (s: State) => OneGeneration(s.sh.bg, HolderPC(s));
    forall s, l, o | Inv(cfg, s) && Does(cfg, s, l, o) && Actual(cfg, s, l, o) && P(s) ensures P(Apply(s, l, o)) {
      GenerationKept(cfg, s, l, o);
    }
    RunKeepsActual(cfg, states, labels, 0, i, P);
  }

  /** With at most one Startup that stored its components, and none that may still start anything when the
      Cleanup wins, the background goroutines and the warmup are gone before the pool is closed. */
  lemma GoneAfterOneStartup(cfg: Config, states: seq<State>, labels: seq<Label>, i: nat, j: nat)
    requires IsRun(cfg, states, labels) && i < |labels| && i < j < |states| && Wins(states[i], labels[i])
    requires !MayStart(cfg, HolderPC(states[i])) && states[i].sh.bg.generations <= 1
    ensures states[j].sh.pools.shut || (exists u :: u in states[j].threads && states[j].threads[u].pc.Shutting?) ==>
              AllExited(states[j])
  {
    OneStartupIsCovered(cfg, states, labels, i);
    WorkersGoneBeforeClose(cfg, states, labels, i, j);
    RunInv(cfg, states, labels, j);
    GoneMeansExited(cfg, states[j]);
  }
}
