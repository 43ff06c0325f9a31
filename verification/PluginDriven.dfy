/**
 Continuing a run on purpose: what can always advance gets done, and so a Startup can be driven on to where
 it starts something while a Cleanup that has just won stands still.
 */
module PluginDriven {
  import opened Wrappers
  import opened PluginMachine
  import opened PluginLocks
  import opened PluginLocal
  import opened PluginReachable
  import opened PluginProgress
  import opened PluginTermination
  import opened PluginRelease
  import opened PluginRoles
  import opened PluginWorkers
  import opened PluginComponents

  // ---------------------------------------------------------------- scheduling

  /** What is known of every reachable state. */
  ghost predicate Sound(cfg: Config, s: State) {
    Inv(cfg, s) && Ledger(cfg, s.sh, HolderPC(s)) && Stored(cfg, s.sh.bg) && AllWatch(s) && OnePast(s)
  }

  lemma SoundRun(cfg: Config, states: seq<State>, labels: seq<Label>, i: nat)
    requires IsRun(cfg, states, labels) && i < |states|
    ensures Sound(cfg, states[i])
  {
    RunInv(cfg, states, labels, i);
    LedgerRun(cfg, states, labels, i);
    StoredRun(cfg, states, labels, i);
    WatchRun(cfg, states, labels, i);
    OnePastRun(cfg, states, labels, i);
  }

  /** Some goroutine can act, other than by a new call or tick, so that `Keep` goes on. */
  ghost predicate Advances(cfg: Config, Keep: State -> bool, s: State) {
    exists l: Label :: !l.ch.Start? && Step(cfg, s, l).Some? && Keep(Step(cfg, s, l).value)
  }

  lemma GoesDown(cfg: Config, states: seq<State>, labels: seq<Label>, l: Label, next: State)
    requires IsRun(cfg, states, labels) && !l.ch.Start? && Step(cfg, states[|labels|], l) == Some(next)
    ensures IsRun(cfg, states + [next], labels + [l])
    ensures Total(cfg, next.threads) < Total(cfg, states[|labels|].threads)
  {
    ExtendRun(cfg, states, labels, l, next);
    EveryActionCounts(cfg, states + [next], labels + [l], |labels|);
  }

  /** What can always advance until it is done gets done. */
  lemma {:induction false} RunsUntil(cfg: Config, states: seq<State>, labels: seq<Label>,
                                     Keep: State -> bool, Stop: State -> bool)
      returns (states': seq<State>, labels': seq<Label>)
    requires IsRun(cfg, states, labels) && Keep(states[|labels|])
    requires forall s :: Sound(cfg, s) && Keep(s) && !Stop(s) ==> Advances(cfg, Keep, s)
    ensures IsRun(cfg, states', labels') && states <= states' && labels <= labels'
    ensures Keep(states'[|labels'|]) && Stop(states'[|labels'|])
    decreases Total(cfg, states[|labels|].threads)
  {
    var s := states[|labels|];
    if Stop(s) {
      return states, labels;
    }
    SoundRun(cfg, states, labels, |labels|);
    assert Advances(cfg, Keep, s);
    var l: Label :| !l.ch.Start? && Step(cfg, s, l).Some? && Keep(Step(cfg, s, l).value);
    var next := Step(cfg, s, l).value;
    GoesDown(cfg, states, labels, l, next);
    states', labels' := RunsUntil(cfg, states + [next], labels + [l], Keep, Stop);
  }

  // ---------------------------------------------------------------- the Startup is driven on

  /** The next action of the Startup starts something, or would if it had not stored its components. */
  predicate Paused(cfg: Config, pc: PC) {
    || (pc.Startup? && pc.st.StartComponents? && pc.st.rest != [])
    || (pc.Startup? && pc.st.SpawnWarmer? && cfg.warmup && !HasComponents(cfg))
  }

  lemma StartupDriven(cfg: Config, sh: Shared, at: StartAt, child: Tid)
    requires MayStart(cfg, Startup(at)) && !Paused(cfg, Startup(at)) && Stored(cfg, sh.bg)
    requires at.UnlockMu? ==> sh.bg.generations > 0
    ensures var n := NextStartup(cfg, sh, at, Go, child);
            n.Some? && MayStart(cfg, n.value.pc) && HoldsLifecycle(n.value.pc)
  {
    if at.UnlockMu? {
      SameComponents(cfg, sh.bg.generations - 1);
    }
  }

  lemma ConnectDriven(cfg: Config, sh: Shared, o: Owner, at: ConnectAt)
    requires MayStart(cfg, Connecting(o, at))
    ensures var n := NextConnect(cfg, sh, o, at, Go); n.Some? && MayStart(cfg, n.value.pc) && HoldsLifecycle(n.value.pc)
  {
  }

  lemma PublishDriven(cfg: Config, sh: Shared, o: Owner, at: PublishAt)
    requires MayStart(cfg, Publishing(o, at)) && LocalOk(sh, Publishing(o, at))
    ensures var n := NextPublish(sh, o, at, Go); n.Some? && MayStart(cfg, n.value.pc) && HoldsLifecycle(n.value.pc)
  {
  }

  /** A willing driver keeps a Startup on its way. */
  lemma Driven(cfg: Config, sh: Shared, h: Tid, th: Thread, child: Tid)
    requires MayStart(cfg, th.pc) && !Paused(cfg, th.pc) && Stored(cfg, sh.bg) && LocalOk(sh, th.pc)
    requires th.pc.Startup? && th.pc.st.UnlockMu? ==> sh.bg.generations > 0
    ensures var n := Next(cfg, sh, h, th, Go, child);
            n.Some? && MayStart(cfg, n.value.pc) && HoldsLifecycle(n.value.pc)
  {
    match th.pc
    case Startup(st) => StartupDriven(cfg, sh, st, child);
    case Connecting(o, co) => ConnectDriven(cfg, sh, o, co);
    case Publishing(o, pu) => PublishDriven(cfg, sh, o, pu);
  }

  /** A Startup that has started none of the components it has stored. */
  predicate FromScratch(bg: Background, pc: PC) {
    pc.Startup? && pc.st.StartComponents? ==> pc.st.rest == bg.components
  }

  ghost predicate NoStopper(s: State) {
    forall t :: t in s.threads ==> !s.threads[t].pc.Stopping? && !s.threads[t].pc.Waiting?
  }

  /** Cleanup `w` has won and not gone on; Startup `h` holds lifecycleMu and may start something. */
  ghost predicate Driving(cfg: Config, w: Tid, h: Tid, s: State) {
    && w in s.threads && s.threads[w] == Thread(Caller, Cleanup(Cancel)) && s.sh.closing && Untold(s.sh)
    && h in s.threads && s.locks.lifecycleMu == Some(h)
    && MayStart(cfg, s.threads[h].pc) && FromScratch(s.sh.bg, s.threads[h].pc)
    && NoStopper(s) && s.sh.bg.done1 == {}
  }

  predicate InMu(pc: PC) {
    Writes(pc) || Reads(pc)
  }

  /** Whom a holder of a lock can wait for. */
  lemma WaitsForMu(s: State, t: Tid, u: Tid)
    requires LockInv(s) && WaitsFor(s, t, u) && Rank(s.threads[t].pc) <= 2
    ensures InMu(s.threads[u].pc)
  {
    assert LockThread(s, u);
    WithheldLock(s, t, u);
  }

  lemma {:induction false} ChainInMu(s: State, chain: seq<Tid>, i: nat)
    requires LockInv(s) && IsChain(s, chain) && i < |chain| && Rank(s.threads[chain[0]].pc) <= 2
    ensures Rank(s.threads[chain[i]].pc) <= 2 && (i > 0 ==> InMu(s.threads[chain[i]].pc) && chain[i] != chain[0])
    ensures Rank(s.threads[chain[i]].pc) <= Rank(s.threads[chain[0]].pc)
  {
    if i > 0 {
      ChainInMu(s, chain, i - 1);
      assert WaitsFor(s, chain[i - 1], chain[i - 1 + 1]);
      WaitsForMu(s, chain[i - 1], chain[i]);
    }
  }

  /** Actions that tell no component anything, and start no phase. */
  ghost predicate Silent(sh: Shared, o: Out) {
    o.sh.cancelled == sh.cancelled && o.sh.bg.stopped == sh.bg.stopped && o.sh.closing == sh.closing
  }

  lemma LifecycleSilent(cfg: Config, sh: Shared, pc: PC, ch: Choice, child: Tid)
    requires NextLifecycle(cfg, sh, pc, ch, child).Some?
    ensures Silent(sh, NextLifecycle(cfg, sh, pc, ch, child).value)
  {
    match pc
    case Startup(st) => StartupSilent(cfg, sh, st, ch, child);
    case Connecting(o, co) => ConnectSilent(cfg, sh, o, co, ch);
    case _ =>
  }

  lemma StartupSilent(cfg: Config, sh: Shared, at: StartAt, ch: Choice, child: Tid)
    requires NextStartup(cfg, sh, at, ch, child).Some?
    ensures Silent(sh, NextStartup(cfg, sh, at, ch, child).value)
  {
  }

  lemma ConnectSilent(cfg: Config, sh: Shared, ow: Owner, at: ConnectAt, ch: Choice)
    requires NextConnect(cfg, sh, ow, at, ch).Some?
    ensures Silent(sh, NextConnect(cfg, sh, ow, at, ch).value)
  {
  }

  lemma ObserverSilent(cfg: Config, sh: Shared, pc: PC, ch: Choice)
    requires NextObserver(cfg, sh, pc, ch).Some?
    ensures Silent(sh, NextObserver(cfg, sh, pc, ch).value)
  {
    ObserverTells(cfg, sh, pc, ch);
    ObserverKeepsOpen(cfg, sh, pc, ch);
  }

  lemma ObserverKeepsOpen(cfg: Config, sh: Shared, pc: PC, ch: Choice)
    requires NextObserver(cfg, sh, pc, ch).Some?
    ensures NextObserver(cfg, sh, pc, ch).value.sh.closing == sh.closing
  {
  }

  lemma SilentAction(cfg: Config, s: State, l: Label, o: Out)
    requires Actual(cfg, s, l, o) && !l.ch.Start? && !ThreadOf(s, l.t).pc.Idle?
    requires InTeardown(ThreadOf(s, l.t).pc) ==> ThreadOf(s, l.t).pc == Cleanup(CleanupAt.Read)
    ensures Silent(s.sh, o)
  {
    var pc := ThreadOf(s, l.t).pc;
    if InLifecycle(pc) {
      LifecycleSilent(cfg, s.sh, pc, l.ch, l.child);
    } else if InTeardown(pc) {
      assert NextCleanup(s.sh, CleanupAt.Read, l.ch, l.child) == Some(o);
    } else {
      ObserverSilent(cfg, s.sh, pc, l.ch);
    }
  }

  /** What does not come from a Cleanup is no phase. */
  lemma NoNewStopper(cfg: Config, s: State, l: Label, o: Out)
    requires Inv(cfg, s) && Does(cfg, s, l, o) && NoStopper(s)
    requires ThreadOf(s, l.t).pc.Cleanup? ==> o.spawn.None?
    ensures NoStopper(Apply(s, l, o))
  {
    ReadyToMove(cfg, s, l.t);
    NotStopping(s.sh, l.t, l.child, ThreadOf(s, l.t), o);
  }

  lemma NotStopping(sh: Shared, t: Tid, child: Tid, th: Thread, o: Out)
    requires OutWaits(sh, t, child, th.home, th.pc, o) && HomeOk(th) && HomeOk(Thread(th.home, o.pc))
    requires !th.pc.Stopping? && !th.pc.Waiting? && (th.pc.Cleanup? ==> o.spawn.None?)
    ensures !o.pc.Stopping? && !o.pc.Waiting?
    ensures o.spawn.Some? ==> !o.spawn.value.pc.Stopping? && !o.spawn.value.pc.Waiting?
  {
  }

  /** Whatever else happens, who holds lifecycleMu holds it. */
  lemma HolderStays(cfg: Config, s: State, l: Label, o: Out, h: Tid)
    requires Inv(cfg, s) && Does(cfg, s, l, o) && h in s.threads && HoldsLifecycle(s.threads[h].pc) && l.t != h
    ensures h in Apply(s, l, o).threads && Apply(s, l, o).threads[h] == s.threads[h]
    ensures Apply(s, l, o).locks.lifecycleMu == Some(h)
  {
    var s' := Apply(s, l, o);
    ApplyLocks(s, l, o);
    assert LockThread(s', h);
  }

  lemma DrivingByOther(cfg: Config, s: State, l: Label, o: Out, w: Tid, h: Tid)
    requires Inv(cfg, s) && Does(cfg, s, l, o) && Actual(cfg, s, l, o) && Driving(cfg, w, h, s) && !l.ch.Start?
    requires l.t != h && l.t in s.threads && InMu(s.threads[l.t].pc)
    ensures Driving(cfg, w, h, Apply(s, l, o))
  {
    MayStartUnderWay(cfg, s.threads[h].pc);
    HolderStays(cfg, s, l, o, h);
    assert !HoldsLifecycle(s.threads[l.t].pc) by {
      assert LockThread(s, l.t);
    }
    MuOutsiders(s.threads[l.t].pc);
    SilentAction(cfg, s, l, o);
    BystanderStartsNothing(s.sh, s.threads[l.t].pc, o);
    ReadSpawnsNothing(cfg, s, l, o);
    NoNewStopper(cfg, s, l, o);
  }

  lemma MuOutsiders(pc: PC)
    requires InMu(pc) && !HoldsLifecycle(pc)
    ensures !pc.Idle? && (InTeardown(pc) ==> pc == Cleanup(CleanupAt.Read))
  {
  }

  lemma ReadSpawnsNothing(cfg: Config, s: State, l: Label, o: Out)
    requires Actual(cfg, s, l, o)
    requires InTeardown(ThreadOf(s, l.t).pc) ==> ThreadOf(s, l.t).pc == Cleanup(CleanupAt.Read)
    ensures ThreadOf(s, l.t).pc.Cleanup? ==> o.spawn.None?
  {
    if ThreadOf(s, l.t).pc.Cleanup? {
      assert NextCleanup(s.sh, CleanupAt.Read, l.ch, l.child) == Some(o);
    }
  }

  lemma StaysFromScratch(cfg: Config, sh: Shared, at: StartAt, child: Tid)
    requires NextStartup(cfg, sh, at, Go, child).Some? && !at.StartComponents?
    ensures var o := NextStartup(cfg, sh, at, Go, child).value; FromScratch(o.sh.bg, o.pc)
  {
  }

  lemma HolderFromScratch(cfg: Config, s: State, l: Label, o: Out)
    requires Actual(cfg, s, l, o) && l.ch == Go
    requires MayStart(cfg, ThreadOf(s, l.t).pc) && !Paused(cfg, ThreadOf(s, l.t).pc)
    ensures FromScratch(o.sh.bg, o.pc)
  {
    var pc := ThreadOf(s, l.t).pc;
    if pc.Startup? {
      StartupAction(cfg, s, l, o);
      StaysFromScratch(cfg, s.sh, pc.st, l.child);
    } else if pc.Connecting? {
      assert NextConnect(cfg, s.sh, pc.o, pc.co, Go) == Some(o);
    } else {
      assert NextPublish(s.sh, pc.o, pc.pu, Go) == Some(o);
    }
  }

  lemma HolderDriven(cfg: Config, s: State, l: Label, o: Out)
    requires Sound(cfg, s) && Actual(cfg, s, l, o) && l.ch == Go && l.t in s.threads
    requires s.locks.lifecycleMu == Some(l.t) && MayStart(cfg, s.threads[l.t].pc) && !Paused(cfg, s.threads[l.t].pc)
    ensures MayStart(cfg, o.pc) && HoldsLifecycle(o.pc) && Silent(s.sh, o) && FromScratch(o.sh.bg, o.pc)
  {
    ReadyToMove(cfg, s, l.t);
    Driven(cfg, s.sh, l.t, s.threads[l.t], l.child);
    SilentAction(cfg, s, l, o);
    HolderFromScratch(cfg, s, l, o);
  }

  lemma DrivingByHolder(cfg: Config, s: State, l: Label, o: Out, w: Tid, h: Tid)
    requires Inv(cfg, s) && Does(cfg, s, l, o) && Driving(cfg, w, h, s) && l.t == h
    requires MayStart(cfg, o.pc) && HoldsLifecycle(o.pc) && Silent(s.sh, o) && FromScratch(o.sh.bg, o.pc)
    ensures Driving(cfg, w, h, Apply(s, l, o))
  {
    MayStartUnderWay(cfg, s.threads[h].pc);
    NoNewStopper(cfg, s, l, o);
    ApplyLocks(s, l, o);
    assert LockThread(Apply(s, l, o), h);
  }

  lemma DrivingMove(cfg: Config, s: State, w: Tid, h: Tid, l: Label)
    requires Sound(cfg, s) && Driving(cfg, w, h, s) && !Paused(cfg, s.threads[h].pc)
    requires l.ch == Go && Step(cfg, s, l).Some? && l.t in s.threads && (l.t == h || InMu(s.threads[l.t].pc))
    ensures Driving(cfg, w, h, Step(cfg, s, l).value)
  {
    var o := StepDoes(cfg, s, l);
    if l.t == h {
      HolderDriven(cfg, s, l, o);
      DrivingByHolder(cfg, s, l, o, w, h);
    } else {
      DrivingByOther(cfg, s, l, o, w, h);
    }
  }

  lemma DrivingAdvances(cfg: Config, s: State, w: Tid, h: Tid) returns (l: Label)
    requires Sound(cfg, s) && Driving(cfg, w, h, s) && !Paused(cfg, s.threads[h].pc)
    ensures l.ch == Go && Step(cfg, s, l).Some? && Driving(cfg, w, h, Step(cfg, s, l).value)
  {
    var u: Tid;
    u := DrivingMover(cfg, s, w, h);
    var child: Tid :| Step(cfg, s, Label(u, Go, child)).Some?;
    l := Label(u, Go, child);
    DrivingMove(cfg, s, w, h, l);
  }

  lemma MayStartRank(cfg: Config, pc: PC)
    requires MayStart(cfg, pc)
    ensures Active(pc) && Rank(pc) <= 2
  {
    MayStartUnderWay(cfg, pc);
    HoldersRank(pc);
  }

  lemma ChainEnds(s: State, chain: seq<Tid>)
    requires LockInv(s) && chain != [] && IsChain(s, chain) && Rank(s.threads[chain[0]].pc) <= 2
    ensures var u := chain[|chain| - 1]; u == chain[0] || InMu(s.threads[u].pc)
  {
    ChainInMu(s, chain, |chain| - 1);
  }

  lemma DrivingMover(cfg: Config, s: State, w: Tid, h: Tid) returns (u: Tid)
    requires Inv(cfg, s) && Driving(cfg, w, h, s)
    ensures u in s.threads && CanGo(cfg, s, u) && (u == h || InMu(s.threads[u].pc))
  {
    MayStartRank(cfg, s.threads[h].pc);
    var chain := Progress(cfg, s, h);
    u := chain[|chain| - 1];
    ChainEnds(s, chain);
  }

  /** The Startup can be driven to where it starts something, while the Cleanup stands still. */
  lemma DriveStartup(cfg: Config, states: seq<State>, labels: seq<Label>, w: Tid, h: Tid)
      returns (states': seq<State>, labels': seq<Label>)
    requires IsRun(cfg, states, labels) && Driving(cfg, w, h, states[|labels|])
    ensures IsRun(cfg, states', labels') && states <= states' && labels <= labels'
    ensures Driving(cfg, w, h, states'[|labels'|]) && Paused(cfg, states'[|labels'|].threads[h].pc)
  {
    var Keep := (s: State) => Driving(cfg, w, h, s);
    var Stop := (s: State) => h in s.threads && Paused(cfg, s.threads[h].pc);
    forall s | Sound(cfg, s) && Keep(s) && !Stop(s) ensures Advances(cfg, Keep, s) {
      var l := DrivingAdvances(cfg, s, w, h);
      assert Keep(Step(cfg, s, l).value);
    }
    states', labels' := RunsUntil(cfg, states, labels, Keep, Stop);
  }
}
