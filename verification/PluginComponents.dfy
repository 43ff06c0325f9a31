/**
 Which component goroutines run: those of every Startup that got so far, and before a shutdown none of
 them has returned.
 */
module PluginComponents {
  import opened Wrappers
  import opened PluginMachine
  import opened PluginLocks
  import opened PluginLocal
  import opened PluginReachable
  import opened PluginWorkers

  predicate Enabled(cfg: Config, k: Kind) {
    match k
    case HealthChecks => cfg.healthCheck
    case PoolMonitoring => cfg.monitor
    case AutoReconnecting => cfg.autoReconnect
    case LeakDetecting => cfg.leakDetection
  }

  /** The first component of the first Startup that stores any. */
  function First(cfg: Config): Component {
    Component(0, if cfg.healthCheck then HealthChecks else if cfg.monitor then PoolMonitoring
                 else if cfg.autoReconnect then AutoReconnecting else LeakDetecting)
  }

  predicate Suffix(rest: seq<Component>, all: seq<Component>) {
    |rest| <= |all| && rest == all[|all| - |rest|..]
  }

  predicate Distinct(all: seq<Component>) {
    forall i, j :: 0 <= i < j < |all| ==> all[i] != all[j]
  }

  /** The components a Startup stores, the `generations`-th to do so. */
  ghost predicate Listed(cfg: Config, generations: nat, all: seq<Component>) {
    && Distinct(all) && (forall c :: c in all ==> c.generation + 1 == generations && Enabled(cfg, c.kind))
    && (generations == 1 && HasComponents(cfg) ==> all != [] && all[0] == First(cfg))
  }

  ghost predicate NoneRuns(live: map<Tid, Component>, cs: seq<Component>) {
    forall t :: t in live ==> live[t] !in cs
  }

  /** Every running component is of some Startup that stored it. */
  ghost predicate LiveFrom(cfg: Config, generations: nat, live: map<Tid, Component>) {
    forall t :: t in live ==> live[t].generation < generations && Enabled(cfg, live[t].kind)
  }

  /** What the present Startup has still to start, it has stored and not started. */
  ghost predicate RestFrom(bg: Background, pc: PC) {
    && (pc.Startup? && pc.st.UnlockMu? ==> bg.generations > 0 && NoneRuns(bg.live, bg.components))
    && (pc.Startup? && pc.st.StartComponents? ==> Suffix(pc.st.rest, bg.components) && NoneRuns(bg.live, pc.st.rest))
  }

  /** The first component of the first Startup that stored any runs, or is about to be started. */
  ghost predicate FirstRuns(cfg: Config, bg: Background, pc: PC) {
    HasComponents(cfg) && bg.generations > 0 ==>
      || First(cfg) in bg.live.Values
      || (pc.Startup? && pc.st.UnlockMu? && bg.generations == 1)
      || (pc.Startup? && pc.st.StartComponents? && bg.generations == 1 && pc.st.rest == bg.components)
  }

  /** No component goroutine has been told to stop. */
  predicate Untold(sh: Shared) {
    !sh.cancelled && sh.bg.stopped == {}
  }

  ghost predicate Ledger(cfg: Config, sh: Shared, pc: PC) {
    && Listed(cfg, sh.bg.generations, sh.bg.components)
    && LiveFrom(cfg, sh.bg.generations, sh.bg.live) && RestFrom(sh.bg, pc)
    && (!sh.closing ==> Untold(sh)) && (Untold(sh) ==> FirstRuns(cfg, sh.bg, pc))
  }

  lemma ComponentsListed(cfg: Config, g: nat)
    ensures Listed(cfg, g + 1, Components(cfg, g))
  {
  }

  /** A Startup that has stored its components and not started them all. */
  predicate HasStored(pc: PC) {
    pc.Startup? && (pc.st.UnlockMu? || pc.st.StartComponents?)
  }

  // ---------------------------------------------------------------- one action

  lemma StoreLedger(cfg: Config, sh: Shared, ch: Choice, child: Tid)
    requires Ledger(cfg, sh, Startup(StoreComponents))
    ensures var o := NextStartup(cfg, sh, StoreComponents, ch, child).value; Ledger(cfg, o.sh, o.pc)
  {
    ComponentsListed(cfg, sh.bg.generations);
  }

  lemma UnlockLedger(cfg: Config, sh: Shared, ch: Choice, child: Tid)
    requires Ledger(cfg, sh, Startup(StartAt.UnlockMu))
    ensures var o := NextStartup(cfg, sh, StartAt.UnlockMu, ch, child).value; Ledger(cfg, o.sh, o.pc)
  {
    var all := sh.bg.components;
    assert all == all[|all| - |all|..];
  }

  lemma SuffixTail(rest: seq<Component>, all: seq<Component>)
    requires Suffix(rest, all) && rest != [] && Distinct(all)
    ensures Suffix(rest[1..], all) && rest[0] in all && rest[0] !in rest[1..]
  {
    var n := |all| - |rest|;
    assert rest[0] == all[n] && rest[1..] == all[n + 1..];
  }

  lemma RestTail(rest: seq<Component>, all: seq<Component>, live: map<Tid, Component>, child: Tid)
    requires Suffix(rest, all) && Distinct(all) && rest != [] && NoneRuns(live, rest)
    ensures Suffix(rest[1..], all) && NoneRuns(live[child := rest[0]], rest[1..])
  {
    SuffixTail(rest, all);
    assert rest == [rest[0]] + rest[1..];
  }

  lemma LiveMore(live: map<Tid, Component>, child: Tid, c: Component, d: Component)
    requires child !in live && (d in live.Values || d == c)
    ensures d in live[child := c].Values
  {
    var live' := live[child := c];
    assert live'[child] == c;
    if d in live.Values {
      var t :| t in live && live[t] == d;
      assert live'[t] == d;
    }
  }

  lemma StartLive(cfg: Config, generations: nat, live: map<Tid, Component>, child: Tid, c: Component)
    requires LiveFrom(cfg, generations, live) && c.generation < generations && Enabled(cfg, c.kind)
    ensures LiveFrom(cfg, generations, live[child := c])
  {
  }

  lemma StartFirst(cfg: Config, bg: Background, rest: seq<Component>, child: Tid)
    requires FirstRuns(cfg, bg, Startup(StartComponents(rest))) && rest != [] && child !in bg.live
    requires Listed(cfg, bg.generations, bg.components)
    ensures FirstRuns(cfg, bg.(live := bg.live[child := rest[0]]), Startup(StartComponents(rest[1..])))
  {
    if HasComponents(cfg) && bg.generations > 0 {
      LiveMore(bg.live, child, rest[0], First(cfg));
    }
  }

  lemma StartLedger(cfg: Config, sh: Shared, rest: seq<Component>, ch: Choice, child: Tid)
    requires Ledger(cfg, sh, Startup(StartComponents(rest))) && rest != [] && child !in sh.bg.live
    ensures var o := NextStartup(cfg, sh, StartComponents(rest), ch, child).value; Ledger(cfg, o.sh, o.pc)
  {
    SuffixTail(rest, sh.bg.components);
    RestTail(rest, sh.bg.components, sh.bg.live, child);
    StartLive(cfg, sh.bg.generations, sh.bg.live, child, rest[0]);
    if Untold(sh) {
      StartFirst(cfg, sh.bg, rest, child);
    }
  }

  lemma StartupLedger(cfg: Config, sh: Shared, at: StartAt, ch: Choice, child: Tid)
    requires NextStartup(cfg, sh, at, ch, child).Some? && Ledger(cfg, sh, Startup(at))
    requires at.StartComponents? && at.rest != [] ==> child !in sh.bg.live
    ensures var o := NextStartup(cfg, sh, at, ch, child).value; Ledger(cfg, o.sh, o.pc)
  {
    if at.StoreComponents? {
      StoreLedger(cfg, sh, ch, child);
    } else if at.UnlockMu? {
      UnlockLedger(cfg, sh, ch, child);
    } else if at.StartComponents? && at.rest != [] {
      StartLedger(cfg, sh, at.rest, ch, child);
    }
  }

  /** What other goroutines may do to the ledger. */
  ghost predicate OutLedger(sh: Shared, t: Tid, o: Out) {
    && o.sh.bg.components == sh.bg.components && o.sh.bg.generations == sh.bg.generations
    && (o.sh.bg.live == sh.bg.live || (o.sh.bg.live == sh.bg.live - {t} && !Untold(sh)))
    && (sh.closing ==> o.sh.closing) && !HasStored(o.pc)
    && (Untold(o.sh) ==> Untold(sh)) && (Untold(sh) && !Untold(o.sh) ==> sh.closing)
  }

  lemma OthersLedger(cfg: Config, sh: Shared, t: Tid, o: Out, pc: PC)
    requires Ledger(cfg, sh, pc) && OutLedger(sh, t, o)
    ensures Ledger(cfg, o.sh, pc)
  {
  }

  lemma CleanupLedger(sh: Shared, t: Tid, at: CleanupAt, ch: Choice, child: Tid)
    requires NextCleanup(sh, at, ch, child).Some? && LocalOk(sh, Cleanup(at))
    ensures OutLedger(sh, t, NextCleanup(sh, at, ch, child).value)
  {
  }

  lemma StoppingLedger(sh: Shared, t: Tid, rest: seq<Component>)
    requires NextStopping(sh, t, rest).Some? && sh.closing
    ensures OutLedger(sh, t, NextStopping(sh, t, rest).value)
  {
  }

  lemma ShuttingLedger(sh: Shared, t: Tid, at: CloseAt)
    requires NextShutting(sh, t, at).Some?
    ensures OutLedger(sh, t, NextShutting(sh, t, at).value)
  {
  }

  lemma TeardownLedger(sh: Shared, t: Tid, pc: PC, ch: Choice, child: Tid)
    requires NextTeardown(sh, t, pc, ch, child).Some? && LocalOk(sh, pc)
    ensures OutLedger(sh, t, NextTeardown(sh, t, pc, ch, child).value)
  {
    match pc
    case Cleanup(cl) => CleanupLedger(sh, t, cl, ch, child);
    case Stopping(rest) => StoppingLedger(sh, t, rest);
    case Waiting(rest) =>
    case Shutting(cz) => ShuttingLedger(sh, t, cz);
  }

  lemma IdleLedger(cfg: Config, sh: Shared, t: Tid, home: Home, ch: Choice)
    requires NextIdle(cfg, sh, t, home, ch).Some?
    ensures OutLedger(sh, t, NextIdle(cfg, sh, t, home, ch).value)
  {
  }

  lemma ConnectLedger(cfg: Config, sh: Shared, t: Tid, ow: Owner, at: ConnectAt, ch: Choice)
    requires NextConnect(cfg, sh, ow, at, ch).Some?
    ensures OutLedger(sh, t, NextConnect(cfg, sh, ow, at, ch).value)
  {
  }

  lemma PublishLedger(sh: Shared, t: Tid, ow: Owner, at: PublishAt, ch: Choice)
    requires NextPublish(sh, ow, at, ch).Some?
    ensures OutLedger(sh, t, NextPublish(sh, ow, at, ch).value)
  {
  }

  lemma LifecycleLedger(cfg: Config, sh: Shared, t: Tid, pc: PC, ch: Choice, child: Tid)
    requires NextLifecycle(cfg, sh, pc, ch, child).Some? && !pc.Startup?
    ensures OutLedger(sh, t, NextLifecycle(cfg, sh, pc, ch, child).value)
  {
    match pc
    case Reconnect(k, re) =>
    case Connecting(o, co) => ConnectLedger(cfg, sh, t, o, co, ch);
    case Publishing(o, pu) => PublishLedger(sh, t, o, pu, ch);
    case Announcing(o, an) =>
    case Finishing(o) =>
  }

  lemma ObserverLedger(cfg: Config, sh: Shared, t: Tid, pc: PC, ch: Choice)
    requires NextObserver(cfg, sh, pc, ch).Some?
    ensures OutLedger(sh, t, NextObserver(cfg, sh, pc, ch).value)
  {
    ObserverHarmless(cfg, sh, pc, ch);
    ObserverTells(cfg, sh, pc, ch);
  }

  lemma ObserverTells(cfg: Config, sh: Shared, pc: PC, ch: Choice)
    requires NextObserver(cfg, sh, pc, ch).Some?
    ensures var o := NextObserver(cfg, sh, pc, ch).value; o.sh.bg == sh.bg && o.sh.cancelled == sh.cancelled
  {
  }

  lemma ActionLedger(cfg: Config, s: State, l: Label, o: Out)
    requires Inv(cfg, s) && Actual(cfg, s, l, o) && !ThreadOf(s, l.t).pc.Startup?
    ensures OutLedger(s.sh, l.t, o)
  {
    var th := ThreadOf(s, l.t);
    ReadyToMove(cfg, s, l.t);
    if th.pc.Idle? {
      IdleLedger(cfg, s.sh, l.t, th.home, l.ch);
    } else if InLifecycle(th.pc) {
      LifecycleLedger(cfg, s.sh, l.t, th.pc, l.ch, l.child);
    } else if InTeardown(th.pc) {
      TeardownLedger(s.sh, l.t, th.pc, l.ch, l.child);
    } else {
      ObserverLedger(cfg, s.sh, l.t, th.pc, l.ch);
    }
  }

  // ---------------------------------------------------------------- runs

  lemma NotLive(cfg: Config, s: State, t: Tid)
    requires Inv(cfg, s) && t !in s.threads
    ensures t !in s.sh.bg.live
  {
  }

  /** The ledger minds no holder of lifecycleMu but a Startup that has stored its components. */
  lemma LedgerAny(cfg: Config, sh: Shared, pc: PC, pc': PC)
    requires Ledger(cfg, sh, pc) && !HasStored(pc) && !HasStored(pc')
    ensures Ledger(cfg, sh, pc')
  {
  }

  lemma StartupKept(cfg: Config, sh: Shared, at: StartAt, ch: Choice, child: Tid, o: Out, holder: PC, holder': PC)
    requires NextStartup(cfg, sh, at, ch, child) == Some(o) && Ledger(cfg, sh, holder)
    requires at.StartComponents? && at.rest != [] ==> child !in sh.bg.live
    requires holder == (if at.Lock? then Idle else Startup(at))
    requires holder' == (if HoldsLifecycle(o.pc) then o.pc else Idle)
    ensures Ledger(cfg, o.sh, holder')
  {
    if at.Lock? {
      LedgerAny(cfg, sh, holder, Startup(at));
    }
    StartupLedger(cfg, sh, at, ch, child);
    if holder' != o.pc {
      LedgerAny(cfg, o.sh, o.pc, holder');
    }
  }

  lemma StartupSpawns(cfg: Config, sh: Shared, at: StartAt, ch: Choice, child: Tid)
    requires NextStartup(cfg, sh, at, ch, child).Some?
    ensures at.StartComponents? && at.rest != [] ==> NextStartup(cfg, sh, at, ch, child).value.spawn.Some?
    ensures at.Lock? ==> HoldsLifecycle(NextStartup(cfg, sh, at, ch, child).value.pc)
  {
  }

  lemma ElsewhereKept(cfg: Config, sh: Shared, t: Tid, pc: PC, o: Out, holder: PC, holder': PC)
    requires Ledger(cfg, sh, holder) && OutLedger(sh, t, o) && !pc.Startup?
    requires holder' == (if HoldsLifecycle(o.pc) then o.pc else if HoldsLifecycle(pc) then Idle else holder)
    requires HoldsLifecycle(pc) ==> holder == pc
    requires HoldsLifecycle(o.pc) && !HoldsLifecycle(pc) ==> holder == Idle
    ensures Ledger(cfg, o.sh, holder')
  {
    OthersLedger(cfg, sh, t, o, holder);
    if holder' != holder {
      LedgerAny(cfg, o.sh, holder, holder');
    }
  }

  lemma LedgerKept(cfg: Config, s: State, l: Label, o: Out)
    requires Inv(cfg, s) && Does(cfg, s, l, o) && Actual(cfg, s, l, o) && Ledger(cfg, s.sh, HolderPC(s))
    ensures Ledger(cfg, o.sh, HolderPC(Apply(s, l, o)))
  {
    var pc := ThreadOf(s, l.t).pc;
    HolderFollows(s, l, o);
    if pc.Startup? {
      StartupAction(cfg, s, l, o);
      StartupSpawns(cfg, s.sh, pc.st, l.ch, l.child);
      if o.spawn.Some? {
        NotLive(cfg, s, l.child);
      }
      StartupKept(cfg, s.sh, pc.st, l.ch, l.child, o, HolderPC(s), HolderPC(Apply(s, l, o)));
    } else {
      ActionLedger(cfg, s, l, o);
      ElsewhereKept(cfg, s.sh, l.t, pc, o, HolderPC(s), HolderPC(Apply(s, l, o)));
    }
  }

  /** In every reachable state. */
  lemma LedgerRun(cfg: Config, states: seq<State>, labels: seq<Label>, i: nat)
    requires IsRun(cfg, states, labels) && i < |states|
    ensures Ledger(cfg, states[i].sh, HolderPC(states[i]))
  {
    var P := (s: State) => Ledger(cfg, s.sh, HolderPC(s));
    forall s, l, o | Inv(cfg, s) && Does(cfg, s, l, o) && Actual(cfg, s, l, o) && P(s) ensures P(Apply(s, l, o)) {
      LedgerKept(cfg, s, l, o);
    }
    RunKeepsActual(cfg, states, labels, 0, i, P);
  }
}
