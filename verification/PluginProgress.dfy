/**
 Deadlock freedom. Waiting is ranked: a Cleanup waits for its phases, a phase for background
 goroutines, a lifecycle operation for lifecycleMu, an access for mu, and a writer for the readers
 before it; whoever is waited for has a smaller rank. I/O is assumed to return and runtime callbacks
 not to call back into the plugin.
 */
module PluginProgress {
  import opened Wrappers
  import opened PluginMachine
  import opened PluginLocks
  import opened PluginLocal
  import opened PluginReachable

  /** In the middle of something. */
  predicate Active(pc: PC) {
    !pc.Idle? && !pc.Exited? && !pc.Crashed?
  }

  /** mu.Lock() or mu.RLock() comes next. */
  predicate EntersMu(pc: PC) {
    || (pc.Startup? && pc.st.LockMu?)
    || (pc.Reconnect? && pc.re.LockMu?)
    || (pc.Publishing? && pc.pu.LockMu?)
    || (pc.Shutting? && pc.cz.LockMu?)
    || (pc.Setting? && pc.se.LockMu?)
    || (pc.Announcing? && pc.an.RLock?)
    || (pc.Probe? && pc.pr.RLock?)
    || (pc.Get? && (pc.ge.RLock? || pc.ge.RLockAgain?))
    || (pc.Health? && pc.he.RLock?)
    || (pc.Check? && (pc.ck.RLock? || pc.ck.RLockAgain?))
    || (pc.Stats? && pc.sa.RLock?)
    || (pc.Warm? && pc.wa.RLock?)
    || (pc.Cleanup? && pc.cl.RLock?)
  }

  function Rank(pc: PC): nat {
    if pc.Cleanup? && (pc.cl.Await1? || pc.cl.Await2?) then 5
    else if pc.Stopping? || pc.Waiting? then 4
    else if (pc.Startup? && pc.st.Lock?) || (pc.Reconnect? && pc.re.Lock?) || (pc.Shutting? && pc.cz.Lock?) then 3
    else if EntersMu(pc) then 2
    else if Draining(pc) then 1
    else 0
  }

  function OpRank(op: LockOp): nat {
    match op
    case LockLifecycle => 3
    case Announce => 2
    case LockReader => 2
    case Drain => 1
    case _ => 0
  }

  /** The next action of a goroutine that is in the middle of something is the one its rank says. */
  ghost predicate Runs(pc: PC, n: Option<Out>) {
    n.Some? && OpRank(n.value.lock) == Rank(pc)
  }

  lemma StartupRuns(cfg: Config, sh: Shared, at: StartAt, child: Tid)
    ensures Runs(Startup(at), NextStartup(cfg, sh, at, Go, child))
  {
  }

  lemma ReconnectRuns(sh: Shared, k: AfterReconnect, at: ReconnectAt)
    ensures Runs(Reconnect(k, at), NextReconnect(sh, k, at, Go))
  {
  }

  lemma ConnectRuns(cfg: Config, sh: Shared, o: Owner, at: ConnectAt)
    ensures Runs(Connecting(o, at), NextConnect(cfg, sh, o, at, Go))
  {
  }

  lemma PublishRuns(sh: Shared, o: Owner, at: PublishAt)
    requires LocalOk(sh, Publishing(o, at))
    ensures Runs(Publishing(o, at), NextPublish(sh, o, at, Go))
  {
  }

  lemma ShuttingRuns(sh: Shared, t: Tid, at: CloseAt)
    ensures Runs(Shutting(at), NextShutting(sh, t, at))
  {
  }

  lemma ProbeRuns(cfg: Config, sh: Shared, k: AfterProbe, at: ProbeAt)
    ensures Runs(Probe(k, at), NextProbe(cfg, sh, k, at, Go))
  {
  }

  lemma GetRuns(cfg: Config, sh: Shared, g: AfterGet, at: GetAt)
    ensures Runs(Get(g, at), NextGet(cfg, sh, g, at, Go))
  {
  }

  lemma CheckRuns(cfg: Config, sh: Shared, at: CheckAt)
    ensures Runs(Check(at), NextCheck(cfg, sh, at, Go))
  {
  }

  lemma LifecycleRuns(cfg: Config, sh: Shared, pc: PC, child: Tid)
    requires InLifecycle(pc) && LocalOk(sh, pc)
    ensures Runs(pc, NextLifecycle(cfg, sh, pc, Go, child))
  {
    match pc
    case Startup(st) => StartupRuns(cfg, sh, st, child);
    case Reconnect(k, re) => ReconnectRuns(sh, k, re);
    case Connecting(o, co) => ConnectRuns(cfg, sh, o, co);
    case Publishing(o, pu) => PublishRuns(sh, o, pu);
    case Announcing(o, an) =>
    case Finishing(o) =>
  }

  lemma ObserverRuns(cfg: Config, sh: Shared, pc: PC)
    requires Active(pc) && !InLifecycle(pc) && !InTeardown(pc)
    ensures Runs(pc, NextObserver(cfg, sh, pc, Go))
  {
    match pc
    case Probe(k, pr) => ProbeRuns(cfg, sh, k, pr);
    case Get(g, ge) => GetRuns(cfg, sh, g, ge);
    case Check(ck) => CheckRuns(cfg, sh, ck);
    case AutoDecide =>
    case Validate(again, va) =>
    case Health(he) =>
    case Stats(sa) =>
    case Warm(wa) =>
    case Setting(se) =>
  }

  lemma TeardownRuns(sh: Shared, t: Tid, pc: PC, child: Tid)
    requires InTeardown(pc) && Rank(pc) <= 3
    ensures Runs(pc, NextTeardown(sh, t, pc, Go, child))
  {
    if pc.Shutting? {
      ShuttingRuns(sh, t, pc.cz);
    }
  }

  lemma NextRuns(cfg: Config, sh: Shared, t: Tid, th: Thread, child: Tid)
    requires Active(th.pc) && Rank(th.pc) <= 3 && LocalOk(sh, th.pc)
    ensures Runs(th.pc, Next(cfg, sh, t, th, Go, child))
  {
    if InLifecycle(th.pc) {
      LifecycleRuns(cfg, sh, th.pc, child);
    } else if InTeardown(th.pc) {
      TeardownRuns(sh, t, th.pc, child);
    } else {
      ObserverRuns(cfg, sh, th.pc);
    }
  }

  lemma HoldersRank(pc: PC)
    ensures HoldsLifecycle(pc) ==> Active(pc) && Rank(pc) <= 2
    ensures Writes(pc) ==> Active(pc) && Rank(pc) <= 1
    ensures Reads(pc) ==> Active(pc) && Rank(pc) == 0
    ensures InBackground(pc) ==> Rank(pc) <= 3
  {
  }

  // ---------------------------------------------------------------- the chain of waiting

  /** Goroutine `u` can take a step without a new call, a driver failure or an expired context. */
  ghost predicate CanGo(cfg: Config, s: State, u: Tid) {
    exists child: Tid :: Step(cfg, s, Label(u, Go, child)).Some?
  }

  lemma {:induction false} UnusedName(names: set<Tid>) returns (n: Tid)
    ensures forall m :: m in names ==> m < n
    decreases names
  {
    if names == {} {
      n := 0;
    } else {
      var m :| m in names;
      var k := UnusedName(names - {m});
      n := if m < k then k else m + 1;
      forall x | x in names ensures x < n {
        assert x == m || x in names - {m};
      }
    }
  }

  /** A goroutine whose next lock operation is possible can go. */
  lemma Unblocked(cfg: Config, s: State, t: Tid)
    requires Inv(cfg, s) && t in s.threads && Active(s.threads[t].pc) && Rank(s.threads[t].pc) <= 3
    requires Rank(s.threads[t].pc) == 3 ==> s.locks.lifecycleMu.None?
    requires Rank(s.threads[t].pc) == 2 ==> s.locks.writer.None?
    requires Rank(s.threads[t].pc) == 1 ==> s.locks.readers == {}
    ensures CanGo(cfg, s, t)
  {
    var child := UnusedName(s.threads.Keys);
    NextRuns(cfg, s.sh, t, s.threads[t], child);
    assert Step(cfg, s, Label(t, Go, child)).Some?;
  }

  /** A background goroutine that was told to stop can go, or is in the middle of something. */
  lemma ToldToStop(cfg: Config, s: State, u: Tid)
    requires Inv(cfg, s) && u in s.threads && s.threads[u].pc.Idle? && s.sh.cancelled
    requires s.threads[u].home.Worker? || s.threads[u].home.Warmer?
    ensures CanGo(cfg, s, u)
  {
    assert Step(cfg, s, Label(u, Go, 0)).Some?;
  }

  /** Goroutine `t` cannot go on before `u` has. */
  ghost predicate WaitsFor(s: State, t: Tid, u: Tid) {
    && t in s.threads && u in s.threads
    && var pc := s.threads[t].pc;
    || (pc.Cleanup? && pc.cl.Await1? && u == pc.cl.w && u !in s.sh.bg.done1)
    || (pc.Cleanup? && pc.cl.Await2? && u == pc.cl.w && u !in s.sh.bg.done2)
    || (pc.Waiting? && pc.rest != [] && u in s.sh.bg.live && s.sh.bg.live[u] == pc.rest[0])
    || (pc.Stopping? && pc.rest == [] && u in s.sh.bg.warmers)
    || (Rank(pc) == 3 && s.locks.lifecycleMu == Some(u))
    || (Rank(pc) == 2 && s.locks.writer == Some(u))
    || (Rank(pc) == 1 && u in s.locks.readers)
  }

  /** Each goroutine of the chain waits for the next, and ranks fall, so that it cannot close to a ring. */
  ghost predicate IsChain(s: State, chain: seq<Tid>) {
    && (forall i :: 0 <= i < |chain| ==> chain[i] in s.threads)
    && forall i :: 0 <= i < |chain| - 1 ==>
                     && WaitsFor(s, chain[i], chain[i + 1])
                     && Rank(s.threads[chain[i + 1]].pc) < Rank(s.threads[chain[i]].pc)
  }

  predicate Awaits(pc: PC) {
    pc.Cleanup? && (pc.cl.Await1? || pc.cl.Await2?)
  }

  /** Waiting is real: whoever waits for another can do nothing, except that a Cleanup that awaits one of
      its phases may find its context expired. */
  lemma WaitingBlocks(cfg: Config, s: State, t: Tid, u: Tid)
    requires Inv(cfg, s) && WaitsFor(s, t, u)
    ensures forall ch, child :: Step(cfg, s, Label(t, ch, child)).Some? ==> ch == Bad && Awaits(s.threads[t].pc)
  {
    forall ch, child: Tid | Step(cfg, s, Label(t, ch, child)).Some? ensures ch == Bad && Awaits(s.threads[t].pc) {
      WaitingBlocksAs(cfg, s, t, u, ch, child);
    }
  }

  lemma WaitingBlocksAs(cfg: Config, s: State, t: Tid, u: Tid, ch: Choice, child: Tid)
    requires Inv(cfg, s) && WaitsFor(s, t, u)
    ensures Step(cfg, s, Label(t, ch, child)).Some? ==> ch == Bad && Awaits(s.threads[t].pc)
  {
    var th := s.threads[t];
    if !ch.Start? {
      if Rank(th.pc) <= 3 {
        LockBlocks(cfg, s, t, u, ch, child);
      } else {
        TeardownBlocks(cfg, s.sh, t, th, ch, child, u);
      }
    }
  }

  /** Whether a lock is free is no matter of choice. */
  lemma LocksAnyway(cfg: Config, sh: Shared, t: Tid, th: Thread, ch: Choice, child: Tid)
    requires Active(th.pc) && 0 < Rank(th.pc) <= 3 && !ch.Start?
    ensures Next(cfg, sh, t, th, ch, child) == Next(cfg, sh, t, th, Go, child)
  {
  }

  /** What goroutine `u` keeps from one of rank `n`. */
  ghost predicate Withheld(lk: Locks, n: nat, u: Tid) {
    (n == 3 && lk.lifecycleMu == Some(u)) || (n == 2 && lk.writer == Some(u)) || (n == 1 && u in lk.readers)
  }

  lemma WithheldLock(s: State, t: Tid, u: Tid)
    requires WaitsFor(s, t, u) && Rank(s.threads[t].pc) <= 3
    ensures Withheld(s.locks, Rank(s.threads[t].pc), u) && Active(s.threads[t].pc)
  {
  }

  lemma LockBlocks(cfg: Config, s: State, t: Tid, u: Tid, ch: Choice, child: Tid)
    requires Inv(cfg, s) && WaitsFor(s, t, u) && Rank(s.threads[t].pc) <= 3 && !ch.Start?
    ensures Step(cfg, s, Label(t, ch, child)).None?
  {
    WithheldLock(s, t, u);
    NextRuns(cfg, s.sh, t, s.threads[t], child);
    LocksAnyway(cfg, s.sh, t, s.threads[t], ch, child);
    var n := Next(cfg, s.sh, t, s.threads[t], Go, child);
    assert !LockEnabled(n.value.lock, s.locks);
  }

  lemma TeardownBlocks(cfg: Config, sh: Shared, t: Tid, th: Thread, ch: Choice, child: Tid, u: Tid)
    requires Rank(th.pc) > 3
    requires th.pc.Cleanup? && th.pc.cl.Await1? ==> th.pc.cl.w !in sh.bg.done1
    requires th.pc.Cleanup? && th.pc.cl.Await2? ==> th.pc.cl.w !in sh.bg.done2
    requires th.pc.Waiting? ==> th.pc.rest != [] && u in sh.bg.live && sh.bg.live[u] == th.pc.rest[0]
    requires th.pc.Stopping? ==> th.pc.rest == [] && u in sh.bg.warmers
    ensures Next(cfg, sh, t, th, ch, child).Some? ==> ch == Bad && Awaits(th.pc)
  {
    assert th.pc.Waiting? ==> th.pc.rest[0] in sh.bg.live.Values;
  }

  lemma Longer(s: State, t: Tid, chain: seq<Tid>)
    requires IsChain(s, chain) && chain != [] && WaitsFor(s, t, chain[0])
    requires Rank(s.threads[chain[0]].pc) < Rank(s.threads[t].pc)
    ensures IsChain(s, [t] + chain)
  {
    var longer := [t] + chain;
    forall i | 0 <= i < |longer| - 1
      ensures WaitsFor(s, longer[i], longer[i + 1]) && Rank(s.threads[longer[i + 1]].pc) < Rank(s.threads[longer[i]].pc)
    {
      if i > 0 {
        assert longer[i] == chain[i - 1] && longer[i + 1] == chain[i - 1 + 1];
      }
    }
  }

  /** Whom a goroutine waits for that holds a lock. */
  lemma WaitsForHolder(cfg: Config, s: State, t: Tid) returns (u: Tid)
    requires Inv(cfg, s) && t in s.threads && Active(s.threads[t].pc) && Rank(s.threads[t].pc) <= 3 && !CanGo(cfg, s, t)
    ensures WaitsFor(s, t, u) && Active(s.threads[u].pc) && Rank(s.threads[u].pc) < Rank(s.threads[t].pc)
  {
    var rank := Rank(s.threads[t].pc);
    if rank == 3 && s.locks.lifecycleMu.Some? {
      u := s.locks.lifecycleMu.value;
    } else if rank == 2 && s.locks.writer.Some? {
      u := s.locks.writer.value;
    } else if rank == 1 && s.locks.readers != {} {
      u :| u in s.locks.readers;
    } else {
      Unblocked(cfg, s, t);
      assert false;
    }
    assert LockThread(s, u);
    HoldersRank(s.threads[u].pc);
  }

  /** A Cleanup waits for the goroutine of its phase. */
  lemma WaitsForPhase(cfg: Config, s: State, t: Tid) returns (u: Tid)
    requires Inv(cfg, s) && t in s.threads && Rank(s.threads[t].pc) == 5 && !CanGo(cfg, s, t)
    ensures WaitsFor(s, t, u) && Active(s.threads[u].pc) && Rank(s.threads[u].pc) < 5
  {
    var at := s.threads[t].pc.cl;
    assert Step(cfg, s, Label(t, Go, 0)).None?;
    u := at.w;
    if at.Await1? {
      assert InPhase1(s, u);
    } else {
      assert InPhase2(s, u);
    }
  }

  /** Phase one waits for a component's goroutine or for a warmup. */
  lemma WaitsForWorker(cfg: Config, s: State, t: Tid) returns (u: Tid)
    requires Inv(cfg, s) && t in s.threads && Rank(s.threads[t].pc) == 4 && !CanGo(cfg, s, t)
    ensures WaitsFor(s, t, u) && (s.threads[u].home.Worker? || s.threads[u].home.Warmer?) && !s.threads[u].pc.Exited?
  {
    var pc := s.threads[t].pc;
    assert LocalOk(s.sh, pc);
    assert Step(cfg, s, Label(t, Go, 0)).None?;
    if pc.Waiting? {
      u :| u in s.sh.bg.live && s.sh.bg.live[u] == pc.rest[0];
    } else {
      u :| u in s.sh.bg.warmers;
    }
  }

  lemma WorkersRank(cfg: Config, s: State, u: Tid)
    requires Inv(cfg, s) && u in s.threads && (s.threads[u].home.Worker? || s.threads[u].home.Warmer?) &&
        !s.threads[u].pc.Exited?
    ensures Rank(s.threads[u].pc) <= 3 && (s.threads[u].pc.Idle? || Active(s.threads[u].pc))
  {
    assert HomeOk(s.threads[u]);
    HoldersRank(s.threads[u].pc);
  }

  lemma PhasesAreCancelled(cfg: Config, s: State, t: Tid)
    requires Inv(cfg, s) && t in s.threads && Rank(s.threads[t].pc) == 4
    ensures s.sh.cancelled
  {
    assert LocalOk(s.sh, s.threads[t].pc);
  }

  /** From whoever is in the middle of something a chain of waiting, ever lower in rank, leads to a
      goroutine that can go. */
  lemma {:induction false} Progress(cfg: Config, s: State, t: Tid) returns (chain: seq<Tid>)
    requires Inv(cfg, s) && t in s.threads && Active(s.threads[t].pc)
    ensures IsChain(s, chain) && chain != [] && chain[0] == t && CanGo(cfg, s, chain[|chain| - 1])
    decreases Rank(s.threads[t].pc)
  {
    if CanGo(cfg, s, t) {
      return [t];
    }
    var rank := Rank(s.threads[t].pc);
    var u: Tid;
    if rank == 5 {
      u := WaitsForPhase(cfg, s, t);
    } else if rank == 4 {
      u := WaitsForWorker(cfg, s, t);
      WorkersRank(cfg, s, u);
    } else {
      u := WaitsForHolder(cfg, s, t);
    }
    var rest := [u];
    if s.threads[u].pc.Idle? {
      PhasesAreCancelled(cfg, s, t);
      ToldToStop(cfg, s, u);
    } else {
      rest := Progress(cfg, s, u);
    }
    Longer(s, t, rest);
    chain := [t] + rest;
  }

  /** No run deadlocks: while any call or shutdown is under way, whoever is in the middle of it waits, if
      at all, along such a chain for a goroutine that can go. */
  lemma DeadlockFree(cfg: Config, states: seq<State>, labels: seq<Label>, i: nat, t: Tid) returns (chain: seq<Tid>)
    requires IsRun(cfg, states, labels) && i < |states|
    requires t in states[i].threads && Active(states[i].threads[t].pc)
    ensures IsChain(states[i], chain) && chain != [] && chain[0] == t && CanGo(cfg, states[i], chain[|chain| - 1])
  {
    RunInv(cfg, states, labels, i);
    chain := Progress(cfg, states[i], t);
  }

  /** No operation, phase or background tick is under way. */
  ghost predicate AtRest(s: State) {
    forall t :: t in s.threads ==> !Active(s.threads[t].pc)
  }
}
