/**
 How Cleanup's first phase overtakes a Startup: the Startup stands still, about to start something, and
 everything phase one waits for can be brought to its end.
 */
module PluginOvertaking {
  import opened Wrappers
  import opened PluginMachine
  import opened PluginLocks
  import opened PluginLocal
  import opened PluginReachable
  import opened PluginProgress
  import opened PluginRelease
  import opened PluginWorkers
  import opened PluginDriven

  /** No goroutine that is waited for waits for lifecycleMu. */
  predicate LooseThread(th: Thread) {
    Awaited(th.home) ==> !(th.pc.Reconnect? && th.pc.re.Lock?)
  }

  ghost predicate Loose(s: State) {
    forall u :: u in s.threads ==> LooseThread(s.threads[u])
  }

  /** Only the phase one that `w` waits for is at work, and one that has reported is over. */
  ghost predicate OneStopper(s: State, w: Tid) {
    && w in s.threads
    && (forall t :: t in s.threads && (s.threads[t].pc.Stopping? || s.threads[t].pc.Waiting?) ==>
                      s.threads[w].pc == Cleanup(Await1(t)))
    && (forall t :: t in s.sh.bg.done1 ==> t in s.threads && s.threads[t].pc.Exited?)
  }

  /** Startup `h` stands still at `at`, outside mu; Cleanup `w` is on its way to phase two. */
  ghost predicate Overtaking(w: Tid, h: Tid, at: StartAt, s: State) {
    && s.sh.closing && h in s.threads && s.threads[h] == Thread(Caller, Startup(at)) && s.locks.lifecycleMu == Some(h)
    && HoldsLifecycle(Startup(at)) && !InMu(Startup(at))
    && w in s.threads && s.threads[w].home.Caller? && PastCas(s.threads[w].pc)
    && Loose(s) && OneStopper(s, w)
  }

  /** What a waiting Cleanup waits for, directly or not: never the Startup. */
  predicate NotHeldUp(s: State, h: Tid, u: Tid)
    requires u in s.threads
  {
    u != h && Rank(s.threads[u].pc) != 3
  }

  lemma AwaitedRank(th: Thread)
    requires HomeOk(th) && Awaited(th.home) && LooseThread(th)
    ensures Rank(th.pc) != 3 && !th.pc.Startup?
  {
  }

  lemma MuRank(pc: PC)
    requires InMu(pc)
    ensures Rank(pc) != 3
  {
    HoldersRank(pc);
  }

  lemma NextInChain(cfg: Config, s: State, w: Tid, h: Tid, at: StartAt, x: Tid, y: Tid)
    requires Inv(cfg, s) && Overtaking(w, h, at, s) && WaitsFor(s, x, y)
    requires Rank(s.threads[x].pc) != 3 && (s.threads[x].pc.Cleanup? ==> !s.threads[x].pc.cl.Await2?)
    ensures NotHeldUp(s, h, y)
  {
    if Rank(s.threads[x].pc) <= 2 {
      WaitsForMu(s, x, y);
      MuRank(s.threads[y].pc);
    } else if s.threads[x].pc.Cleanup? {
      assert InPhase1(s, y);
    } else {
      assert HomeOk(s.threads[y]) && LooseThread(s.threads[y]);
      assert Awaited(s.threads[y].home);
      AwaitedRank(s.threads[y]);
    }
  }

  lemma {:induction false} ChainNotHeldUp(cfg: Config, s: State, w: Tid, h: Tid, at: StartAt, chain: seq<Tid>, i: nat)
    requires Inv(cfg, s) && Overtaking(w, h, at, s) && BeforePhase2(s.threads[w].pc)
    requires IsChain(s, chain) && i < |chain| && chain[0] == w
    ensures NotHeldUp(s, h, chain[i]) && Rank(s.threads[chain[i]].pc) <= Rank(s.threads[w].pc)
    ensures i > 0 ==> Rank(s.threads[chain[i]].pc) < 5
  {
    if i > 0 {
      ChainNotHeldUp(cfg, s, w, h, at, chain, i - 1);
      assert WaitsFor(s, chain[i - 1], chain[i - 1 + 1]);
      NextInChain(cfg, s, w, h, at, chain[i - 1], chain[i]);
    }
  }

  /** The auto-reconnector is made to find its attempts used up. */
  function Tactful(pc: PC): Choice {
    if pc.AutoDecide? then Bad else Go
  }

  lemma LooseIdle(cfg: Config, sh: Shared, t: Tid, home: Home)
    requires Awaited(home) && NextIdle(cfg, sh, t, home, Go).Some?
    ensures LooseThread(Thread(home, NextIdle(cfg, sh, t, home, Go).value.pc))
  {
  }

  lemma LooseProbe(cfg: Config, sh: Shared, home: Home, k: AfterProbe, at: ProbeAt)
    requires HomeOk(Thread(home, Probe(k, at))) && Awaited(home) && NextProbe(cfg, sh, k, at, Go).Some?
    ensures LooseThread(Thread(home, NextProbe(cfg, sh, k, at, Go).value.pc))
  {
  }

  lemma LooseObserver(cfg: Config, sh: Shared, th: Thread)
    requires HomeOk(th) && Awaited(th.home) && NextObserver(cfg, sh, th.pc, Tactful(th.pc)).Some?
    ensures LooseThread(th.(pc := NextObserver(cfg, sh, th.pc, Tactful(th.pc)).value.pc))
  {
    if th.pc.Probe? {
      LooseProbe(cfg, sh, th.home, th.pc.pk, th.pc.pr);
    }
  }

  lemma LooseMover(cfg: Config, s: State, l: Label, o: Out)
    requires Inv(cfg, s) && Actual(cfg, s, l, o) && l.t in s.threads && l.ch == Tactful(s.threads[l.t].pc)
    requires LooseThread(s.threads[l.t]) && !HoldsLifecycle(s.threads[l.t].pc)
    ensures LooseThread(s.threads[l.t].(pc := o.pc))
  {
    var th := s.threads[l.t];
    assert HomeOk(th);
    if Awaited(th.home) {
      AwaitedPcs(th);
      if th.pc.Idle? {
        LooseIdle(cfg, s.sh, l.t, th.home);
      } else {
        LooseObserver(cfg, s.sh, th);
      }
    }
  }

  lemma AwaitedPcs(th: Thread)
    requires HomeOk(th) && Awaited(th.home) && LooseThread(th) && !HoldsLifecycle(th.pc)
    ensures !InLifecycle(th.pc) && !InTeardown(th.pc)
  {
  }

  lemma LooseKept(cfg: Config, s: State, l: Label, o: Out)
    requires Inv(cfg, s) && Does(cfg, s, l, o) && Actual(cfg, s, l, o) && Loose(s)
    requires l.t in s.threads && l.ch == Tactful(s.threads[l.t].pc) && !HoldsLifecycle(s.threads[l.t].pc)
    ensures Loose(Apply(s, l, o))
  {
    var s' := Apply(s, l, o);
    LooseMover(cfg, s, l, o);
    BystanderStartsNothing(s.sh, s.threads[l.t].pc, o);
    forall u | u in s'.threads ensures LooseThread(s'.threads[u]) {
      if u in s.threads && u != l.t {
        assert s'.threads[u] == s.threads[u];
      }
    }
  }

  // the winner itself

  lemma WinnerGoes(sh: Shared, at: CleanupAt, child: Tid)
    requires NextCleanup(sh, at, Go, child).Some? && BeforePhase2(Cleanup(at))
    ensures var o := NextCleanup(sh, at, Go, child).value;
            && PastCas(o.pc) && o.sh.bg.done1 == sh.bg.done1
            && (o.spawn.Some? ==>
                  (o.spawn.value.pc.Stopping? && o.pc == Cleanup(Await1(child))) || o.spawn.value.pc.Shutting?)
            && (at.Await1? ==> at.w in sh.bg.done1)
  {
  }

  lemma StopperByWinner(s: State, l: Label, o: Out, w: Tid)
    requires l.t == w && OneStopper(s, w) && BeforePhase2(s.threads[w].pc) && Allowed(s, l, o)
    requires PastCas(o.pc) && o.sh.bg.done1 == s.sh.bg.done1
    requires o.spawn.Some? ==>
               (o.spawn.value.pc.Stopping? && o.pc == Cleanup(Await1(l.child))) || o.spawn.value.pc.Shutting?
    requires s.threads[w].pc.cl.Await1? ==> s.threads[w].pc.cl.w in s.sh.bg.done1
    ensures OneStopper(Apply(s, l, o), w)
  {
  }

  lemma StopperByOther(cfg: Config, s: State, l: Label, o: Out, w: Tid)
    requires Inv(cfg, s) && Does(cfg, s, l, o) && OneStopper(s, w) && l.t != w && l.t in s.threads
    requires s.threads[l.t].pc.Cleanup? ==> o.spawn.None?
    requires o.sh.bg.done1 != s.sh.bg.done1 ==> o.pc.Exited? && o.sh.bg.done1 == s.sh.bg.done1 + {l.t}
    ensures OneStopper(Apply(s, l, o), w)
  {
    ReadyToMove(cfg, s, l.t);
    StopperOnly(s.sh, l.t, l.child, s.threads[l.t], o);
    StopperThreads(s, l, o, w);
  }

  lemma StopperThreads(s: State, l: Label, o: Out, w: Tid)
    requires OneStopper(s, w) && l.t != w && l.t in s.threads && Allowed(s, l, o)
    requires o.pc.Stopping? || o.pc.Waiting? ==> s.threads[l.t].pc.Stopping? || s.threads[l.t].pc.Waiting?
    requires o.spawn.Some? ==> !o.spawn.value.pc.Stopping? && !o.spawn.value.pc.Waiting?
    requires !s.threads[l.t].pc.Exited?
    requires o.sh.bg.done1 != s.sh.bg.done1 ==> o.pc.Exited? && o.sh.bg.done1 == s.sh.bg.done1 + {l.t}
    ensures OneStopper(Apply(s, l, o), w)
  {
  }

  lemma StopperOnly(sh: Shared, t: Tid, child: Tid, th: Thread, o: Out)
    requires OutWaits(sh, t, child, th.home, th.pc, o) && HomeOk(th) && HomeOk(Thread(th.home, o.pc))
    requires th.pc.Cleanup? ==> o.spawn.None?
    ensures o.pc.Stopping? || o.pc.Waiting? ==> th.pc.Stopping? || th.pc.Waiting?
    ensures o.spawn.Some? ==> !o.spawn.value.pc.Stopping? && !o.spawn.value.pc.Waiting?
    ensures !th.pc.Exited?
  {
  }

  lemma Reports(cfg: Config, s: State, l: Label, o: Out)
    requires Does(cfg, s, l, o) && Actual(cfg, s, l, o) && o.sh.bg.done1 != s.sh.bg.done1
    ensures o.pc.Exited? && o.sh.bg.done1 == s.sh.bg.done1 + {l.t}
  {
    assert ThreadOf(s, l.t).pc.Stopping?;
    assert NextStopping(s.sh, l.t, ThreadOf(s, l.t).pc.rest) == Some(o);
  }

  /** Any other Cleanup finds `closing` set. */
  lemma LoserSpawnsNothing(cfg: Config, s: State, l: Label, o: Out)
    requires Actual(cfg, s, l, o) && s.sh.closing && ThreadOf(s, l.t).pc.Cleanup? && !PastCas(ThreadOf(s, l.t).pc)
    ensures o.spawn.None?
  {
    assert NextCleanup(s.sh, Cas, l.ch, l.child) == Some(o);
  }

  lemma OvertakingByWinner(cfg: Config, s: State, l: Label, o: Out, w: Tid, h: Tid, at: StartAt)
    requires Inv(cfg, s) && Does(cfg, s, l, o) && Actual(cfg, s, l, o) && Overtaking(w, h, at, s)
    requires l.t == w && l.ch == Go && BeforePhase2(s.threads[w].pc)
    ensures Overtaking(w, h, at, Apply(s, l, o))
  {
    assert NextCleanup(s.sh, s.threads[w].pc.cl, Go, l.child) == Some(o);
    WinnerGoes(s.sh, s.threads[w].pc.cl, l.child);
    HolderStays(cfg, s, l, o, h);
    LooseKept(cfg, s, l, o);
    StopperByWinner(s, l, o, w);
  }

  lemma OvertakingByOther(cfg: Config, s: State, l: Label, o: Out, w: Tid, h: Tid, at: StartAt)
    requires Sound(cfg, s) && Does(cfg, s, l, o) && Actual(cfg, s, l, o) && Overtaking(w, h, at, s)
    requires l.t != w && l.t != h && l.t in s.threads && l.ch == Tactful(s.threads[l.t].pc)
    ensures Overtaking(w, h, at, Apply(s, l, o))
  {
    HolderStays(cfg, s, l, o, h);
    NotTheHolder(s, l.t, h);
    LooseKept(cfg, s, l, o);
    if s.threads[l.t].pc.Cleanup? {
      LoserSpawnsNothing(cfg, s, l, o);
    }
    if o.sh.bg.done1 != s.sh.bg.done1 {
      Reports(cfg, s, l, o);
    }
    StopperByOther(cfg, s, l, o, w);
  }

  lemma NotTheHolder(s: State, t: Tid, h: Tid)
    requires LockInv(s) && t in s.threads && t != h && s.locks.lifecycleMu == Some(h)
    ensures !HoldsLifecycle(s.threads[t].pc)
  {
    assert LockThread(s, t);
  }

  lemma TactfulCan(cfg: Config, s: State, u: Tid) returns (l: Label)
    requires CanGo(cfg, s, u) && u in s.threads
    ensures l.t == u && l.ch == Tactful(s.threads[u].pc) && Step(cfg, s, l).Some?
  {
    var child: Tid :| Step(cfg, s, Label(u, Go, child)).Some?;
    l := Label(u, Tactful(s.threads[u].pc), child);
  }

  lemma OvertakingMover(cfg: Config, s: State, w: Tid, h: Tid, at: StartAt) returns (u: Tid)
    requires Inv(cfg, s) && Overtaking(w, h, at, s) && BeforePhase2(s.threads[w].pc)
    ensures u in s.threads && CanGo(cfg, s, u) && u != h
  {
    var chain := Progress(cfg, s, w);
    u := chain[|chain| - 1];
    ChainNotHeldUp(cfg, s, w, h, at, chain, |chain| - 1);
  }

  lemma OvertakingMove(cfg: Config, s: State, w: Tid, h: Tid, at: StartAt, l: Label)
    requires Sound(cfg, s) && Overtaking(w, h, at, s) && BeforePhase2(s.threads[w].pc) && Step(cfg, s, l).Some?
    requires l.t in s.threads && l.t != h && l.ch == Tactful(s.threads[l.t].pc)
    ensures Overtaking(w, h, at, Step(cfg, s, l).value)
  {
    var o := StepDoes(cfg, s, l);
    if l.t == w {
      OvertakingByWinner(cfg, s, l, o, w, h, at);
    } else {
      OvertakingByOther(cfg, s, l, o, w, h, at);
    }
  }

  lemma OvertakingAdvances(cfg: Config, s: State, w: Tid, h: Tid, at: StartAt) returns (l: Label)
    requires Sound(cfg, s) && Overtaking(w, h, at, s) && BeforePhase2(s.threads[w].pc)
    ensures !l.ch.Start? && Step(cfg, s, l).Some? && Overtaking(w, h, at, Step(cfg, s, l).value)
  {
    var u := OvertakingMover(cfg, s, w, h, at);
    l := TactfulCan(cfg, s, u);
    OvertakingMove(cfg, s, w, h, at, l);
  }

  /** Phase one can be brought to its end, and phase two begun, while the Startup stands still. */
  lemma Overtake(cfg: Config, states: seq<State>, labels: seq<Label>, w: Tid, h: Tid, at: StartAt)
      returns (states': seq<State>, labels': seq<Label>)
    requires IsRun(cfg, states, labels) && Overtaking(w, h, at, states[|labels|])
    ensures IsRun(cfg, states', labels') && states <= states' && labels <= labels'
    ensures Overtaking(w, h, at, states'[|labels'|]) && states'[|labels'|].threads[w].pc.cl.Await2?
  {
    var Keep := (s: State) => Overtaking(w, h, at, s);
    var Stop := (s: State) => w in s.threads && s.threads[w].pc.Cleanup? && s.threads[w].pc.cl.Await2?;
    forall s | Sound(cfg, s) && Keep(s) && !Stop(s) ensures Advances(cfg, Keep, s) {
      var l := OvertakingAdvances(cfg, s, w, h, at);
      assert Keep(Step(cfg, s, l).value);
    }
    states', labels' := RunsUntil(cfg, states, labels, Keep, Stop);
  }
}
