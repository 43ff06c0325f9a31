/**
 When a shutdown releases the pool: exactly when its second phase was begun. A Cleanup whose context
 expires before that leaves the pool open for good, since no later Cleanup does anything.
 */
module PluginRelease {
  import opened Wrappers
  import opened PluginMachine
  import opened PluginLocks
  import opened PluginInvariant
  import opened PluginLocal
  import opened PluginReachable
  import opened PluginProgress
  import opened PluginShutdown
  import opened PluginWorkers

  /** A Cleanup starts its second phase. */
  predicate BeginsPhase2(s: State, l: Label) {
    ThreadOf(s, l.t).pc == Cleanup(Spawn2) && l.ch != Bad
  }

  // ---------------------------------------------------------------- without phase two

  ghost predicate NoPhase2(s: State) {
    !s.sh.pools.shut && forall t :: t in s.threads ==> !s.threads[t].home.Phase2?
  }

  lemma CleanupChild(sh: Shared, at: CleanupAt, ch: Choice, child: Tid)
    requires NextCleanup(sh, at, ch, child).Some? && NextCleanup(sh, at, ch, child).value.spawn.Some?
    requires !(at.Spawn2? && ch != Bad)
    ensures !NextCleanup(sh, at, ch, child).value.spawn.value.home.Phase2?
  {
  }

  lemma StartupChild(cfg: Config, sh: Shared, at: StartAt, ch: Choice, child: Tid)
    requires NextStartup(cfg, sh, at, ch, child).Some? && NextStartup(cfg, sh, at, ch, child).value.spawn.Some?
    ensures !NextStartup(cfg, sh, at, ch, child).value.spawn.value.home.Phase2?
  {
  }

  lemma ChildNotPhase2(cfg: Config, s: State, l: Label, o: Out)
    requires Actual(cfg, s, l, o) && o.spawn.Some? && !BeginsPhase2(s, l)
    ensures !o.spawn.value.home.Phase2?
  {
    var pc := ThreadOf(s, l.t).pc;
    if pc.Startup? {
      StartupChild(cfg, s.sh, pc.st, l.ch, l.child);
    } else if pc.Cleanup? {
      CleanupChild(s.sh, pc.cl, l.ch, l.child);
    }
  }

  lemma NoPhase2Step(cfg: Config, s: State, l: Label, o: Out)
    requires Inv(cfg, s) && Does(cfg, s, l, o) && NoPhase2(s)
    requires o.spawn.Some? ==> !o.spawn.value.home.Phase2?
    ensures NoPhase2(Apply(s, l, o))
  {
    assert !ThreadOf(s, l.t).pc.Shutting? by {
      assert l.t in s.threads ==> HomeOk(s.threads[l.t]);
    }
    OnlyPhase2Shuts(s.sh, ThreadOf(s, l.t).pc, o);
  }

  lemma NoPhase2Next(cfg: Config, states: seq<State>, labels: seq<Label>, i: nat)
    requires IsRun(cfg, states, labels) && i < |labels| && NoPhase2(states[i]) && !BeginsPhase2(states[i], labels[i])
    ensures NoPhase2(states[i + 1])
  {
    RunInv(cfg, states, labels, i);
    assert Step(cfg, states[i], labels[i]) == Some(states[i + 1]);
    var o := StepDoes(cfg, states[i], labels[i]);
    if o.spawn.Some? {
      ChildNotPhase2(cfg, states[i], labels[i], o);
    }
    NoPhase2Step(cfg, states[i], labels[i], o);
  }

  ghost predicate Phase2Began(states: seq<State>, labels: seq<Label>, n: nat)
    requires n <= |labels| <= |states|
  {
    exists k :: 0 <= k < n && BeginsPhase2(states[k], labels[k])
  }

  lemma {:induction false} NoPhase2Run(cfg: Config, states: seq<State>, labels: seq<Label>, n: nat)
    requires IsRun(cfg, states, labels) && n < |states| && !Phase2Began(states, labels, n)
    ensures NoPhase2(states[n])
  {
    if n > 0 {
      NoPhase2Run(cfg, states, labels, n - 1);
      assert !BeginsPhase2(states[n - 1], labels[n - 1]);
      NoPhase2Next(cfg, states, labels, n - 1);
    }
  }

  // ---------------------------------------------------------------- with phase two

  lemma Phase2Spawns(cfg: Config, s: State, l: Label, o: Out)
    requires Actual(cfg, s, l, o) && BeginsPhase2(s, l)
    ensures o.spawn == Some(Thread(Phase2, Shutting(CloseAt.Lock)))
  {
  }

  lemma Phase2Starts(cfg: Config, states: seq<State>, labels: seq<Label>, k: nat)
    requires IsRun(cfg, states, labels) && k < |labels| && BeginsPhase2(states[k], labels[k])
    ensures InPhase2(states[k + 1], labels[k].child)
  {
    RunInv(cfg, states, labels, k);
    assert Step(cfg, states[k], labels[k]) == Some(states[k + 1]);
    var o := StepDoes(cfg, states[k], labels[k]);
    Phase2Spawns(cfg, states[k], labels[k], o);
  }

  lemma Phase2Lasts(cfg: Config, states: seq<State>, labels: seq<Label>, k: nat, n: nat)
    requires IsRun(cfg, states, labels) && k < n < |states| && BeginsPhase2(states[k], labels[k])
    ensures InPhase2(states[n], labels[k].child)
  {
    Phase2Starts(cfg, states, labels, k);
    var outs := Explain(cfg, states, labels);
    var w := labels[k].child;
    var P := (s: State) => InPhase2(s, w);
    forall s, l, o | Inv(cfg, s) && Does(cfg, s, l, o) && P(s) ensures P(Apply(s, l, o)) {
      ApplyPhases(cfg, s, l, o, w);
    }
    RunKeeps(cfg, states, labels, outs, k + 1, n, P);
  }

  // ---------------------------------------------------------------- the two together

  /** Whenever all is at rest: if phase two was ever begun everything has been released, and if it was
      not, the published pool is still open. */
  lemma ReleasedExactlyByPhase2(cfg: Config, states: seq<State>, labels: seq<Label>, n: nat)
    requires IsRun(cfg, states, labels) && n < |states| && AtRest(states[n]) && states[n].sh.pools.history != []
    ensures AllReleased(states[n]) <==> Phase2Began(states, labels, n)
    ensures !Phase2Began(states, labels, n) ==>
              var ps := states[n].sh.pools; ps.db == Latest(ps.history) && ps.closes[ps.db.value] == 0
  {
    RunInv(cfg, states, labels, n);
    if Phase2Began(states, labels, n) {
      var k :| 0 <= k < n && BeginsPhase2(states[k], labels[k]);
      Phase2Lasts(cfg, states, labels, k, n);
      assert labels[k].child in states[n].sh.bg.done2;
      DoneMeansReleased(cfg, states[n]);
    } else {
      NoPhase2Run(cfg, states, labels, n);
      RestsOpen(cfg, states[n]);
    }
  }

  lemma RestsOpen(cfg: Config, s: State)
    requires Inv(cfg, s) && AtRest(s) && !s.sh.pools.shut && s.sh.pools.history != []
    ensures s.sh.pools.db == Latest(s.sh.pools.history) && s.sh.pools.closes[s.sh.pools.db.value] == 0
  {
    assert s.locks.lifecycleMu.None? by {
      if s.locks.lifecycleMu.Some? {
        assert LockThread(s, s.locks.lifecycleMu.value);
        HoldersRank(s.threads[s.locks.lifecycleMu.value].pc);
      }
    }
    var ps := s.sh.pools;
    assert Places(ps, PhaseOf(HolderPC(s)), ps.db.value) == One(ps.db.value < ps.created);
  }

  // ---------------------------------------------------------------- abandoned before phase two

  /** The Cleanup that won. */
  predicate PastCas(pc: PC) {
    pc.Cleanup? && !pc.cl.Cas?
  }

  /** It has not begun phase two yet. */
  predicate BeforePhase2(pc: PC) {
    PastCas(pc) && !pc.cl.Await2?
  }

  /** The winner's context has expired during phase one, or between the phases: it returns an error. */
  predicate Abandons(s: State, l: Label) {
    var pc := ThreadOf(s, l.t).pc;
    l.ch == Bad && pc.Cleanup? && (pc.cl.Spawn1? || pc.cl.Await1? || pc.cl.CheckCtx? || pc.cl.Spawn2?)
  }

  /** There is one winner, and no phase two before it has got there. */
  ghost predicate OnePast(s: State) {
    && (forall t, u ::
          t in s.threads && u in s.threads && PastCas(s.threads[t].pc) && PastCas(s.threads[u].pc) ==> t == u)
    && (!s.sh.closing ==> NoPhase2(s))
    && (forall t :: t in s.threads && BeforePhase2(s.threads[t].pc) ==> NoPhase2(s))
  }

  lemma CleanupMoves(sh: Shared, at: CleanupAt, ch: Choice, child: Tid)
    requires NextCleanup(sh, at, ch, child).Some?
    ensures var pc := NextCleanup(sh, at, ch, child).value.pc;
            && (PastCas(pc) ==> PastCas(Cleanup(at)) || !sh.closing)
            && (BeforePhase2(pc) ==> BeforePhase2(Cleanup(at)) || at == Cas)
            && (at == Spawn2 && ch != Bad ==> !BeforePhase2(pc))
            && (ch == Bad && (at.Spawn1? || at.Await1? || at.CheckCtx? || at.Spawn2?) ==> pc.Idle?)
  {
  }

  /** What the winner's program counter can do in one action. */
  ghost predicate OutCas(s: State, l: Label, o: Out) {
    var pc := ThreadOf(s, l.t).pc;
    && (PastCas(o.pc) ==> PastCas(pc) || !s.sh.closing)
    && (BeforePhase2(o.pc) ==> BeforePhase2(pc) || !s.sh.closing)
    && (BeginsPhase2(s, l) ==> !BeforePhase2(o.pc))
    && (Abandons(s, l) ==> o.pc.Idle?)
    && (o.spawn.Some? ==> !PastCas(o.spawn.value.pc))
    && (o.spawn.Some? && !BeginsPhase2(s, l) ==> !o.spawn.value.home.Phase2?)
  }

  lemma CleanupCas(cfg: Config, s: State, l: Label, o: Out)
    requires Actual(cfg, s, l, o) && ThreadOf(s, l.t).pc.Cleanup?
    ensures var pc := ThreadOf(s, l.t).pc;
            && (PastCas(o.pc) ==> PastCas(pc) || !s.sh.closing)
            && (BeforePhase2(o.pc) ==> BeforePhase2(pc) || pc == Cleanup(Cas))
            && (BeginsPhase2(s, l) ==> !BeforePhase2(o.pc))
            && (Abandons(s, l) ==> o.pc.Idle?)
  {
    var at := ThreadOf(s, l.t).pc.cl;
    assert NextCleanup(s.sh, at, l.ch, l.child) == Some(o);
    CleanupMoves(s.sh, at, l.ch, l.child);
  }

  lemma CasMoves(cfg: Config, s: State, l: Label, o: Out)
    requires Inv(cfg, s) && Does(cfg, s, l, o) && Actual(cfg, s, l, o)
    ensures OutCas(s, l, o)
  {
    var pc := ThreadOf(s, l.t).pc;
    if o.spawn.Some? && !BeginsPhase2(s, l) {
      ChildNotPhase2(cfg, s, l, o);
    }
    if pc.Cleanup? {
      CleanupCas(cfg, s, l, o);
    }
  }

  lemma PastCasMeansClosing(cfg: Config, s: State, t: Tid)
    requires Inv(cfg, s) && PastCas(ThreadOf(s, t).pc)
    ensures t in s.threads && s.sh.closing
  {
    assert LocalOk(s.sh, s.threads[t].pc);
  }

  lemma NoPhase2Kept(cfg: Config, s: State, l: Label, o: Out)
    requires Inv(cfg, s) && Does(cfg, s, l, o) && OutCas(s, l, o) && NoPhase2(s) && !BeginsPhase2(s, l)
    ensures NoPhase2(Apply(s, l, o))
  {
    NoPhase2Step(cfg, s, l, o);
  }

  /** While another goroutine is past the compare-and-swap, nobody else gets past it. */
  lemma NotTwoPast(cfg: Config, s: State, l: Label, o: Out, u: Tid)
    requires Inv(cfg, s) && OutCas(s, l, o) && OnePast(s)
    requires u != l.t && u in s.threads && PastCas(s.threads[u].pc)
    ensures !PastCas(o.pc)
  {
    PastCasMeansClosing(cfg, s, u);
  }

  lemma StaysPast(cfg: Config, s: State, l: Label, o: Out, u: Tid)
    requires Does(cfg, s, l, o) && OutCas(s, l, o) && u != l.t
    requires u in Apply(s, l, o).threads && PastCas(Apply(s, l, o).threads[u].pc)
    ensures u in s.threads && Apply(s, l, o).threads[u] == s.threads[u]
  {
  }

  lemma OnePastUnique(cfg: Config, s: State, l: Label, o: Out, t: Tid, u: Tid)
    requires Inv(cfg, s) && Does(cfg, s, l, o) && OutCas(s, l, o) && OnePast(s)
    requires var s' := Apply(s, l, o);
             t in s'.threads && u in s'.threads && PastCas(s'.threads[t].pc) && PastCas(s'.threads[u].pc)
    ensures t == u
  {
    if t != l.t {
      StaysPast(cfg, s, l, o, t);
      NotTwoPast(cfg, s, l, o, t);
    }
    if u != l.t {
      StaysPast(cfg, s, l, o, u);
      NotTwoPast(cfg, s, l, o, u);
    }
  }

  lemma OnePastBefore(cfg: Config, s: State, l: Label, o: Out, t: Tid)
    requires Inv(cfg, s) && Does(cfg, s, l, o) && OutCas(s, l, o) && OnePast(s)
    requires t in Apply(s, l, o).threads && BeforePhase2(Apply(s, l, o).threads[t].pc)
    ensures NoPhase2(s) && !BeginsPhase2(s, l)
  {
    if t != l.t {
      StaysPast(cfg, s, l, o, t);
    }
  }

  lemma OnePastStep(cfg: Config, s: State, l: Label, o: Out)
    requires Inv(cfg, s) && Does(cfg, s, l, o) && OutCas(s, l, o) && OnePast(s)
    ensures OnePast(Apply(s, l, o))
  {
    var s' := Apply(s, l, o);
    forall t, u | t in s'.threads && u in s'.threads && PastCas(s'.threads[t].pc) && PastCas(s'.threads[u].pc)
        ensures t == u {
      OnePastUnique(cfg, s, l, o, t, u);
    }
    if !s'.sh.closing {
      assert !BeginsPhase2(s, l) by {
        if BeginsPhase2(s, l) {
          PastCasMeansClosing(cfg, s, l.t);
        }
      }
      NoPhase2Kept(cfg, s, l, o);
    }
    forall t | t in s'.threads && BeforePhase2(s'.threads[t].pc) ensures NoPhase2(s') {
      OnePastBefore(cfg, s, l, o, t);
      NoPhase2Kept(cfg, s, l, o);
    }
  }

  lemma OnePastRun(cfg: Config, states: seq<State>, labels: seq<Label>, i: nat)
    requires IsRun(cfg, states, labels) && i < |states|
    ensures OnePast(states[i])
  {
    var P := (s: State) => OnePast(s);
    forall s, l, o | Inv(cfg, s) && Does(cfg, s, l, o) && Actual(cfg, s, l, o) && P(s) ensures P(Apply(s, l, o)) {
      CasMoves(cfg, s, l, o);
      OnePastStep(cfg, s, l, o);
    }
    RunKeepsActual(cfg, states, labels, 0, i, P);
  }

  /** Shutdown has begun, and nobody is left to carry it on. */
  ghost predicate Deserted(s: State) {
    s.sh.closing && NoPhase2(s) && forall t :: t in s.threads ==> !PastCas(s.threads[t].pc)
  }

  lemma DesertedStep(cfg: Config, s: State, l: Label, o: Out)
    requires Inv(cfg, s) && Does(cfg, s, l, o) && OutCas(s, l, o) && Deserted(s)
    ensures Deserted(Apply(s, l, o))
  {
    NoPhase2Kept(cfg, s, l, o);
  }

  lemma AbandonStep(cfg: Config, s: State, l: Label, o: Out)
    requires Inv(cfg, s) && Does(cfg, s, l, o) && OutCas(s, l, o) && OnePast(s) && Abandons(s, l)
    ensures Deserted(Apply(s, l, o))
  {
    var s' := Apply(s, l, o);
    PastCasMeansClosing(cfg, s, l.t);
    NoPhase2Kept(cfg, s, l, o);
    forall t | t in s'.threads ensures !PastCas(s'.threads[t].pc) {
      if t != l.t && PastCas(s'.threads[t].pc) {
        StaysPast(cfg, s, l, o, t);
      }
    }
  }

  /** If the context expires before phase two has begun, then in every continuation, whatever is called,
      the published pool is never closed, though later Cleanups return nil. */
  lemma AbandonedForGood(cfg: Config, states: seq<State>, labels: seq<Label>, i: nat, n: nat)
    requires IsRun(cfg, states, labels) && i < |labels| && Abandons(states[i], labels[i]) && i < n < |states|
    ensures var ps := states[n].sh.pools;
            !ps.shut && (ps.history != [] ==> ps.db == Latest(ps.history) && ps.closes[ps.db.value] == 0)
  {
    var P := (s: State) => Deserted(s);
    AbandonHere(cfg, states, labels, i);
    forall s, l, o | Inv(cfg, s) && Does(cfg, s, l, o) && Actual(cfg, s, l, o) && P(s) ensures P(Apply(s, l, o)) {
      CasMoves(cfg, s, l, o);
      DesertedStep(cfg, s, l, o);
    }
    RunKeepsActual(cfg, states, labels, i + 1, n, P);
    RunInv(cfg, states, labels, n);
    if states[n].sh.pools.history != [] {
      DesertedOpen(cfg, states[n]);
    }
  }

  lemma AbandonHere(cfg: Config, states: seq<State>, labels: seq<Label>, i: nat)
    requires IsRun(cfg, states, labels) && i < |labels| && Abandons(states[i], labels[i])
    ensures Deserted(states[i + 1])
  {
    RunInv(cfg, states, labels, i);
    OnePastRun(cfg, states, labels, i);
    assert Step(cfg, states[i], labels[i]) == Some(states[i + 1]);
    var o := StepDoes(cfg, states[i], labels[i]);
    CasMoves(cfg, states[i], labels[i], o);
    AbandonStep(cfg, states[i], labels[i], o);
  }

  lemma DesertedOpen(cfg: Config, s: State)
    requires Inv(cfg, s) && Deserted(s) && s.sh.pools.history != []
    ensures s.sh.pools.db == Latest(s.sh.pools.history) && s.sh.pools.closes[s.sh.pools.db.value] == 0
  {
    assert !HolderPC(s).Shutting? by {
      if s.locks.lifecycleMu.Some? && s.locks.lifecycleMu.value in s.threads {
        assert HomeOk(s.threads[s.locks.lifecycleMu.value]);
      }
    }
    var ps := s.sh.pools;
    assert Places(ps, PhaseOf(HolderPC(s)), ps.db.value) == One(ps.db.value < ps.created);
  }
}
