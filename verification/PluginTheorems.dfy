/**
 What the plugin promises about its pools, over every run of any number of goroutines.
 */
module PluginTheorems {
  import opened Wrappers
  import opened PluginMachine
  import opened PluginLocks
  import opened PluginInvariant
  import opened PluginLocal
  import opened PluginReachable

  // ---------------------------------------------------------------- locks

  /** No two goroutines are ever inside sections the locks keep apart. */
  lemma MutualExclusion(cfg: Config, states: seq<State>, labels: seq<Label>, i: nat, t: Tid, u: Tid)
    requires IsRun(cfg, states, labels) && i < |states| && t != u
    ensures var a, b := ThreadOf(states[i], t).pc, ThreadOf(states[i], u).pc;
            && !(HoldsLifecycle(a) && HoldsLifecycle(b))
            && !(OwnsMu(a) && (OwnsMu(b) || Reads(b)))
  {
    RunInv(cfg, states, labels, i);
    assert t in states[i].threads ==> LockThread(states[i], t);
    assert u in states[i].threads ==> LockThread(states[i], u);
  }

  /** Some goroutine is inside a write section of mu, and not merely waiting for the readers before it. */
  predicate WriteHeld(s: State) {
    s.locks.writer.Some? && OwnsMu(ThreadOf(s, s.locks.writer.value).pc)
  }

  // ---------------------------------------------------------------- conservation

  function AsSet(p: Option<PoolId>): set<PoolId> {
    if p.Some? then {p.value} else {}
  }

  /** The pools that were opened and not closed since. */
  function OpenPools(ps: Pools): set<PoolId> {
    set p: PoolId | 0 <= p < ps.created && ps.closes[p] == 0
  }

  /** The pool the holder of lifecycleMu has in hand. */
  function InHand(s: State): Option<PoolId> {
    Hand(PhaseOf(HolderPC(s)))
  }

  lemma ClosedAtMostOnce(ps: Pools, ph: Phase)
    requires Conserved(ps, ph)
    ensures forall p: PoolId :: ps.closes[p] <= One(p < ps.created)
  {
    forall p: PoolId ensures ps.closes[p] <= One(p < ps.created) {
      assert Places(ps, ph, p) == One(p < ps.created);
    }
  }

  lemma OpenPoolsAre(ps: Pools, ph: Phase)
    requires Conserved(ps, ph) && !ph.ClosedShown?
    ensures OpenPools(ps) == AsSet(ps.db) + AsSet(Hand(ph)) + ps.orphans
    ensures AsSet(ps.db) !! AsSet(Hand(ph)) !! ps.orphans
  {
    forall p: PoolId ensures p in OpenPools(ps) <==> p in AsSet(ps.db) + AsSet(Hand(ph)) + ps.orphans {
      assert Places(ps, ph, p) == One(p < ps.created);
    }
    forall p: PoolId | p in AsSet(ps.db) ensures p !in AsSet(Hand(ph)) + ps.orphans {
      assert Places(ps, ph, p) == One(p < ps.created);
    }
    forall p: PoolId | p in AsSet(Hand(ph)) ensures p !in ps.orphans {
      assert Places(ps, ph, p) == One(p < ps.created);
    }
  }

  /** Outside write sections of mu the open pools are the published one, the one in hand and the
      overwritten ones, each in one role only; and no pool is ever closed twice. */
  lemma PoolsConserved(cfg: Config, states: seq<State>, labels: seq<Label>, i: nat)
    requires IsRun(cfg, states, labels) && i < |states|
    ensures var s := states[i]; var ps := s.sh.pools;
            && (forall p: PoolId :: ps.closes[p] <= One(p < ps.created))
            && (!WriteHeld(s) ==>
                  && OpenPools(ps) == AsSet(ps.db) + AsSet(InHand(s)) + ps.orphans
                  && AsSet(ps.db) !! AsSet(InHand(s)) !! ps.orphans
                  && |OpenPools(ps) - ps.orphans| <= 2)
  {
    RunInv(cfg, states, labels, i);
    var s := states[i];
    var ps, ph := s.sh.pools, PhaseOf(HolderPC(s));
    ClosedAtMostOnce(ps, ph);
    if !WriteHeld(s) {
      NotInWriteSection(cfg, s);
      OpenPoolsAre(ps, ph);
      assert OpenPools(ps) - ps.orphans == AsSet(ps.db) + AsSet(InHand(s));
    }
  }

  lemma NotInWriteSection(cfg: Config, s: State)
    requires Inv(cfg, s) && (!WriteHeld(s) || s.locks.readers != {})
    ensures !OwnsMu(HolderPC(s))
    ensures !PhaseOf(HolderPC(s)).ClosedShown? && !PhaseOf(HolderPC(s)).Emptied?
  {
    if s.locks.lifecycleMu.Some? {
      assert LockThread(s, s.locks.lifecycleMu.value);
    }
  }

  /** A Startup is about to store its pool over another one. */
  predicate StartsOver(s: State, l: Label) {
    var pc := ThreadOf(s, l.t).pc;
    pc.Publishing? && pc.pu.StoreDb? && pc.o.ByStartup? && s.sh.pools.db.Some?
  }

  lemma OrphansStep(cfg: Config, states: seq<State>, labels: seq<Label>, outs: seq<Out>, i: nat)
    requires Explained(cfg, states, labels, outs) && i < |labels|
    ensures states[i + 1].sh.pools.orphans ==
            if StartsOver(states[i], labels[i]) then states[i].sh.pools.orphans + {states[i].sh.pools.db.value}
            else states[i].sh.pools.orphans
  {
    assert StepOk(cfg, states, labels, outs, i);
  }

  lemma {:induction false} OrphansBy(cfg: Config, states: seq<State>, labels: seq<Label>, outs: seq<Out>, n: nat)
    requires Explained(cfg, states, labels, outs) && n < |states|
    ensures states[n].sh.pools.orphans != {} <==> exists i :: 0 <= i < n && StartsOver(states[i], labels[i])
  {
    if n > 0 {
      OrphansBy(cfg, states, labels, outs, n - 1);
      OrphansStep(cfg, states, labels, outs, n - 1);
    }
  }

  /** A pool is ever orphaned exactly when a Startup stores its pool over a non-nil one. */
  lemma OrphansExactly(cfg: Config, states: seq<State>, labels: seq<Label>, n: nat)
    requires IsRun(cfg, states, labels) && n < |states|
    ensures states[n].sh.pools.orphans != {} <==> exists i :: 0 <= i < n && StartsOver(states[i], labels[i])
  {
    var outs := Explain(cfg, states, labels);
    OrphansBy(cfg, states, labels, outs, n);
  }

  /** `db` cannot change between the guards of a Startup and its store, so whether a Startup orphans a
      pool is known when it has passed its guards. */
  lemma StartsOverSeen(cfg: Config, states: seq<State>, labels: seq<Label>, i: nat, t: Tid)
    requires IsRun(cfg, states, labels) && i < |states|
    requires BeforeStore(ThreadOf(states[i], t).pc)
    ensures ThreadOf(states[i], t).pc.o.seen == states[i].sh.pools.db
  {
    RunInv(cfg, states, labels, i);
    ReadyToMove(cfg, states[i], t);
    CandidateSeen(states[i].sh, ThreadOf(states[i], t).pc);
  }

  lemma CandidateSeen(sh: Shared, pc: PC)
    requires BeforeStore(pc) && CandidateOk(sh.pools, PhaseOf(pc))
    ensures pc.o.seen == sh.pools.db
  {
  }

  predicate BeforeStore(pc: PC) {
    pc.Connecting? || (pc.Publishing? && PhaseOf(pc).Candidate?)
  }

  /** Goroutine `t` is on its way from the guards of a Startup to its store. */
  predicate StartsFor(s: State, t: Tid, o: Owner) {
    o.ByStartup? && BeforeStore(ThreadOf(s, t).pc) && ThreadOf(s, t).pc.o == o
  }

  /** Goroutine `l.t` passes the last guard of a Startup. */
  predicate PassesGuards(s: State, l: Label) {
    ThreadOf(s, l.t).pc == Startup(StartAt.CheckCtx) && l.ch != Bad
  }

  lemma StartupPasses(cfg: Config, sh: Shared, at: StartAt, ch: Choice, child: Tid)
    requires NextStartup(cfg, sh, at, ch, child).Some? && BeforeStore(NextStartup(cfg, sh, at, ch, child).value.pc)
    ensures at.CheckCtx? && ch != Bad && NextStartup(cfg, sh, at, ch, child).value.pc.o.seen == sh.pools.db
  {
  }

  lemma ConnectStays(cfg: Config, sh: Shared, o: Owner, at: ConnectAt, ch: Choice)
    requires NextConnect(cfg, sh, o, at, ch).Some? && BeforeStore(NextConnect(cfg, sh, o, at, ch).value.pc)
    ensures NextConnect(cfg, sh, o, at, ch).value.pc.o == o
  {
  }

  lemma PublishStays(sh: Shared, o: Owner, at: PublishAt, ch: Choice)
    requires NextPublish(sh, o, at, ch).Some? && BeforeStore(NextPublish(sh, o, at, ch).value.pc)
    ensures NextPublish(sh, o, at, ch).value.pc.o == o && BeforeStore(Publishing(o, at))
  {
  }

  lemma StartsElsewhere(cfg: Config, s: State, l: Label, o: Out)
    requires Actual(cfg, s, l, o) && BeforeStore(o.pc) && o.pc.o.ByStartup?
    ensures var pc := ThreadOf(s, l.t).pc; pc.Startup? || pc.Connecting? || pc.Publishing?
  {
  }

  lemma StartsMove(cfg: Config, s: State, l: Label, o: Out)
    requires Actual(cfg, s, l, o) && BeforeStore(o.pc) && o.pc.o.ByStartup?
    ensures StartsFor(s, l.t, o.pc.o) || (PassesGuards(s, l) && o.pc.o.seen == s.sh.pools.db)
  {
    var pc := ThreadOf(s, l.t).pc;
    StartsElsewhere(cfg, s, l, o);
    if pc.Startup? {
      StartupPasses(cfg, s.sh, pc.st, l.ch, l.child);
    } else if pc.Connecting? {
      ConnectStays(cfg, s.sh, pc.o, pc.co, l.ch);
    } else {
      PublishStays(s.sh, pc.o, pc.pu, l.ch);
    }
  }

  lemma StartsStep(cfg: Config, states: seq<State>, labels: seq<Label>, i: nat, t: Tid, o: Owner)
    requires IsRun(cfg, states, labels) && i < |labels| && StartsFor(states[i + 1], t, o)
    ensures StartsFor(states[i], t, o) || (labels[i].t == t && PassesGuards(states[i], labels[i]) &&
        o.seen == states[i].sh.pools.db)
  {
    RunInv(cfg, states, labels, i);
    assert Step(cfg, states[i], labels[i]) == Some(states[i + 1]);
    var out := StepDoes(cfg, states[i], labels[i]);
    if labels[i].t == t {
      StartsMove(cfg, states[i], labels[i], out);
    } else {
      assert out.spawn.Some? ==> LockFree(out.spawn.value.pc);
    }
  }

  /** A Startup between its guards and its store passed them at some `k`. */
  lemma {:induction false} GuardsBefore(cfg: Config, states: seq<State>, labels: seq<Label>, i: nat, t: Tid, o: Owner)
      returns (k: nat)
    requires IsRun(cfg, states, labels) && i < |states| && StartsFor(states[i], t, o)
    ensures k < i && labels[k].t == t && PassesGuards(states[k], labels[k]) && o.seen == states[k].sh.pools.db
    ensures forall m :: k < m <= i ==> StartsFor(states[m], t, o)
  {
    assert i > 0;
    StartsStep(cfg, states, labels, i - 1, t, o);
    if StartsFor(states[i - 1], t, o) {
      k := GuardsBefore(cfg, states, labels, i - 1, t, o);
    } else {
      k := i - 1;
    }
  }

  /** The Startup that passed its guards at `k`, when `db` was not nil, stores its pool at `j`. */
  ghost predicate Overwrites(states: seq<State>, labels: seq<Label>, k: nat, j: nat)
    requires |states| == |labels| + 1
  {
    && k < j < |labels| && labels[k].t == labels[j].t
    && PassesGuards(states[k], labels[k]) && states[k].sh.pools.db.Some?
    && var pc := ThreadOf(states[j], labels[j].t).pc;
    && pc.Publishing? && pc.pu.StoreDb?
    && forall m :: k < m <= j ==> StartsFor(states[m], labels[k].t, pc.o)
  }

  lemma OverwritesStartsOver(cfg: Config, states: seq<State>, labels: seq<Label>, k: nat, j: nat)
    requires IsRun(cfg, states, labels) && Overwrites(states, labels, k, j)
    ensures StartsOver(states[j], labels[j])
  {
    var t, o := labels[j].t, ThreadOf(states[j], labels[j].t).pc.o;
    assert StartsFor(states[k + 1], t, o);
    StartsStep(cfg, states, labels, k, t, o);
    StartsOverSeen(cfg, states, labels, j, t);
  }

  lemma StartsOverOverwrites(cfg: Config, states: seq<State>, labels: seq<Label>, j: nat) returns (k: nat)
    requires IsRun(cfg, states, labels) && j < |labels| && StartsOver(states[j], labels[j])
    ensures Overwrites(states, labels, k, j)
  {
    var t, o := labels[j].t, ThreadOf(states[j], labels[j].t).pc.o;
    k := GuardsBefore(cfg, states, labels, j, t, o);
    StartsOverSeen(cfg, states, labels, j, t);
  }

  lemma OpenPoolsQuiet(cfg: Config, s: State)
    requires Inv(cfg, s) && s.locks.lifecycleMu.None?
    ensures OpenPools(s.sh.pools) == AsSet(s.sh.pools.db) + s.sh.pools.orphans
    ensures AsSet(s.sh.pools.db) !! s.sh.pools.orphans
  {
    OpenPoolsAre(s.sh.pools, PhaseOf(HolderPC(s)));
  }

  /** Between lifecycle operations a pool is open that is not the published one if and only if some
      Startup passed its guards while `db` was not nil and went on to store its pool. Its guards look at
      `connected`, which was false. */
  lemma LeaksExactly(cfg: Config, states: seq<State>, labels: seq<Label>, n: nat)
    requires IsRun(cfg, states, labels) && n < |states| && states[n].locks.lifecycleMu.None?
    ensures OpenPools(states[n].sh.pools) != AsSet(states[n].sh.pools.db) <==>
            exists k: nat, j: nat :: j < n && Overwrites(states, labels, k, j)
  {
    RunInv(cfg, states, labels, n);
    OpenPoolsQuiet(cfg, states[n]);
    OrphansExactly(cfg, states, labels, n);
    var ps := states[n].sh.pools;
    assert OpenPools(ps) - AsSet(ps.db) == ps.orphans;
    if ps.orphans != {} {
      var j :| 0 <= j < n && StartsOver(states[j], labels[j]);
      var k := StartsOverOverwrites(cfg, states, labels, j);
      assert Overwrites(states, labels, k, j);
    }
    if k: nat, j: nat :| j < n && Overwrites(states, labels, k, j) {
      OverwritesStartsOver(cfg, states, labels, k, j);
    }
  }

  /** `connected` is false when a Startup passes its guards. */
  lemma GuardsSeeDisconnected(cfg: Config, states: seq<State>, labels: seq<Label>, i: nat)
    requires IsRun(cfg, states, labels) && i < |labels| && PassesGuards(states[i], labels[i])
    ensures !states[i].sh.pools.connected
  {
    RunInv(cfg, states, labels, i);
    ReadyToMove(cfg, states[i], labels[i].t);
  }

  /** An overwritten pool is never closed and never published again. */
  lemma OrphanStaysOpen(cfg: Config, states: seq<State>, labels: seq<Label>, i: nat, j: nat, p: PoolId)
    requires IsRun(cfg, states, labels) && i <= j < |states| && p in states[i].sh.pools.orphans
    ensures p in states[j].sh.pools.orphans && p < states[j].sh.pools.created
    ensures states[j].sh.pools.closes[p] == 0 && states[j].sh.pools.db != Some(p)
  {
    var outs := Explain(cfg, states, labels);
    RunKeeps(cfg, states, labels, outs, i, j, (s: State) => p in s.sh.pools.orphans);
    RunInv(cfg, states, labels, j);
    OrphanIsOpen(states[j].sh.pools, PhaseOf(HolderPC(states[j])), p);
  }

  lemma OrphanIsOpen(ps: Pools, ph: Phase, p: PoolId)
    requires Conserved(ps, ph) && DbOk(ps, ph) && p in ps.orphans
    ensures p < ps.created && ps.closes[p] == 0 && ps.db != Some(p)
  {
    assert Places(ps, ph, p) == One(p < ps.created);
    assert p in ButLast(ps.history);
  }

  // ---------------------------------------------------------------- the published pool

  /** The published pool has passed ping and verify query and was not closed by the plugin; `connected`
      promises one; and once a pool has been published there is one until Cleanup's close phase. */
  lemma PublishedPoolIsGood(cfg: Config, states: seq<State>, labels: seq<Label>, i: nat)
    requires IsRun(cfg, states, labels) && i < |states|
    ensures var s := states[i]; var ps := s.sh.pools;
            && (ps.db.Some? ==> ps.db.value in ps.verified && ps.db == Latest(ps.history))
            && (ps.db.None? <==> ps.history == [] || ps.shut)
            && (ps.shut ==> s.sh.closing)
            && (!WriteHeld(s) ==>
                  && (ps.connected ==> ps.db.Some?)
                  && (ps.db.Some? ==> ps.closes[ps.db.value] == 0))
  {
    RunInv(cfg, states, labels, i);
    var s := states[i];
    var ps, ph := s.sh.pools, PhaseOf(HolderPC(s));
    if !WriteHeld(s) {
      NotInWriteSection(cfg, s);
      if ps.db.Some? {
        assert Places(ps, ph, ps.db.value) == One(ps.db.value < ps.created);
      }
    }
  }

  predicate Sampling(s: State, t: Tid) {
    t in s.threads && s.threads[t].pc == Stats(Sample)
  }

  /** Nobody can empty `db` under a sampler: the close phase waits for readers. */
  lemma SamplerBlocksNil(s: State, t: Tid, u: Tid)
    requires LockInv(s) && Sampling(s, t)
    ensures ThreadOf(s, u).pc != Shutting(NilDb)
  {
    assert LockThread(s, t);
    assert u in s.threads ==> LockThread(s, u);
  }

  lemma SamplingKept(s: State, l: Label, o: Out, t: Tid)
    requires LockInv(s) && Sampling(s, t) && s.sh.pools.db.Some? && Touches(s.sh, ThreadOf(s, l.t).pc, o)
    requires OutPools(s.sh, ThreadOf(s, l.t).pc, o)
    ensures o.sh.pools.db.Some?
  {
    SamplerBlocksNil(s, t, l.t);
    if Stores(ThreadOf(s, l.t).pc) {
      StoredIsSome(s.sh, ThreadOf(s, l.t).pc, o);
    }
  }

  lemma StoredIsSome(sh: Shared, pc: PC, o: Out)
    requires Stores(pc) && OutPools(sh, pc, o) && sh.pools.db.Some?
    ensures o.sh.pools.db.Some?
  {
  }

  lemma SamplingStep(cfg: Config, s: State, l: Label, o: Out, t: Tid)
    requires Inv(cfg, s) && Does(cfg, s, l, o) && Sampling(Apply(s, l, o), t)
    requires Sampling(s, t) ==> s.sh.pools.db.Some?
    ensures o.sh.pools.db.Some?
  {
    if l.t != t {
      assert o.spawn.Some? ==> LockFree(o.spawn.value.pc);
      SamplingKept(s, l, o, t);
    }
  }

  lemma {:induction false} SamplingHasPool(cfg: Config, states: seq<State>, labels: seq<Label>, outs: seq<Out>,
          i: nat, t: Tid)
    requires Explained(cfg, states, labels, outs) && i < |states|
    ensures Sampling(states[i], t) ==> states[i].sh.pools.db.Some?
  {
    if i > 0 && Sampling(states[i], t) {
      SamplingHasPool(cfg, states, labels, outs, i - 1, t);
      SamplingMove(cfg, states, labels, outs, i - 1, t);
    }
  }

  lemma SamplingMove(cfg: Config, states: seq<State>, labels: seq<Label>, outs: seq<Out>, i: nat, t: Tid)
    requires Explained(cfg, states, labels, outs) && i < |labels|
    requires Sampling(states[i], t) ==> states[i].sh.pools.db.Some?
    ensures Sampling(states[i + 1], t) ==> states[i + 1].sh.pools.db.Some?
  {
    assert StepOk(cfg, states, labels, outs, i);
    if Sampling(states[i + 1], t) {
      SamplingStep(cfg, states[i], labels[i], outs[i], t);
    }
  }

  /** GetStats never samples a pool the plugin has closed. */
  lemma StatsSampleOpenPool(cfg: Config, states: seq<State>, labels: seq<Label>, i: nat, t: Tid)
    requires IsRun(cfg, states, labels) && i < |states| && Sampling(states[i], t)
    ensures states[i].sh.pools.db.Some? && states[i].sh.pools.closes[states[i].sh.pools.db.value] == 0
  {
    var outs := Explain(cfg, states, labels);
    SamplingHasPool(cfg, states, labels, outs, i, t);
    RunInv(cfg, states, labels, i);
    var s := states[i];
    assert t in s.locks.readers;
    NotInWriteSection(cfg, s);
    var p := s.sh.pools.db.value;
    assert Places(s.sh.pools, PhaseOf(HolderPC(s)), p) == One(p < s.sh.pools.created);
  }

  /** History only grows, and once the close phase has run it stays run. */
  lemma HistoryGrows(cfg: Config, states: seq<State>, labels: seq<Label>, i: nat, j: nat)
    requires IsRun(cfg, states, labels) && i <= j < |states|
    ensures states[i].sh.pools.history <= states[j].sh.pools.history
    ensures states[i].sh.pools.shut ==> states[j].sh.pools.shut
  {
    var outs := Explain(cfg, states, labels);
    var h, shut := states[i].sh.pools.history, states[i].sh.pools.shut;
    var P := (s: State) => h <= s.sh.pools.history && (shut ==> s.sh.pools.shut);
    forall s, l, o | Inv(cfg, s) && Does(cfg, s, l, o) && P(s) ensures P(Apply(s, l, o)) {
      ShutStays(s.sh, ThreadOf(s, l.t).pc, o);
    }
    RunKeeps(cfg, states, labels, outs, i, j, P);
  }

  lemma ShutStays(sh: Shared, pc: PC, o: Out)
    requires OutPools(sh, pc, o)
    ensures sh.pools.shut ==> o.sh.pools.shut
  {
  }

  /** Successive samples are of pools in the order of their opening: the generations the monitors see
      never go back. */
  lemma SamplesNeverGoBack(cfg: Config, states: seq<State>, labels: seq<Label>, i: nat, j: nat, t: Tid, u: Tid)
    requires IsRun(cfg, states, labels) && i <= j < |states| && Sampling(states[i], t) && Sampling(states[j], u)
    ensures var a, b := states[i].sh.pools.db, states[j].sh.pools.db;
            a.Some? && b.Some? && a.value <= b.value
  {
    StatsSampleOpenPool(cfg, states, labels, i, t);
    StatsSampleOpenPool(cfg, states, labels, j, u);
    HistoryGrows(cfg, states, labels, i, j);
    PublishedPoolIsGood(cfg, states, labels, i);
    PublishedPoolIsGood(cfg, states, labels, j);
    HistoryIncreases(cfg, states, labels, j, |states[i].sh.pools.history| - 1, |states[j].sh.pools.history| - 1);
  }

  /** Pools are published in the order of their opening, each at most once. */
  lemma HistoryIncreases(cfg: Config, states: seq<State>, labels: seq<Label>, i: nat, m: nat, n: nat)
    requires IsRun(cfg, states, labels) && i < |states| && m <= n < |states[i].sh.pools.history|
    ensures states[i].sh.pools.history[m] <= states[i].sh.pools.history[n]
    ensures m < n ==> states[i].sh.pools.history[m] < states[i].sh.pools.history[n]
  {
    RunInv(cfg, states, labels, i);
  }
}
