/**
 Reconnect: what a failed one leaves behind, what a successful one closes, and what the recorder and
 the runtime are told.
 */
module PluginReconnect {
  import opened Wrappers
  import opened PluginMachine
  import opened PluginLocks
  import opened PluginInvariant
  import opened PluginLocal
  import opened PluginReachable

  // ---------------------------------------------------------------- the snapshot

  /** Goroutine `t` is connecting for a Reconnect with owner record `o`. */
  predicate ConnectsFor(s: State, t: Tid, o: Owner) {
    o.ByReconnect? && ThreadOf(s, t).pc.Connecting? && ThreadOf(s, t).pc.o == o
  }

  /** Goroutine `t` is about to take the snapshot that `o` records. */
  predicate TakesSnapshot(s: State, t: Tid, o: Owner) {
    o.ByReconnect? && ThreadOf(s, t).pc == Reconnect(o.k, Snapshot) && o.seen == s.sh.pools.db &&
        o.base == s.sh.pools.created
  }

  lemma ConnectsStep(cfg: Config, states: seq<State>, labels: seq<Label>, i: nat, t: Tid, o: Owner)
    requires IsRun(cfg, states, labels) && i < |labels| && ConnectsFor(states[i + 1], t, o)
    ensures ConnectsFor(states[i], t, o) || TakesSnapshot(states[i], t, o)
  {
    assert Step(cfg, states[i], labels[i]) == Some(states[i + 1]);
    var outs := Explain(cfg, states, labels);
    assert StepOk(cfg, states, labels, outs, i);
    if labels[i].t == t {
      ConnectsAction(cfg, states[i], labels[i], outs[i], o);
    } else {
      assert outs[i].spawn.Some? ==> LockFree(outs[i].spawn.value.pc);
    }
  }

  lemma ConnectsAction(cfg: Config, s: State, l: Label, out: Out, o: Owner)
    requires Actual(cfg, s, l, out) && out.pc.Connecting? && out.pc.o == o && o.ByReconnect?
    ensures ConnectsFor(s, l.t, o) || TakesSnapshot(s, l.t, o)
  {
  }

  /** The attempt under way at `i` began with a snapshot at some `k`, and has lasted since. */
  lemma {:induction false} SnapshotBefore(cfg: Config, states: seq<State>, labels: seq<Label>, i: nat, t: Tid, o: Owner)
      returns (k: nat)
    requires IsRun(cfg, states, labels) && i < |states| && ConnectsFor(states[i], t, o)
    ensures k < i && TakesSnapshot(states[k], t, o)
    ensures forall j :: k < j <= i ==> ConnectsFor(states[j], t, o)
  {
    assert i > 0;
    ConnectsStep(cfg, states, labels, i - 1, t, o);
    if ConnectsFor(states[i - 1], t, o) {
      k := SnapshotBefore(cfg, states, labels, i - 1, t, o);
    } else {
      k := i - 1;
    }
  }

  /** While a Reconnect connects, the pool it found stays published and open, and `connected` stays false. */
  ghost predicate Undisturbed(s: State, o: Owner) {
    && s.sh.pools.db == o.seen
    && (o.seen.Some? ==> s.sh.pools.closes[o.seen.value] == 0)
    && !s.sh.pools.connected
  }

  lemma ConnectingUndisturbed(cfg: Config, s: State, t: Tid, o: Owner)
    requires Inv(cfg, s) && ConnectsFor(s, t, o)
    ensures Undisturbed(s, o)
    ensures Hand(PhaseOf(ThreadOf(s, t).pc)).None? ==>
              forall p: PoolId :: o.base <= p < s.sh.pools.created ==> s.sh.pools.closes[p] == 1
  {
    ReadyToMove(cfg, s, t);
    var ps, ph := s.sh.pools, PhaseOf(HolderPC(s));
    if o.seen.Some? {
      assert Places(ps, ph, o.seen.value) == One(o.seen.value < ps.created);
    }
    forall p: PoolId | Hand(ph).None? && o.base <= p < ps.created ensures ps.closes[p] == 1 {
      assert Places(ps, ph, p) == One(p < ps.created);
      assert p !in ps.history;
    }
  }

  /** A Reconnect that returns an error, whatever its connects went through: since its snapshot the
      published pool has been the same open one and `connected` false, and every pool opened since is
      closed. */
  lemma FailedReconnect(cfg: Config, states: seq<State>, labels: seq<Label>, i: nat, t: Tid) returns (k: nat)
    requires IsRun(cfg, states, labels) && i < |states|
    requires ThreadOf(states[i], t).pc.Connecting? && ThreadOf(states[i], t).pc.co == GaveUp
    requires ThreadOf(states[i], t).pc.o.ByReconnect?
    ensures k < i && ThreadOf(states[k], t).pc == Reconnect(ThreadOf(states[i], t).pc.o.k, Snapshot)
    ensures forall j :: k < j <= i ==>
                          && states[j].sh.pools.db == states[k].sh.pools.db
                          && (states[k].sh.pools.db.Some? ==>
                              states[j].sh.pools.closes[states[k].sh.pools.db.value] == 0)
                          && !states[j].sh.pools.connected
    ensures forall p: PoolId :: states[k].sh.pools.created <= p < states[i].sh.pools.created ==>
        states[i].sh.pools.closes[p] == 1
  {
    var o := ThreadOf(states[i], t).pc.o;
    k := SnapshotBefore(cfg, states, labels, i, t, o);
    forall j | k < j <= i ensures Undisturbed(states[j], o) {
      RunInv(cfg, states, labels, j);
      ConnectingUndisturbed(cfg, states[j], t, o);
    }
    RunInv(cfg, states, labels, i);
    ConnectingUndisturbed(cfg, states[i], t, o);
  }

  // ---------------------------------------------------------------- the replaced pool

  /** A Reconnect closes a pool only once, only the predecessor of the published pool, and only after
      its replacement has become visible. */
  lemma ClosesItsPredecessor(cfg: Config, states: seq<State>, labels: seq<Label>, i: nat, t: Tid)
    requires IsRun(cfg, states, labels) && i < |states|
    requires ThreadOf(states[i], t).pc.Publishing? && ThreadOf(states[i], t).pc.pu == CloseOld
    ensures var ps := states[i].sh.pools; var prior := ThreadOf(states[i], t).pc.o.seen;
            && |ps.history| >= 2
            && prior == Some(ps.history[|ps.history| - 2])
            && ps.db == Some(ps.history[|ps.history| - 1]) && ps.db != prior
            && ps.closes[prior.value] == 0
  {
    RunInv(cfg, states, labels, i);
    ReadyToMove(cfg, states[i], t);
    var ps, ph := states[i].sh.pools, PhaseOf(HolderPC(states[i]));
    var prior := ThreadOf(states[i], t).pc.o.seen;
    assert Places(ps, ph, prior.value) == One(prior.value < ps.created);
  }

  /** Between Reconnects every pool published before the last one was closed by a Reconnect or overwritten
      by a Startup: exactly one of the two, exactly once. */
  lemma ReplacedOrOverwritten(cfg: Config, states: seq<State>, labels: seq<Label>, i: nat)
    requires IsRun(cfg, states, labels) && i < |states| && !PhaseOf(HolderPC(states[i])).Replacing?
    ensures var ps := states[i].sh.pools;
            multiset(ps.replaced) + multiset(ps.orphans) == multiset(ButLast(ps.history))
  {
    RunInv(cfg, states, labels, i);
    var ps := states[i].sh.pools;
    assert Replaced(ps, PhaseOf(HolderPC(states[i]))) == ps.replaced;
  }

  /** Without overwriting Startups, and between Reconnects, the pools Reconnect has closed are the
      publication history without its last element, in order. */
  lemma ReplacedAreThePast(cfg: Config, states: seq<State>, labels: seq<Label>, i: nat)
    requires IsRun(cfg, states, labels) && i < |states|
    requires states[i].sh.pools.orphans == {} && !PhaseOf(HolderPC(states[i])).Replacing?
    ensures states[i].sh.pools.replaced == ButLast(states[i].sh.pools.history)
  {
    RunInv(cfg, states, labels, i);
  }

  // ---------------------------------------------------------------- recorder and runtime

  /** Every counted attempt is a success, a failure, a cancelled retry loop or the one in flight; and
      every success is a published pool, one a cancelled Startup threw away, or the one in hand. */
  lemma MetricsConserved(cfg: Config, states: seq<State>, labels: seq<Label>, i: nat)
    requires IsRun(cfg, states, labels) && i < |states|
    ensures var s := states[i]; var m := s.sh.metrics;
            && m.attempts == m.successes + m.failures + m.cancellations + One(InFlight(HolderPC(s)))
            && m.successes == |s.sh.pools.history| + m.discards + One(HasSuccess(HolderPC(s)))
  {
    RunInv(cfg, states, labels, i);
  }

  /** Between lifecycle operations the runtime's private pool is the published one, as long as the
      runtime accepts registrations. It is not withdrawn on shutdown: what remains registered then has
      been closed. */
  lemma AnnouncedIsPublished(cfg: Config, states: seq<State>, labels: seq<Label>, i: nat)
    requires IsRun(cfg, states, labels) && i < |states|
    requires cfg.hasRuntime && !states[i].sh.runtime.refused && states[i].locks.lifecycleMu.None?
    ensures var ps := states[i].sh.pools; var registered := states[i].sh.runtime.registered;
            && (!ps.shut ==> registered == ps.db)
            && (ps.shut && ps.history != [] ==> registered.Some? && ps.closes[registered.value] == 1)
  {
    RunInv(cfg, states, labels, i);
    var ps, ph := states[i].sh.pools, PhaseOf(HolderPC(states[i]));
    if ps.shut && ps.history != [] {
      var p := ps.history[|ps.history| - 1];
      assert p in ps.history && p !in ButLast(ps.history);
      assert Places(ps, ph, p) == One(p < ps.created);
    }
  }
}
