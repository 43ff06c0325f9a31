/**
 Pools that are given up: one that does not answer its ping or its verify query, and one that is connected
 when the caller of the Startup has gone. Such a pool is closed, once, and never published.
 */
module PluginGivenUp {
  import opened Wrappers
  import opened PluginMachine
  import opened PluginLocks
  import opened PluginInvariant
  import opened PluginReachable

  /** About to close pool `p`. */
  predicate Drops(pc: PC, p: PoolId) {
    || (pc.Publishing? && pc.pu == Discard(p))
    || (pc.Connecting? && pc.co.Drop? && pc.co.p == p)
  }

  predicate Discards(s: State, t: Tid, p: PoolId) {
    t in s.threads && Drops(s.threads[t].pc, p) && s.sh.pools.closes[p] == 0
  }

  predicate Gone(ps: Pools, p: PoolId) {
    ps.closes[p] == 1
  }

  predicate GivenUp(s: State, t: Tid, p: PoolId) {
    p < s.sh.pools.created && p !in s.sh.pools.history && (Discards(s, t, p) || Gone(s.sh.pools, p))
  }

  lemma QuietMove(ps: Pools, a: Phase, ps': Pools, b: Phase, closing: bool)
    requires PoolMove(closing, ps, a, ps', b) && a.Quiet?
    ensures ps'.created == ps.created && ps'.history == ps.history && ps'.closes == ps.closes
  {
  }

  /** Closed, and not to be touched again. */
  predicate Done(ps: Pools, p: PoolId) {
    Gone(ps, p) && p < ps.created && p !in ps.history
  }

  lemma NowhereElse(ps: Pools, a: Phase, p: PoolId)
    requires Conserved(ps, a) && Done(ps, p)
    ensures Hand(a) != Some(p) && Shown(ps, a) != Some(p)
  {
    assert Places(ps, a, p) == One(p < ps.created);
  }

  lemma DoneMove(ps: Pools, a: Phase, ps': Pools, b: Phase, closing: bool, p: PoolId)
    requires PoolMove(closing, ps, a, ps', b) && Done(ps, p) && Hand(a) != Some(p) && Shown(ps, a) != Some(p)
    ensures Done(ps', p)
  {
    if ConnectMove(ps, a, ps', b) {
      DoneConnect(ps, a, ps', b, p);
    } else if StoreMove(ps, a, ps', b) {
    } else if SettleMove(ps, a, ps', b) {
    } else if ShutMove(ps, a, ps', b) {
    }
  }

  lemma DoneConnect(ps: Pools, a: Phase, ps': Pools, b: Phase, p: PoolId)
    requires ConnectMove(ps, a, ps', b) && Done(ps, p) && Hand(a) != Some(p)
    ensures Done(ps', p)
  {
  }

  /** Who has a pool in hand holds lifecycleMu, and the pool is not closed. */
  lemma InHandIsOpen(cfg: Config, s: State, t: Tid)
    requires Inv(cfg, s) && Hand(PhaseOf(ThreadOf(s, t).pc)).Some?
    ensures HolderPC(s) == ThreadOf(s, t).pc && s.sh.pools.closes[Hand(PhaseOf(ThreadOf(s, t).pc)).value] == 0
  {
    var ph := PhaseOf(ThreadOf(s, t).pc);
    ReadyToMove(cfg, s, t);
    assert Places(s.sh.pools, ph, Hand(ph).value) == One(Hand(ph).value < s.sh.pools.created);
  }

  lemma GoneKept(cfg: Config, s: State, l: Label, o: Out, p: PoolId)
    requires Inv(cfg, s) && Does(cfg, s, l, o) && Done(s.sh.pools, p)
    ensures Done(o.sh.pools, p)
  {
    var pc := ThreadOf(s, l.t).pc;
    if HoldsLifecycle(pc) {
      ReadyToMove(cfg, s, l.t);
      NowhereElse(s.sh.pools, PhaseOf(pc), p);
      DoneMove(s.sh.pools, PhaseOf(pc), o.sh.pools, PhaseOf(o.pc), s.sh.closing, p);
    } else {
      OutsiderQuiet(pc);
      QuietMove(s.sh.pools, PhaseOf(pc), o.sh.pools, PhaseOf(o.pc), s.sh.closing);
    }
  }

  lemma DiscardAction(cfg: Config, s: State, l: Label, o: Out, p: PoolId)
    requires Actual(cfg, s, l, o) && Drops(ThreadOf(s, l.t).pc, p)
    ensures o.sh.pools == s.sh.pools.(closes := s.sh.pools.closes + multiset{p})
  {
    var pc := ThreadOf(s, l.t).pc;
    if pc.Publishing? {
      DiscardCloses(s.sh, pc.o, p, l.ch);
    } else {
      DropCloses(cfg, s.sh, pc.o, pc.co, l.ch);
    }
  }

  lemma DiscardCloses(sh: Shared, ow: Owner, p: PoolId, ch: Choice)
    ensures NextPublish(sh, ow, Discard(p), ch).value.sh.pools == Closed(sh, p).pools
  {
  }

  lemma DropCloses(cfg: Config, sh: Shared, ow: Owner, at: ConnectAt, ch: Choice)
    requires at.Drop?
    ensures NextConnect(cfg, sh, ow, at, ch).value.sh.pools == Closed(sh, at.p).pools
  {
  }

  lemma StaysInHand(cfg: Config, s: State, l: Label, o: Out, t: Tid, p: PoolId)
    requires Inv(cfg, s) && Does(cfg, s, l, o) && Discards(s, t, p) && l.t != t
    requires p < s.sh.pools.created && p !in s.sh.pools.history
    ensures GivenUp(Apply(s, l, o), t, p)
  {
    var pc := ThreadOf(s, l.t).pc;
    NotTheHolder(s, l.t, t);
    OutsiderQuiet(pc);
    QuietMove(s.sh.pools, PhaseOf(pc), o.sh.pools, PhaseOf(o.pc), s.sh.closing);
  }

  lemma NotTheHolder(s: State, u: Tid, t: Tid)
    requires LockInv(s) && t in s.threads && (s.threads[t].pc.Publishing? || s.threads[t].pc.Connecting?) && u != t
    ensures !HoldsLifecycle(ThreadOf(s, u).pc)
  {
    assert LockThread(s, t);
    assert u in s.threads ==> LockThread(s, u);
  }

  lemma GivenUpKept(cfg: Config, s: State, l: Label, o: Out, t: Tid, p: PoolId)
    requires Inv(cfg, s) && Does(cfg, s, l, o) && Actual(cfg, s, l, o) && GivenUp(s, t, p)
    ensures GivenUp(Apply(s, l, o), t, p)
  {
    if Gone(s.sh.pools, p) {
      GoneKept(cfg, s, l, o, p);
    } else if l.t == t {
      DiscardAction(cfg, s, l, o, p);
    } else {
      StaysInHand(cfg, s, l, o, t, p);
    }
  }

  /** Goroutine `l.t` finds that pool `p`, just opened, does not answer its ping or its verify query; or it
      is a Startup that has connected, and finds its caller's context done. */
  predicate GivesUp(s: State, l: Label, p: PoolId) {
    var pc := ThreadOf(s, l.t).pc;
    && l.ch == Bad
    && (|| (pc.Connecting? && (pc.co.Ping? || pc.co.Verify?) && pc.co.p == p)
        || (pc.Publishing? && pc.pu == CheckStale(p)))
  }

  lemma GivesUpAction(cfg: Config, s: State, l: Label, o: Out, p: PoolId)
    requires Actual(cfg, s, l, o) && GivesUp(s, l, p)
    ensures o.sh == s.sh && Drops(o.pc, p) && o.spawn.None?
  {
    var pc := ThreadOf(s, l.t).pc;
    if pc.Publishing? {
      StaleGivesUp(s.sh, pc.o, p);
    } else {
      ConnectGivesUp(cfg, s.sh, pc.o, pc.co, p);
    }
  }

  lemma StaleGivesUp(sh: Shared, ow: Owner, p: PoolId)
    ensures NextPublish(sh, ow, CheckStale(p), Bad) == Some(Out(sh, Publishing(ow, Discard(p)), NoLock, None))
  {
  }

  lemma ConnectGivesUp(cfg: Config, sh: Shared, ow: Owner, at: ConnectAt, p: PoolId)
    requires (at.Ping? || at.Verify?) && at.p == p
    ensures NextConnect(cfg, sh, ow, at, Bad) == Some(Out(sh, Connecting(ow, ConnectAt.Drop(at.n, p)), NoLock, None))
  {
  }

  lemma GivesUpNow(cfg: Config, s: State, l: Label, o: Out, p: PoolId)
    requires Inv(cfg, s) && Does(cfg, s, l, o) && Actual(cfg, s, l, o) && GivesUp(s, l, p)
    ensures GivenUp(Apply(s, l, o), l.t, p)
  {
    GivesUpAction(cfg, s, l, o, p);
    GivesUpHand(s, l, p);
    InHandIsOpen(cfg, s, l.t);
    InHandIsNew(cfg, s, l.t, p);
  }

  lemma GivesUpHand(s: State, l: Label, p: PoolId)
    requires GivesUp(s, l, p)
    ensures var ph := PhaseOf(ThreadOf(s, l.t).pc); ph.Candidate? && Hand(ph) == Some(p)
  {
  }

  lemma InHandIsNew(cfg: Config, s: State, t: Tid, p: PoolId)
    requires Inv(cfg, s) && PhaseOf(ThreadOf(s, t).pc).Candidate? && Hand(PhaseOf(ThreadOf(s, t).pc)) == Some(p)
    ensures p < s.sh.pools.created && p !in s.sh.pools.history
  {
    ReadyToMove(cfg, s, t);
    var ph := PhaseOf(ThreadOf(s, t).pc);
    assert Places(s.sh.pools, ph, p) == One(p < s.sh.pools.created);
  }

  lemma GivesUpAt(cfg: Config, states: seq<State>, labels: seq<Label>, i: nat, p: PoolId)
    requires IsRun(cfg, states, labels) && i < |labels| && GivesUp(states[i], labels[i], p)
    ensures GivenUp(states[i + 1], labels[i].t, p)
  {
    RunInv(cfg, states, labels, i);
    assert Step(cfg, states[i], labels[i]) == Some(states[i + 1]);
    var first := StepDoes(cfg, states[i], labels[i]);
    GivesUpNow(cfg, states[i], labels[i], first, p);
  }

  /** From then on the pool is never published: it is open only until that goroutine, whose next action that
      is, has closed it, and it is closed exactly once. */
  lemma GivenUpIsNeverPublished(cfg: Config, states: seq<State>, labels: seq<Label>, i: nat, j: nat, p: PoolId)
    requires IsRun(cfg, states, labels) && i < |labels| && i < j < |states| && GivesUp(states[i], labels[i], p)
    ensures p !in states[j].sh.pools.history
    ensures || states[j].sh.pools.closes[p] == 1
            || (states[j].sh.pools.closes[p] == 0 && Drops(ThreadOf(states[j], labels[i].t).pc, p))
  {
    var t := labels[i].t;
    GivesUpAt(cfg, states, labels, i, p);
    var P := (s: State) => GivenUp(s, t, p);
    forall s, l, out | Inv(cfg, s) && Does(cfg, s, l, out) && Actual(cfg, s, l, out) && P(s)
      ensures P(Apply(s, l, out)) {
      GivenUpKept(cfg, s, l, out, t, p);
    }
    RunKeepsActual(cfg, states, labels, i + 1, j, P);
  }
}
