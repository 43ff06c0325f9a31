/**
 Shutdown: one winner among any number of Cleanup callers, at most one pool published after it has
 begun, and nothing left once it has returned.
 */
module PluginShutdown {
  import opened Wrappers
  import opened PluginMachine
  import opened PluginLocks
  import opened PluginInvariant
  import opened PluginReachable

  // ---------------------------------------------------------------- one winner

  /** The Cleanup call that finds `closing` false and sets it. */
  predicate Wins(s: State, l: Label) {
    ThreadOf(s, l.t).pc == Cleanup(Cas) && !s.sh.closing
  }

  lemma ClosingStays(cfg: Config, states: seq<State>, labels: seq<Label>, outs: seq<Out>, i: nat, j: nat)
    requires Explained(cfg, states, labels, outs) && i <= j < |states| && states[i].sh.closing
    ensures states[j].sh.closing
  {
    RunKeeps(cfg, states, labels, outs, i, j, (s: State) => s.sh.closing);
  }

  lemma ClosingStep(cfg: Config, states: seq<State>, labels: seq<Label>, outs: seq<Out>, i: nat)
    requires Explained(cfg, states, labels, outs) && i < |labels|
    ensures states[i + 1].sh.closing && !states[i].sh.closing ==> Wins(states[i], labels[i])
  {
    assert StepOk(cfg, states, labels, outs, i);
  }

  lemma WinStep(cfg: Config, states: seq<State>, labels: seq<Label>, i: nat)
    requires IsRun(cfg, states, labels) && i < |labels| && Wins(states[i], labels[i])
    ensures states[i + 1].sh.closing
  {
    assert Step(cfg, states[i], labels[i]) == Some(states[i + 1]);
  }

  lemma {:induction false} SomebodyWon(cfg: Config, states: seq<State>, labels: seq<Label>, outs: seq<Out>, n: nat)
    requires Explained(cfg, states, labels, outs) && n < |states| && states[n].sh.closing
    ensures exists i :: 0 <= i < n && Wins(states[i], labels[i])
  {
    assert n > 0;
    ClosingStep(cfg, states, labels, outs, n - 1);
    if states[n - 1].sh.closing {
      SomebodyWon(cfg, states, labels, outs, n - 1);
    }
  }

  /** Among all Cleanup calls of a run, in any interleaving, at most one wins; and once any of them has
      passed its compare-and-swap, exactly one has won. */
  lemma OneWinner(cfg: Config, states: seq<State>, labels: seq<Label>)
    requires IsRun(cfg, states, labels)
    ensures forall i, j :: 0 <= i < j < |labels| && Wins(states[i], labels[i]) ==> !Wins(states[j], labels[j])
    ensures forall n :: 0 <= n < |labels| && ThreadOf(states[n], labels[n].t).pc == Cleanup(Cas) ==>
                          exists i :: 0 <= i <= n && Wins(states[i], labels[i])
  {
    var outs := Explain(cfg, states, labels);
    forall i, j | 0 <= i < j < |labels| && Wins(states[i], labels[i]) ensures !Wins(states[j], labels[j]) {
      WinStep(cfg, states, labels, i);
      ClosingStays(cfg, states, labels, outs, i + 1, j);
    }
    forall n | 0 <= n < |labels| && ThreadOf(states[n], labels[n].t).pc == Cleanup(Cas)
      ensures exists i :: 0 <= i <= n && Wins(states[i], labels[i])
    {
      if states[n].sh.closing {
        SomebodyWon(cfg, states, labels, outs, n);
      } else {
        assert Wins(states[n], labels[n]);
      }
    }
  }

  // ---------------------------------------------------------------- late publication

  /** Pools published so far, plus one for an operation that may still publish. */
  function Published(s: State): nat {
    |s.sh.pools.history| + One(Licensed(PhaseOf(HolderPC(s))))
  }

  lemma NoNewLicence(sh: Shared, pc: PC, o: Out)
    requires sh.closing && OutPools(sh, pc, o)
    ensures |o.sh.pools.history| + One(Licensed(PhaseOf(o.pc))) <= |sh.pools.history| + One(Licensed(PhaseOf(pc)))
  {
  }

  lemma PublishedStep(cfg: Config, s: State, l: Label, o: Out)
    requires Inv(cfg, s) && Does(cfg, s, l, o) && s.sh.closing
    ensures Published(Apply(s, l, o)) <= Published(s)
  {
    NoNewLicence(s.sh, ThreadOf(s, l.t).pc, o);
    HolderPhases(cfg, s, l, o);
  }

  /** After `closing` is set at most one more pool is published, and only if the holder of lifecycleMu was
      already past its check. */
  lemma AtMostOneLatePool(cfg: Config, states: seq<State>, labels: seq<Label>, i: nat, j: nat)
    requires IsRun(cfg, states, labels) && i <= j < |states| && states[i].sh.closing
    ensures |states[j].sh.pools.history| <= |states[i].sh.pools.history| + One(Licensed(PhaseOf(HolderPC(states[i]))))
  {
    var outs := Explain(cfg, states, labels);
    var bound := Published(states[i]);
    var P := (s: State) => s.sh.closing && Published(s) <= bound;
    forall s, l, o | Inv(cfg, s) && Does(cfg, s, l, o) && P(s) ensures P(Apply(s, l, o)) {
      PublishedStep(cfg, s, l, o);
    }
    RunKeeps(cfg, states, labels, outs, i, j, P);
  }

  // ---------------------------------------------------------------- nothing left

  /** The winner's Cleanup is about to return nil: its second phase has reported. */
  predicate ReturnsNil(s: State, l: Label) {
    var pc := ThreadOf(s, l.t).pc;
    pc.Cleanup? && pc.cl.Await2? && pc.cl.w in s.sh.bg.done2
  }

  /** No pool, no flag, and every pool the plugin ever opened closed, except overwritten ones. */
  ghost predicate AllReleased(s: State) {
    && s.sh.pools.db.None?
    && !s.sh.pools.connected
    && forall p: PoolId :: p < s.sh.pools.created ==> s.sh.pools.closes[p] == 1 || p in s.sh.pools.orphans
  }

  lemma DoneMeansReleased(cfg: Config, s: State)
    requires Inv(cfg, s) && s.sh.bg.done2 != {}
    ensures AllReleased(s)
    ensures !Licensed(PhaseOf(HolderPC(s)))
  {
    forall p: PoolId | p < s.sh.pools.created ensures s.sh.pools.closes[p] == 1 || p in s.sh.pools.orphans {
      assert Places(s.sh.pools, PhaseOf(HolderPC(s)), p) == One(p < s.sh.pools.created);
    }
  }

  lemma NoMoreOpens(sh: Shared, pc: PC, o: Out)
    requires OutPools(sh, pc, o) && !Licensed(PhaseOf(pc))
    ensures o.sh.pools.created == sh.pools.created
  {
  }

  /** Once the winning Cleanup returns nil the plugin is empty, opens no further pool, and stays so
      whatever is called afterwards. */
  lemma ShutdownIsTerminal(cfg: Config, states: seq<State>, labels: seq<Label>, i: nat, j: nat)
    requires IsRun(cfg, states, labels) && i <= j < |states| && i < |labels| && ReturnsNil(states[i], labels[i])
    ensures AllReleased(states[j])
    ensures states[j].sh.pools.created == states[i].sh.pools.created
  {
    var outs := Explain(cfg, states, labels);
    var created := states[i].sh.pools.created;
    var P := (s: State) => s.sh.bg.done2 != {} && s.sh.pools.created == created;
    forall s, l, o | Inv(cfg, s) && Does(cfg, s, l, o) && P(s) ensures P(Apply(s, l, o)) {
      DoneMeansReleased(cfg, s);
      ReadyToMove(cfg, s, l.t);
      if !HoldsLifecycle(ThreadOf(s, l.t).pc) {
        OutsiderQuiet(ThreadOf(s, l.t).pc);
      }
      NoMoreOpens(s.sh, ThreadOf(s, l.t).pc, o);
    }
    RunKeeps(cfg, states, labels, outs, i, j, P);
    RunInv(cfg, states, labels, j);
    DoneMeansReleased(cfg, states[j]);
  }
}
