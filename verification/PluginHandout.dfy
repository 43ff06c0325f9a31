/**
 What GetDBWithContext hands out while other goroutines replace and close pools.
 */
module PluginHandout {
  import opened Wrappers
  import opened PluginMachine
  import opened PluginLocal
  import opened PluginReachable

  predicate ForGet(k: AfterReconnect, g: AfterGet) {
    k == ToGet(g) || k == ToGetAgain(g)
  }

  /** Inside the GetDBWithContext call that returns to `g`, including its Reconnects. */
  predicate InCall(pc: PC, g: AfterGet) {
    || (pc.Get? && pc.g == g)
    || (pc.Probe? && pc.pk == ProbeToGet(g))
    || (pc.Reconnect? && ForGet(pc.k, g))
    || ((pc.Connecting? || pc.Publishing? || pc.Announcing? || pc.Finishing?) && pc.o.ByReconnect? && ForGet(pc.o.k, g))
  }

  /** Has read pool `p` and may hand it out. */
  predicate Carries(pc: PC, g: AfterGet, p: PoolId) {
    pc == Get(g, Alive(Some(p))) || pc == Get(g, GetAt.Ping(p)) || pc == Get(g, Return(Some(p)))
  }

  lemma GetCarries(cfg: Config, sh: Shared, at: GetAt, ch: Choice, g: AfterGet, p: PoolId)
    requires NextGet(cfg, sh, g, at, ch).Some? && Carries(NextGet(cfg, sh, g, at, ch).value.pc, g, p)
    ensures Carries(Get(g, at), g, p) || sh.pools.db == Some(p)
  {
  }

  lemma GetKeepsReturn(cfg: Config, sh: Shared, at: GetAt, ch: Choice, g: AfterGet)
    requires NextGet(cfg, sh, g, at, ch).Some? && NextGet(cfg, sh, g, at, ch).value.pc.Get?
    ensures NextGet(cfg, sh, g, at, ch).value.pc.g == g
  {
  }

  lemma CarriesAction(cfg: Config, s: State, l: Label, o: Out, g: AfterGet, p: PoolId)
    requires Actual(cfg, s, l, o) && ThreadOf(s, l.t).pc.Get? && Carries(o.pc, g, p)
    ensures ThreadOf(s, l.t).pc.g == g
    ensures Carries(ThreadOf(s, l.t).pc, g, p) || s.sh.pools.db == Some(p)
  {
    var pc := ThreadOf(s, l.t).pc;
    GetKeepsReturn(cfg, s.sh, pc.ge, l.ch, pc.g);
    GetCarries(cfg, s.sh, pc.ge, l.ch, g, p);
  }

  lemma OthersCarry(cfg: Config, s: State, l: Label, o: Out, t: Tid)
    requires Inv(cfg, s) && Does(cfg, s, l, o) && t != l.t && ThreadOf(Apply(s, l, o), t).pc.Get?
    ensures ThreadOf(s, t).pc == ThreadOf(Apply(s, l, o), t).pc
  {
    assert o.spawn.Some? ==> HomeOk(o.spawn.value);
  }

  lemma CarriesStep(cfg: Config, states: seq<State>, labels: seq<Label>, i: nat, t: Tid, g: AfterGet, p: PoolId)
    requires IsRun(cfg, states, labels) && i < |labels| && Carries(ThreadOf(states[i + 1], t).pc, g, p)
    ensures InCall(ThreadOf(states[i], t).pc, g)
    ensures Carries(ThreadOf(states[i], t).pc, g, p) || states[i].sh.pools.db == Some(p)
  {
    RunInv(cfg, states, labels, i);
    assert Step(cfg, states[i], labels[i]) == Some(states[i + 1]);
    var o := StepDoes(cfg, states[i], labels[i]);
    if labels[i].t == t {
      MoverCarries(cfg, states[i], labels[i], o, g, p);
    } else {
      OthersCarry(cfg, states[i], labels[i], o, t);
    }
  }

  lemma MoverCarries(cfg: Config, s: State, l: Label, o: Out, g: AfterGet, p: PoolId)
    requires Does(cfg, s, l, o) && Actual(cfg, s, l, o) && Carries(o.pc, g, p)
    ensures InCall(ThreadOf(s, l.t).pc, g)
    ensures Carries(ThreadOf(s, l.t).pc, g, p) || s.sh.pools.db == Some(p)
  {
    CarriesAction(cfg, s, l, o, g, p);
  }

  /** Pool `p` was the published one at instant `k`, and `t` has been inside the call since. */
  ghost predicate PublishedDuring(states: seq<State>, k: nat, i: nat, t: Tid, g: AfterGet, p: PoolId)
    requires k <= i < |states|
  {
    && states[k].sh.pools.db == Some(p)
    && forall j :: k <= j <= i ==> InCall(ThreadOf(states[j], t).pc, g)
  }

  lemma {:induction false} CarriesPublished(cfg: Config, states: seq<State>, labels: seq<Label>, i: nat,
                                            t: Tid, g: AfterGet, p: PoolId)
      returns (k: nat)
    requires IsRun(cfg, states, labels) && i < |states| && Carries(ThreadOf(states[i], t).pc, g, p)
    ensures k <= i && PublishedDuring(states, k, i, t, g, p)
  {
    assert i > 0;
    CarriesStep(cfg, states, labels, i - 1, t, g, p);
    if Carries(ThreadOf(states[i - 1], t).pc, g, p) {
      k := CarriesPublished(cfg, states, labels, i - 1, t, g, p);
    } else {
      k := i - 1;
    }
  }

  /** A pool handed out without error was the published one at some instant inside the call; nil is
      handed out only once the close phase has emptied `db`. */
  lemma HandedOutWasPublished(cfg: Config, states: seq<State>, labels: seq<Label>, i: nat, t: Tid)
    requires IsRun(cfg, states, labels) && i < |states|
    requires ThreadOf(states[i], t).pc.Get? && ThreadOf(states[i], t).pc.ge.Return?
    ensures var pc := ThreadOf(states[i], t).pc;
            match pc.ge.snap
            case Some(p) => exists k: nat :: k <= i && PublishedDuring(states, k, i, t, pc.g, p)
            case None => states[i].sh.closing && states[i].sh.pools.shut
  {
    var pc := ThreadOf(states[i], t).pc;
    if pc.ge.snap.Some? {
      var k := CarriesPublished(cfg, states, labels, i, t, pc.g, pc.ge.snap.value);
    } else {
      RunInv(cfg, states, labels, i);
      ReadyToMove(cfg, states[i], t);
      ShutMeansClosing(cfg, states[i]);
    }
  }

  lemma ShutMeansClosing(cfg: Config, s: State)
    requires Inv(cfg, s)
    ensures s.sh.pools.shut ==> s.sh.closing
  {
  }

  /** Reading `db` for the handout finds nil exactly when the close phase has emptied it. */
  lemma NilExactlyWhenShut(cfg: Config, states: seq<State>, labels: seq<Label>, i: nat)
    requires IsRun(cfg, states, labels) && i < |labels|
    requires var pc := ThreadOf(states[i], labels[i].t).pc; pc.Get? && (pc.ge.Read? || pc.ge.ReadAgain?)
    ensures var pc, pc' := ThreadOf(states[i], labels[i].t).pc, ThreadOf(states[i + 1], labels[i].t).pc;
            && pc'.Get? && (if pc.ge.Read? then pc'.ge.Alive? else pc'.ge.Return?)
            && (pc'.ge.snap.None? <==> states[i].sh.pools.shut)
  {
    RunInv(cfg, states, labels, i);
    assert Step(cfg, states[i], labels[i]) == Some(states[i + 1]);
    var pc := ThreadOf(states[i], labels[i].t).pc;
    GetHasHistory(cfg, states[i], labels[i].t);
    assert states[i + 1] == Apply(states[i], labels[i], NextGet(cfg, states[i].sh, pc.g, pc.ge, labels[i].ch).value);
  }

  lemma GetHasHistory(cfg: Config, s: State, t: Tid)
    requires Inv(cfg, s) && ThreadOf(s, t).pc.Get?
    ensures s.sh.pools.db.None? <==> s.sh.pools.shut
  {
    ReadyToMove(cfg, s, t);
  }

  // ---------------------------------------------------------------- nil pools dereferenced

  /** Goes by a read of `db` that gave `d`. */
  predicate Holds(pc: PC, d: Option<PoolId>) {
    || (pc.Get? && (pc.ge.Alive? || pc.ge.Return?) && pc.ge.snap == d)
    || (pc.Get? && pc.ge.Ping? && d == Some(pc.ge.d))
    || (pc.Validate? && pc.va.Conn? && pc.va.snap == d)
  }

  predicate ReadsDb(pc: PC) {
    pc.Get? && (pc.ge.Read? || pc.ge.ReadAgain?)
  }

  lemma GetHolds(cfg: Config, sh: Shared, at: GetAt, ch: Choice, g: AfterGet, d: Option<PoolId>)
    requires NextGet(cfg, sh, g, at, ch).Some? && Holds(NextGet(cfg, sh, g, at, ch).value.pc, d)
    ensures Holds(Get(g, at), d) || (ReadsDb(Get(g, at)) && sh.pools.db == d)
  {
  }

  lemma MoverHolds(cfg: Config, s: State, l: Label, o: Out, d: Option<PoolId>)
    requires Does(cfg, s, l, o) && Actual(cfg, s, l, o) && Holds(o.pc, d)
    ensures var pc := ThreadOf(s, l.t).pc; Holds(pc, d) || (ReadsDb(pc) && s.sh.pools.db == d)
  {
    var pc := ThreadOf(s, l.t).pc;
    assert pc.Get?;
    GetHolds(cfg, s.sh, pc.ge, l.ch, pc.g, d);
  }

  lemma OthersHold(cfg: Config, s: State, l: Label, o: Out, t: Tid, d: Option<PoolId>)
    requires Inv(cfg, s) && Does(cfg, s, l, o) && t != l.t && Holds(ThreadOf(Apply(s, l, o), t).pc, d)
    ensures Holds(ThreadOf(s, t).pc, d)
  {
    assert o.spawn.Some? ==> HomeOk(o.spawn.value);
  }

  lemma HoldsStep(cfg: Config, states: seq<State>, labels: seq<Label>, i: nat, t: Tid, d: Option<PoolId>)
    requires IsRun(cfg, states, labels) && i < |labels| && Holds(ThreadOf(states[i + 1], t).pc, d)
    ensures Holds(ThreadOf(states[i], t).pc, d) ||
            (labels[i].t == t && ReadsDb(ThreadOf(states[i], t).pc) && states[i].sh.pools.db == d)
  {
    RunInv(cfg, states, labels, i);
    assert Step(cfg, states[i], labels[i]) == Some(states[i + 1]);
    var o := StepDoes(cfg, states[i], labels[i]);
    if labels[i].t == t {
      MoverHolds(cfg, states[i], labels[i], o, d);
    } else {
      OthersHold(cfg, states[i], labels[i], o, t, d);
    }
  }

  /** The last read of `db` before instant `i` by a goroutine that goes by one. */
  lemma {:induction false} LastRead(cfg: Config, states: seq<State>, labels: seq<Label>, i: nat, t: Tid,
          d: Option<PoolId>)
      returns (k: nat)
    requires IsRun(cfg, states, labels) && i < |states| && Holds(ThreadOf(states[i], t).pc, d)
    ensures k < i && labels[k].t == t && ReadsDb(ThreadOf(states[k], t).pc) && states[k].sh.pools.db == d
    ensures forall j :: k < j <= i ==> Holds(ThreadOf(states[j], t).pc, d)
  {
    assert i > 0;
    HoldsStep(cfg, states, labels, i - 1, t, d);
    if Holds(ThreadOf(states[i - 1], t).pc, d) {
      k := LastRead(cfg, states, labels, i - 1, t, d);
    } else {
      k := i - 1;
    }
  }

  lemma ConnStep(cfg: Config, s: State, l: Label)
    requires Step(cfg, s, l).Some? && ThreadOf(s, l.t).pc.Validate? && ThreadOf(s, l.t).pc.va.Conn?
    ensures ThreadOf(Step(cfg, s, l).value, l.t).pc.Crashed? <==> ThreadOf(s, l.t).pc.va.snap.None?
  {
    var pc := ThreadOf(s, l.t).pc;
    assert Next(cfg, s.sh, l.t, ThreadOf(s, l.t), l.ch, l.child) == NextValidate(cfg, s.sh, pc.again, pc.va, l.ch);
  }

  /** When GetValidatedConn asks the pool it was handed for a connection, it dereferences nil exactly when
      its last read of `db` came after the close phase. */
  lemma CrashExactlyAfterClose(cfg: Config, states: seq<State>, labels: seq<Label>, i: nat) returns (k: nat)
    requires IsRun(cfg, states, labels) && i < |labels|
    requires var pc := ThreadOf(states[i], labels[i].t).pc; pc.Validate? && pc.va.Conn?
    ensures var t := labels[i].t; var d := ThreadOf(states[i], t).pc.va.snap;
            && k < i && labels[k].t == t && ReadsDb(ThreadOf(states[k], t).pc)
            && (forall j :: k < j <= i ==> Holds(ThreadOf(states[j], t).pc, d))
            && (ThreadOf(states[i + 1], t).pc.Crashed? <==> states[k].sh.pools.shut)
  {
    var t := labels[i].t;
    k := LastRead(cfg, states, labels, i, t, ThreadOf(states[i], t).pc.va.snap);
    RunInv(cfg, states, labels, k);
    GetHasHistory(cfg, states[k], t);
    assert Step(cfg, states[i], labels[i]) == Some(states[i + 1]);
    ConnStep(cfg, states[i], labels[i]);
  }

  /** No goroutine has crashed before the close phase has emptied `db`. */
  lemma CrashOnlyWhenShut(cfg: Config, states: seq<State>, labels: seq<Label>, i: nat, t: Tid)
    requires IsRun(cfg, states, labels) && i < |states| && ThreadOf(states[i], t).pc.Crashed?
    ensures states[i].sh.pools.shut
  {
    RunInv(cfg, states, labels, i);
    ReadyToMove(cfg, states[i], t);
  }
}
