/**
 GetDBWithContext when no other goroutine acts during the call: what it hands out, and how often it
 reconnects. PluginSequential has the same with the clock, for the plugin as a class.
 */
module PluginSolo {
  import opened Wrappers
  import opened PluginMachine
  import opened PluginReachable
  import opened PluginHandout

  predicate Good(sh: Shared) {
    sh.pools.connected && sh.pools.db.Some?
  }

  predicate GoodIs(sh: Shared, d: Option<PoolId>) {
    Good(sh) && sh.pools.db == d
  }

  /** What the call knows at each point, if nobody has interfered since it began. */
  predicate Alone(sh: Shared, pc: PC) {
    && (pc.Probe? && (pc.pr.Closing? || pc.pr.RLock? || pc.pr.Read?) ==> sh.pools.connected)
    && (pc.Probe? && (pc.pr.Cache? || pc.pr.Ping?) ==> GoodIs(sh, Some(pc.pr.d)))
    && (pc.Publishing? && pc.pu.StoreConnected? ==> sh.pools.db.Some?)
    && (pc.Publishing? && (pc.pu.UnlockMu? || pc.pu.CloseOld?) ==> Good(sh))
    && (pc.Announcing? || pc.Finishing? ==> Good(sh))
    && (pc.Get? && (pc.ge.CheckCtx? || pc.ge.RLock? || pc.ge.Read? || pc.ge.RLockAgain? || pc.ge.ReadAgain?) ==>
        Good(sh))
    && (pc.Get? && (pc.ge.Alive? || pc.ge.Return?) ==> GoodIs(sh, pc.ge.snap))
    && (pc.Get? && pc.ge.Ping? ==> GoodIs(sh, Some(pc.ge.d)))
  }

  predicate Enters(pc: PC, pc': PC) {
    !pc.Reconnect? && pc'.Reconnect?
  }

  /** How many Reconnects the call can have entered. */
  function Entered(pc: PC): nat {
    if pc.Probe? then 0
    else if pc.Reconnect? && pc.k.ToGet? then 1
    else if (pc.Connecting? || pc.Publishing? || pc.Announcing? || pc.Finishing?) && pc.o.ByReconnect? &&
        pc.o.k.ToGet? then 1
    else if pc.Get? && (pc.ge.CheckCtx? || pc.ge.RLock? || pc.ge.Read? || pc.ge.Alive? || pc.ge.Ping?) then 1
    else 2
  }

  /** One action inside the call. */
  ghost predicate GoesOn(g: AfterGet, pc: PC, o: Out) {
    InCall(o.pc, g) ==> Alone(o.sh, o.pc) && Entered(pc) + One(Enters(pc, o.pc)) <= Entered(o.pc)
  }

  lemma ProbeAlone(cfg: Config, sh: Shared, g: AfterGet, at: ProbeAt, ch: Choice)
    requires NextProbe(cfg, sh, ProbeToGet(g), at, ch).Some? && Alone(sh, Probe(ProbeToGet(g), at))
    ensures GoesOn(g, Probe(ProbeToGet(g), at), NextProbe(cfg, sh, ProbeToGet(g), at, ch).value)
  {
  }

  lemma ReconnectAlone(sh: Shared, g: AfterGet, k: AfterReconnect, at: ReconnectAt, ch: Choice)
    requires NextReconnect(sh, k, at, ch).Some? && ForGet(k, g)
    ensures GoesOn(g, Reconnect(k, at), NextReconnect(sh, k, at, ch).value)
  {
  }

  lemma ConnectAlone(cfg: Config, sh: Shared, g: AfterGet, ow: Owner, at: ConnectAt, ch: Choice)
    requires NextConnect(cfg, sh, ow, at, ch).Some? && ow.ByReconnect? && ForGet(ow.k, g)
    ensures GoesOn(g, Connecting(ow, at), NextConnect(cfg, sh, ow, at, ch).value)
  {
  }

  lemma PublishAlone(sh: Shared, g: AfterGet, ow: Owner, at: PublishAt, ch: Choice)
    requires NextPublish(sh, ow, at, ch).Some? && ow.ByReconnect? && ForGet(ow.k, g) && Alone(sh, Publishing(ow, at))
    ensures GoesOn(g, Publishing(ow, at), NextPublish(sh, ow, at, ch).value)
  {
  }

  lemma AnnounceAlone(cfg: Config, sh: Shared, g: AfterGet, ow: Owner, at: AnnounceAt, ch: Choice)
    requires NextAnnounce(cfg, sh, ow, at, ch).Some? && ow.ByReconnect? && ForGet(ow.k, g) &&
        Alone(sh, Announcing(ow, at))
    ensures GoesOn(g, Announcing(ow, at), NextAnnounce(cfg, sh, ow, at, ch).value)
  {
  }

  lemma GetAlone(cfg: Config, sh: Shared, g: AfterGet, at: GetAt, ch: Choice)
    requires NextGet(cfg, sh, g, at, ch).Some? && Alone(sh, Get(g, at))
    ensures GoesOn(g, Get(g, at), NextGet(cfg, sh, g, at, ch).value)
  {
  }

  lemma LifecycleAlone(cfg: Config, sh: Shared, g: AfterGet, pc: PC, ch: Choice, child: Tid)
    requires InLifecycle(pc) && InCall(pc, g) && Alone(sh, pc) && NextLifecycle(cfg, sh, pc, ch, child).Some?
    ensures GoesOn(g, pc, NextLifecycle(cfg, sh, pc, ch, child).value)
  {
    match pc
    case Reconnect(k, re) => ReconnectAlone(sh, g, k, re, ch);
    case Connecting(o, co) => ConnectAlone(cfg, sh, g, o, co, ch);
    case Publishing(o, pu) => PublishAlone(sh, g, o, pu, ch);
    case Announcing(o, an) => AnnounceAlone(cfg, sh, g, o, an, ch);
    case Finishing(o) =>
  }

  lemma ActionAlone(cfg: Config, s: State, l: Label, o: Out, g: AfterGet)
    requires Actual(cfg, s, l, o) && InCall(ThreadOf(s, l.t).pc, g) && Alone(s.sh, ThreadOf(s, l.t).pc)
    ensures GoesOn(g, ThreadOf(s, l.t).pc, o)
  {
    var pc := ThreadOf(s, l.t).pc;
    if pc.Probe? {
      ProbeAlone(cfg, s.sh, g, pc.pr, l.ch);
    } else if pc.Get? {
      GetAlone(cfg, s.sh, g, pc.ge, l.ch);
    } else {
      LifecycleAlone(cfg, s.sh, g, pc, l.ch, l.child);
    }
  }

  // ---------------------------------------------------------------- the call

  /** From instant `i` to `j` goroutine `t` is inside the call and nobody else acts. */
  ghost predicate SoloCall(states: seq<State>, labels: seq<Label>, t: Tid, g: AfterGet, i: nat, j: nat)
    requires i <= j <= |labels| < |states|
  {
    && ThreadOf(states[i], t).pc == BeginGet(g)
    && (forall k :: i <= k < j ==> labels[k].t == t)
    && (forall k :: i <= k <= j ==> InCall(ThreadOf(states[k], t).pc, g))
  }

  /** Reconnects entered between `i` and `j`. */
  function Reconnects(states: seq<State>, t: Tid, i: nat, j: nat): nat
    requires i <= j < |states|
  {
    if i == j then 0
    else Reconnects(states, t, i, j - 1) + One(Enters(ThreadOf(states[j - 1], t).pc, ThreadOf(states[j], t).pc))
  }

  lemma {:induction false} CallAlone(cfg: Config, states: seq<State>, labels: seq<Label>, t: Tid, g: AfterGet,
          i: nat, j: nat)
    requires IsRun(cfg, states, labels) && i <= j < |states| && SoloCall(states, labels, t, g, i, j)
    ensures Alone(states[j].sh, ThreadOf(states[j], t).pc)
    ensures Reconnects(states, t, i, j) <= Entered(ThreadOf(states[j], t).pc)
  {
    if i < j {
      CallAlone(cfg, states, labels, t, g, i, j - 1);
      CallStep(cfg, states, labels, t, g, j - 1);
    }
  }

  lemma MoverAfter(s: State, l: Label, o: Out)
    requires Allowed(s, l, o)
    ensures Apply(s, l, o).sh == o.sh && ThreadOf(Apply(s, l, o), l.t).pc == o.pc
  {
  }

  lemma CallStep(cfg: Config, states: seq<State>, labels: seq<Label>, t: Tid, g: AfterGet, k: nat)
    requires IsRun(cfg, states, labels) && k < |labels| && labels[k].t == t
    requires InCall(ThreadOf(states[k], t).pc, g) && InCall(ThreadOf(states[k + 1], t).pc, g)
    requires Alone(states[k].sh, ThreadOf(states[k], t).pc)
    ensures Alone(states[k + 1].sh, ThreadOf(states[k + 1], t).pc)
    ensures var pc, pc' := ThreadOf(states[k], t).pc, ThreadOf(states[k + 1], t).pc;
            Entered(pc) + One(Enters(pc, pc')) <= Entered(pc')
  {
    assert Step(cfg, states[k], labels[k]) == Some(states[k + 1]);
    RunInv(cfg, states, labels, k);
    var o := StepDoes(cfg, states[k], labels[k]);
    ActionAlone(cfg, states[k], labels[k], o, g);
    MoverAfter(states[k], labels[k], o);
  }

  /** Without interference GetDBWithContext hands out the current pool, not nil and connected, after at
      most two Reconnects. */
  lemma AloneHandsOutCurrent(cfg: Config, states: seq<State>, labels: seq<Label>, t: Tid, g: AfterGet, i: nat, j: nat)
    requires IsRun(cfg, states, labels) && i <= j < |states| && SoloCall(states, labels, t, g, i, j)
    requires ThreadOf(states[j], t).pc.Get? && ThreadOf(states[j], t).pc.ge.Return?
    ensures var d := ThreadOf(states[j], t).pc.ge.snap;
            d.Some? && states[j].sh.pools.db == d && states[j].sh.pools.connected
    ensures Reconnects(states, t, i, j) <= 2
  {
    CallAlone(cfg, states, labels, t, g, i, j);
  }
}
