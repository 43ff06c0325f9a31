/**
 With auto-reconnect disabled and no explicit Reconnect, one Startup publishes one pool, nothing
 replaces it, and `connected` is never set a second time.
 */
module PluginPassive {
  import opened Wrappers
  import opened PluginMachine
  import opened PluginInvariant
  import opened PluginLocal
  import opened PluginReachable
  import opened PluginTheorems

  // ---------------------------------------------------------------- nobody reconnects

  predicate NoAuto(cs: seq<Component>) {
    forall c :: c in cs ==> !c.kind.AutoReconnecting?
  }

  /** On no path to a Reconnect. */
  predicate PassivePC(pc: PC) {
    && !pc.Reconnect? && !pc.AutoDecide?
    && !((pc.Connecting? || pc.Publishing? || pc.Announcing? || pc.Finishing?) && pc.o.ByReconnect?)
    && !(pc.Probe? && pc.pk == ProbeToAuto)
    && (pc.Startup? && pc.st.StartComponents? ==> NoAuto(pc.st.rest))
  }

  predicate PassiveThread(th: Thread) {
    PassivePC(th.pc) && (th.home.Worker? ==> !th.home.c.kind.AutoReconnecting?)
  }

  // ---------------------------------------------------------------- the one Startup

  predicate OnStartup(pc: PC) {
    pc.Startup? || ((pc.Connecting? || pc.Publishing? || pc.Announcing? || pc.Finishing?) && pc.o.ByStartup?)
  }

  predicate MayPublish(pc: PC) {
    || (pc.Startup? && (pc.st.Lock? || pc.st.CheckConnected? || pc.st.CheckClosing? || pc.st.CheckCtx?))
    || (pc.Connecting? && pc.o.ByStartup?)
    || (pc.Publishing? && pc.o.ByStartup? && PhaseOf(pc).Candidate?)
  }

  predicate MayConnect(pc: PC) {
    MayPublish(pc) || (pc.Publishing? && pc.o.ByStartup? && pc.pu.StoreConnected?)
  }

  ghost predicate OutPassive(th: Thread, ch: Choice, o: Out) {
    && PassivePC(o.pc) && NoAuto(o.sh.bg.components)
    && (o.spawn.Some? ==> PassiveThread(o.spawn.value) && !OnStartup(o.spawn.value.pc))
    && (OnStartup(o.pc) ==> OnStartup(th.pc) || ch == Start(OpStartup))
    && (MayPublish(o.pc) ==> (MayPublish(th.pc) && !Stores(th.pc)) || ch == Start(OpStartup))
    && (MayConnect(o.pc) && !MayPublish(o.pc) ==> Stores(th.pc))
  }

  ghost predicate Settings(cfg: Config, sh: Shared, th: Thread, ch: Choice) {
    !cfg.autoReconnect && ch != Start(OpReconnect) && PassiveThread(th) && NoAuto(sh.bg.components)
  }

  lemma StartupPassiveFirst(cfg: Config, sh: Shared, home: Home, at: StartAt, ch: Choice, child: Tid)
    requires at.Lock? || at.CheckConnected? || at.CheckClosing? || at.CheckCtx? || at.Release?
    requires Settings(cfg, sh, Thread(home, Startup(at)), ch) && NextStartup(cfg, sh, at, ch, child).Some?
    ensures OutPassive(Thread(home, Startup(at)), ch, NextStartup(cfg, sh, at, ch, child).value)
  {
  }

  lemma StartupPassive(cfg: Config, sh: Shared, home: Home, at: StartAt, ch: Choice, child: Tid)
    requires Settings(cfg, sh, Thread(home, Startup(at)), ch) && NextStartup(cfg, sh, at, ch, child).Some?
    ensures OutPassive(Thread(home, Startup(at)), ch, NextStartup(cfg, sh, at, ch, child).value)
  {
    if at.Lock? || at.CheckConnected? || at.CheckClosing? || at.CheckCtx? || at.Release? {
      StartupPassiveFirst(cfg, sh, home, at, ch, child);
    }
  }

  lemma ConnectPassive(cfg: Config, sh: Shared, home: Home, ow: Owner, at: ConnectAt, ch: Choice)
    requires Settings(cfg, sh, Thread(home, Connecting(ow, at)), ch) && NextConnect(cfg, sh, ow, at, ch).Some?
    ensures OutPassive(Thread(home, Connecting(ow, at)), ch, NextConnect(cfg, sh, ow, at, ch).value)
  {
  }

  lemma PublishPassive(cfg: Config, sh: Shared, home: Home, ow: Owner, at: PublishAt, ch: Choice)
    requires Settings(cfg, sh, Thread(home, Publishing(ow, at)), ch) && NextPublish(sh, ow, at, ch).Some?
    ensures OutPassive(Thread(home, Publishing(ow, at)), ch, NextPublish(sh, ow, at, ch).value)
  {
  }

  lemma ProbePassive(cfg: Config, sh: Shared, home: Home, k: AfterProbe, at: ProbeAt, ch: Choice)
    requires Settings(cfg, sh, Thread(home, Probe(k, at)), ch) && NextProbe(cfg, sh, k, at, ch).Some?
    ensures OutPassive(Thread(home, Probe(k, at)), ch, NextProbe(cfg, sh, k, at, ch).value)
  {
  }

  lemma IdlePassive(cfg: Config, sh: Shared, t: Tid, home: Home, ch: Choice)
    requires Settings(cfg, sh, Thread(home, Idle), ch) && NextIdle(cfg, sh, t, home, ch).Some?
    ensures OutPassive(Thread(home, Idle), ch, NextIdle(cfg, sh, t, home, ch).value)
  {
  }

  lemma GetPassive(cfg: Config, sh: Shared, home: Home, g: AfterGet, at: GetAt, ch: Choice)
    requires Settings(cfg, sh, Thread(home, Get(g, at)), ch) && NextGet(cfg, sh, g, at, ch).Some?
    ensures OutPassive(Thread(home, Get(g, at)), ch, NextGet(cfg, sh, g, at, ch).value)
  {
  }

  lemma CheckPassive(cfg: Config, sh: Shared, home: Home, at: CheckAt, ch: Choice)
    requires Settings(cfg, sh, Thread(home, Check(at)), ch) && NextCheck(cfg, sh, at, ch).Some?
    ensures OutPassive(Thread(home, Check(at)), ch, NextCheck(cfg, sh, at, ch).value)
  {
  }

  lemma ObserverPassive(cfg: Config, sh: Shared, th: Thread, ch: Choice)
    requires Settings(cfg, sh, th, ch) && NextObserver(cfg, sh, th.pc, ch).Some?
    ensures OutPassive(th, ch, NextObserver(cfg, sh, th.pc, ch).value)
  {
    assert th == Thread(th.home, th.pc);
    if th.pc.Probe? {
      ProbePassive(cfg, sh, th.home, th.pc.pk, th.pc.pr, ch);
    } else if th.pc.Get? {
      GetPassive(cfg, sh, th.home, th.pc.g, th.pc.ge, ch);
    } else if th.pc.Check? {
      CheckPassive(cfg, sh, th.home, th.pc.ck, ch);
    }
  }

  lemma LifecyclePassive(cfg: Config, sh: Shared, th: Thread, ch: Choice, child: Tid)
    requires Settings(cfg, sh, th, ch) && NextLifecycle(cfg, sh, th.pc, ch, child).Some?
    ensures OutPassive(th, ch, NextLifecycle(cfg, sh, th.pc, ch, child).value)
  {
    assert th == Thread(th.home, th.pc);
    match th.pc
    case Startup(st) => StartupPassive(cfg, sh, th.home, st, ch, child);
    case Connecting(o, co) => ConnectPassive(cfg, sh, th.home, o, co, ch);
    case Publishing(o, pu) => PublishPassive(cfg, sh, th.home, o, pu, ch);
    case Announcing(o, an) =>
    case Finishing(o) =>
  }

  lemma TeardownPassive(cfg: Config, sh: Shared, t: Tid, th: Thread, ch: Choice, child: Tid)
    requires Settings(cfg, sh, th, ch) && NextTeardown(sh, t, th.pc, ch, child).Some?
    ensures OutPassive(th, ch, NextTeardown(sh, t, th.pc, ch, child).value)
  {
  }

  lemma ActionPassive(cfg: Config, s: State, l: Label, o: Out)
    requires Settings(cfg, s.sh, ThreadOf(s, l.t), l.ch) && Actual(cfg, s, l, o)
    ensures OutPassive(ThreadOf(s, l.t), l.ch, o)
  {
    var th := ThreadOf(s, l.t);
    if th.pc.Idle? {
      assert th == Thread(th.home, Idle);
      IdlePassive(cfg, s.sh, l.t, th.home, l.ch);
    } else if InLifecycle(th.pc) {
      LifecyclePassive(cfg, s.sh, th, l.ch, l.child);
    } else if InTeardown(th.pc) {
      TeardownPassive(cfg, s.sh, l.t, th, l.ch, l.child);
    } else {
      ObserverPassive(cfg, s.sh, th, l.ch);
    }
  }

  // ---------------------------------------------------------------- runs

  /** The goroutine that called Startup among the first `n` steps. */
  function Starter(labels: seq<Label>, n: nat): Option<Tid>
    requires n <= |labels|
  {
    if n == 0 then None
    else if labels[n - 1].ch == Start(OpStartup) then Some(labels[n - 1].t)
    else Starter(labels, n - 1)
  }

  /** At most one call of Startup, none of Reconnect. */
  ghost predicate OneStartupNoReconnect(labels: seq<Label>) {
    && (forall i :: 0 <= i < |labels| ==> labels[i].ch != Start(OpReconnect))
    && (forall i, j :: 0 <= i < j < |labels| ==> labels[i].ch != Start(OpStartup) || labels[j].ch != Start(OpStartup))
  }

  /** What is true of one goroutine, when `starter` is the one that called Startup. */
  ghost predicate PassiveAt(sh: Shared, starter: Option<Tid>, t: Tid, th: Thread) {
    && PassiveThread(th)
    && (OnStartup(th.pc) ==> starter == Some(t))
    && (MayPublish(th.pc) ==> sh.pools.history == [])
    && (MayConnect(th.pc) ==> !sh.pools.connected)
  }

  ghost predicate PassiveShared(sh: Shared, starter: Option<Tid>) {
    && NoAuto(sh.bg.components)
    && (starter.None? ==> sh.pools.history == [] && !sh.pools.connected)
    && |sh.pools.history| <= 1
  }

  ghost predicate PassiveState(s: State, starter: Option<Tid>) {
    PassiveShared(s.sh, starter) && forall t :: t in s.threads ==> PassiveAt(s.sh, starter, t, s.threads[t])
  }

  /** One action of goroutine `t`, a `Start(OpStartup)` only when nobody has called Startup yet. */
  ghost predicate PassiveOut(sh: Shared, starter: Option<Tid>, t: Tid, th: Thread, ch: Choice, o: Out) {
    && PassiveShared(sh, starter) && PassiveAt(sh, starter, t, th)
    && OutPassive(th, ch, o) && Touches(sh, th.pc, o)
    && (ch == Start(OpStartup) ==> starter.None?)
  }

  function After(starter: Option<Tid>, t: Tid, ch: Choice): Option<Tid> {
    if ch == Start(OpStartup) then Some(t) else starter
  }

  lemma MoverPassive(sh: Shared, starter: Option<Tid>, t: Tid, th: Thread, ch: Choice, o: Out)
    requires PassiveOut(sh, starter, t, th, ch, o)
    ensures PassiveShared(o.sh, After(starter, t, ch)) && PassiveAt(o.sh, After(starter, t, ch), t, th.(pc := o.pc))
  {
  }

  lemma OthersPassive(sh: Shared, starter: Option<Tid>, t: Tid, th: Thread, ch: Choice, o: Out, u: Tid, tu: Thread)
    requires PassiveOut(sh, starter, t, th, ch, o) && u != t && PassiveAt(sh, starter, u, tu)
    ensures PassiveAt(o.sh, After(starter, t, ch), u, tu)
  {
  }

  lemma PassiveStep(cfg: Config, s: State, l: Label, o: Out, starter: Option<Tid>)
    requires Does(cfg, s, l, o) && OutPassive(ThreadOf(s, l.t), l.ch, o)
    requires PassiveState(s, starter) && (l.ch == Start(OpStartup) ==> starter.None?)
    ensures PassiveState(Apply(s, l, o), After(starter, l.t, l.ch))
  {
    var s', th := Apply(s, l, o), ThreadOf(s, l.t);
    MoverPassive(s.sh, starter, l.t, th, l.ch, o);
    forall u | u in s'.threads ensures PassiveAt(s'.sh, After(starter, l.t, l.ch), u, s'.threads[u]) {
      if u in s.threads && u != l.t {
        OthersPassive(s.sh, starter, l.t, th, l.ch, o, u, s.threads[u]);
      }
    }
  }

  lemma {:induction false} StarterNoneAt(labels: seq<Label>, n: nat, m: nat)
    requires OneStartupNoReconnect(labels) && m <= n < |labels| && labels[n].ch == Start(OpStartup)
    ensures Starter(labels, m).None?
  {
    if m > 0 {
      StarterNoneAt(labels, n, m - 1);
    }
  }

  /** One step of such a run: the state before it is passive, so the action is. */
  lemma PassiveAction(cfg: Config, states: seq<State>, labels: seq<Label>, i: nat) returns (o: Out)
    requires IsRun(cfg, states, labels) && i < |labels| && !cfg.autoReconnect && OneStartupNoReconnect(labels)
    requires PassiveState(states[i], Starter(labels, i))
    ensures Does(cfg, states[i], labels[i], o) && states[i + 1] == Apply(states[i], labels[i], o)
    ensures OutPassive(ThreadOf(states[i], labels[i].t), labels[i].ch, o)
  {
    RunInv(cfg, states, labels, i);
    assert Step(cfg, states[i], labels[i]) == Some(states[i + 1]);
    o := StepDoes(cfg, states[i], labels[i]);
    PassiveSettings(cfg, states[i], labels[i], Starter(labels, i));
    ActionPassive(cfg, states[i], labels[i], o);
  }

  lemma PassiveSettings(cfg: Config, s: State, l: Label, starter: Option<Tid>)
    requires PassiveState(s, starter) && !cfg.autoReconnect && l.ch != Start(OpReconnect)
    ensures Settings(cfg, s.sh, ThreadOf(s, l.t), l.ch)
  {
  }

  lemma PassiveNext(cfg: Config, states: seq<State>, labels: seq<Label>, i: nat)
    requires IsRun(cfg, states, labels) && i < |labels| && !cfg.autoReconnect && OneStartupNoReconnect(labels)
    requires PassiveState(states[i], Starter(labels, i))
    ensures PassiveState(states[i + 1], After(Starter(labels, i), labels[i].t, labels[i].ch))
  {
    var o := PassiveAction(cfg, states, labels, i);
    if labels[i].ch == Start(OpStartup) {
      StarterNoneAt(labels, i, i);
    }
    PassiveStep(cfg, states[i], labels[i], o, Starter(labels, i));
  }

  lemma {:induction false} PassiveRun(cfg: Config, states: seq<State>, labels: seq<Label>, n: nat)
    requires IsRun(cfg, states, labels) && n < |states| && !cfg.autoReconnect && OneStartupNoReconnect(labels)
    ensures PassiveState(states[n], Starter(labels, n))
  {
    if n > 0 {
      PassiveRun(cfg, states, labels, n - 1);
      PassiveNext(cfg, states, labels, n - 1);
    }
  }

  lemma DbIsLast(cfg: Config, states: seq<State>, labels: seq<Label>, i: nat)
    requires IsRun(cfg, states, labels) && i < |states|
    ensures var ps := states[i].sh.pools;
            && (ps.db.None? <==> ps.history == [] || ps.shut)
            && (ps.db.Some? ==> ps.history != [] && ps.db.value == ps.history[|ps.history| - 1])
  {
    RunInv(cfg, states, labels, i);
  }

  lemma HistoryIsShort(cfg: Config, states: seq<State>, labels: seq<Label>, i: nat)
    requires IsRun(cfg, states, labels) && i < |states| && !cfg.autoReconnect && OneStartupNoReconnect(labels)
    ensures |states[i].sh.pools.history| <= 1
  {
    PassiveRun(cfg, states, labels, i);
  }

  /** Over the whole run `db` holds at most one pool: nil, that pool, nil. */
  lemma OnePoolOnly(cfg: Config, states: seq<State>, labels: seq<Label>, i: nat, j: nat, k: nat)
    requires IsRun(cfg, states, labels) && i <= j <= k < |states|
    requires !cfg.autoReconnect && OneStartupNoReconnect(labels)
    requires states[i].sh.pools.db.Some? && states[k].sh.pools.db.Some?
    ensures states[j].sh.pools.db == states[i].sh.pools.db
  {
    HistoryGrows(cfg, states, labels, i, j);
    HistoryGrows(cfg, states, labels, j, k);
    DbIsLast(cfg, states, labels, i);
    DbIsLast(cfg, states, labels, j);
    DbIsLast(cfg, states, labels, k);
    HistoryIsShort(cfg, states, labels, j);
  }

  // ---------------------------------------------------------------- connected

  ghost predicate NobodyConnects(s: State) {
    forall t :: t in s.threads ==> !MayConnect(s.threads[t].pc)
  }

  lemma NobodyStarts(cfg: Config, s: State, l: Label, o: Out)
    requires NobodyConnects(s) && Does(cfg, s, l, o) && OutPassive(ThreadOf(s, l.t), l.ch, o)
    requires PassiveThread(ThreadOf(s, l.t)) && l.ch != Start(OpStartup)
    ensures NobodyConnects(Apply(s, l, o))
    ensures o.sh.pools.connected ==> s.sh.pools.connected
  {
    assert !MayConnect(ThreadOf(s, l.t).pc);
  }

  lemma {:induction false} StarterStays(labels: seq<Label>, m: nat, n: nat)
    requires m <= n <= |labels| && Starter(labels, m).Some?
    ensures Starter(labels, n).Some?
  {
    if m < n {
      StarterStays(labels, m, n - 1);
    }
  }

  lemma NobodyConnectsNow(s: State, starter: Option<Tid>)
    requires PassiveState(s, starter) && s.sh.pools.connected
    ensures NobodyConnects(s) && starter.Some?
  {
    forall t | t in s.threads ensures !MayConnect(s.threads[t].pc) {
      assert PassiveAt(s.sh, starter, t, s.threads[t]);
    }
  }

  lemma NobodyConnectsNext(cfg: Config, states: seq<State>, labels: seq<Label>, i: nat)
    requires IsRun(cfg, states, labels) && i < |labels| && !cfg.autoReconnect && OneStartupNoReconnect(labels)
    requires NobodyConnects(states[i]) && Starter(labels, i).Some?
    ensures NobodyConnects(states[i + 1]) && (states[i + 1].sh.pools.connected ==> states[i].sh.pools.connected)
  {
    PassiveRun(cfg, states, labels, i);
    var o := PassiveAction(cfg, states, labels, i);
    if labels[i].ch == Start(OpStartup) {
      StarterNoneAt(labels, i, i);
      assert false;
    } else {
      PassiveSettings(cfg, states[i], labels[i], Starter(labels, i));
      NobodyStarts(cfg, states[i], labels[i], o);
    }
  }

  /** Once `connected` has been true, no goroutine can set it again. */
  lemma {:induction false} NobodyConnectsLater(cfg: Config, states: seq<State>, labels: seq<Label>, i: nat, j: nat)
    requires IsRun(cfg, states, labels) && i <= j < |states| && !cfg.autoReconnect && OneStartupNoReconnect(labels)
    requires states[i].sh.pools.connected
    ensures NobodyConnects(states[j]) && Starter(labels, j).Some?
  {
    if i == j {
      PassiveRun(cfg, states, labels, i);
      NobodyConnectsNow(states[i], Starter(labels, i));
    } else {
      NobodyConnectsLater(cfg, states, labels, i, j - 1);
      NobodyConnectsNext(cfg, states, labels, j - 1);
      StarterStays(labels, j - 1, j);
    }
  }

  /** After publication, `connected` once false stays false. */
  lemma {:induction false} DisconnectedForGood(cfg: Config, states: seq<State>, labels: seq<Label>,
          i: nat, j: nat, k: nat)
    requires IsRun(cfg, states, labels) && i <= j <= k < |states| && !cfg.autoReconnect && OneStartupNoReconnect(labels)
    requires states[i].sh.pools.connected && !states[j].sh.pools.connected
    ensures !states[k].sh.pools.connected
  {
    if j < k {
      DisconnectedForGood(cfg, states, labels, i, j, k - 1);
      NobodyConnectsLater(cfg, states, labels, i, k - 1);
      NobodyConnectsNext(cfg, states, labels, k - 1);
    }
  }
}
