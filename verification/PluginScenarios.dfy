/**
 Runs that exist: from the initial state to the situations the other modules put bounds on. Each is put
 together from stretches in which one goroutine acts and nobody else interferes.
 */
module PluginScenarios {
  import opened Wrappers
  import opened PluginMachine
  import opened PluginReachable
  import opened PluginProgress
  import opened PluginTheorems
  import opened PluginRelease

  // ---------------------------------------------------------------- reachability

  ghost predicate Leads(cfg: Config, a: State, labels: seq<Label>, b: State)
    decreases |labels|
  {
    if labels == [] then a == b
    else
      var n := Step(cfg, a, labels[0]);
      n.Some? && Leads(cfg, n.value, labels[1..], b)
  }

  ghost predicate Can(cfg: Config, a: State, b: State) {
    exists labels :: Leads(cfg, a, labels, b)
  }

  lemma CanStay(cfg: Config, a: State)
    ensures Can(cfg, a, a)
  {
    assert Leads(cfg, a, [], a);
  }

  lemma {:induction false} LeadsOn(cfg: Config, a: State, labels: seq<Label>, b: State, l: Label)
    requires Leads(cfg, a, labels, b) && Step(cfg, b, l).Some?
    ensures Leads(cfg, a, labels + [l], Step(cfg, b, l).value)
    decreases |labels|
  {
    if labels == [] {
      assert Leads(cfg, Step(cfg, b, l).value, [], Step(cfg, b, l).value);
      assert [l][1..] == [];
    } else {
      LeadsOn(cfg, Step(cfg, a, labels[0]).value, labels[1..], b, l);
      assert (labels + [l])[1..] == labels[1..] + [l];
    }
  }

  lemma CanOn(cfg: Config, a: State, b: State, l: Label)
    requires Can(cfg, a, b) && Step(cfg, b, l).Some?
    ensures Can(cfg, a, Step(cfg, b, l).value)
  {
    var labels :| Leads(cfg, a, labels, b);
    LeadsOn(cfg, a, labels, b, l);
  }

  lemma {:induction false} LeadsRun(cfg: Config, states: seq<State>, labels: seq<Label>, more: seq<Label>, b: State)
      returns (states': seq<State>, labels': seq<Label>)
    requires IsRun(cfg, states, labels) && Leads(cfg, states[|labels|], more, b)
    ensures IsRun(cfg, states', labels') && states'[|labels'|] == b
    decreases |more|
  {
    if more == [] {
      return states, labels;
    }
    var next := Step(cfg, states[|labels|], more[0]).value;
    ExtendRun(cfg, states, labels, more[0], next);
    states', labels' := LeadsRun(cfg, states + [next], labels + [more[0]], more[1..], b);
  }

  /** What can be reached is reached by a run. */
  lemma RunTo(cfg: Config, b: State) returns (states: seq<State>, labels: seq<Label>)
    requires Can(cfg, INIT, b)
    ensures IsRun(cfg, states, labels) && states[|labels|] == b
  {
    var more :| Leads(cfg, INIT, more, b);
    states, labels := LeadsRun(cfg, [INIT], [], more, b);
  }

  // ---------------------------------------------------------------- one goroutine acting

  const FREE := Locks(None, None, {})

  /** What one goroutine's actions depend on and change. */
  datatype View = View(sh: Shared, locks: Locks, pc: PC)

  /** Goroutine `t` among the others. */
  function Among(others: map<Tid, Thread>, t: Tid, home: Home, v: View): State {
    State(v.sh, v.locks, others[t := Thread(home, v.pc)])
  }

  function Done(v: View, t: Tid, o: Out): View {
    View(o.sh, LockEffect(o.lock, v.locks, t), o.pc)
  }

  /** The state `from`, the others and the name of the goroutine: what stays the same in a stretch. */
  datatype Stretch = Stretch(cfg: Config, from: State, others: map<Tid, Thread>, t: Tid, home: Home) {
    ghost predicate At(v: View) {
      Can(cfg, from, Among(others, t, home, v))
    }
  }

  predicate Possible(n: Option<Out>, v: View) {
    n.Some? && n.value.spawn.None? && LockEnabled(n.value.lock, v.locks)
  }

  lemma Act(x: Stretch, v: View, ch: Choice)
    requires x.At(v)
    requires Possible(Next(x.cfg, v.sh, x.t, Thread(x.home, v.pc), ch, 0), v)
    ensures x.At(Done(v, x.t, Next(x.cfg, v.sh, x.t, Thread(x.home, v.pc), ch, 0).value))
  {
    var o := Next(x.cfg, v.sh, x.t, Thread(x.home, v.pc), ch, 0).value;
    var s, l := Among(x.others, x.t, x.home, v), Label(x.t, ch, 0);
    assert ThreadOf(s, x.t) == Thread(x.home, v.pc);
    CanOn(x.cfg, x.from, s, l);
    assert Apply(s, l, o).threads == x.others[x.t := Thread(x.home, o.pc)];
  }

  /** The same for an action that starts a goroutine. */
  lemma ActSpawning(x: Stretch, v: View, ch: Choice, child: Tid) returns (y: Stretch)
    requires x.At(v) && child !in x.others && child != x.t
    requires var n := Next(x.cfg, v.sh, x.t, Thread(x.home, v.pc), ch, child);
             n.Some? && n.value.spawn.Some? && LockEnabled(n.value.lock, v.locks)
    ensures var o := Next(x.cfg, v.sh, x.t, Thread(x.home, v.pc), ch, child).value;
            y == x.(others := x.others[child := o.spawn.value]) && y.At(Done(v, x.t, o))
  {
    var o := Next(x.cfg, v.sh, x.t, Thread(x.home, v.pc), ch, child).value;
    var s, l := Among(x.others, x.t, x.home, v), Label(x.t, ch, child);
    assert ThreadOf(s, x.t) == Thread(x.home, v.pc);
    CanOn(x.cfg, x.from, s, l);
    y := x.(others := x.others[child := o.spawn.value]);
    assert Apply(s, l, o).threads == y.others[x.t := Thread(x.home, o.pc)];
  }

  // what a goroutine does next, family by family

  lemma InStartup(x: Stretch, v: View, ch: Choice) returns (w: View)
    requires x.At(v) && v.pc.Startup? && !ch.Start? && Possible(NextStartup(x.cfg, v.sh, v.pc.st, ch, 0), v)
    ensures w == Done(v, x.t, NextStartup(x.cfg, v.sh, v.pc.st, ch, 0).value) && x.At(w)
  {
    Act(x, v, ch);
    w := Done(v, x.t, NextStartup(x.cfg, v.sh, v.pc.st, ch, 0).value);
  }

  lemma InReconnect(x: Stretch, v: View, ch: Choice) returns (w: View)
    requires x.At(v) && v.pc.Reconnect? && !ch.Start? && Possible(NextReconnect(v.sh, v.pc.k, v.pc.re, ch), v)
    ensures w == Done(v, x.t, NextReconnect(v.sh, v.pc.k, v.pc.re, ch).value) && x.At(w)
  {
    Act(x, v, ch);
    w := Done(v, x.t, NextReconnect(v.sh, v.pc.k, v.pc.re, ch).value);
  }

  lemma InConnect(x: Stretch, v: View, ch: Choice) returns (w: View)
    requires x.At(v) && v.pc.Connecting? && !ch.Start? && Possible(NextConnect(x.cfg, v.sh, v.pc.o, v.pc.co, ch), v)
    ensures w == Done(v, x.t, NextConnect(x.cfg, v.sh, v.pc.o, v.pc.co, ch).value) && x.At(w)
  {
    Act(x, v, ch);
    w := Done(v, x.t, NextConnect(x.cfg, v.sh, v.pc.o, v.pc.co, ch).value);
  }

  lemma InPublish(x: Stretch, v: View, ch: Choice) returns (w: View)
    requires x.At(v) && v.pc.Publishing? && !ch.Start? && Possible(NextPublish(v.sh, v.pc.o, v.pc.pu, ch), v)
    ensures w == Done(v, x.t, NextPublish(v.sh, v.pc.o, v.pc.pu, ch).value) && x.At(w)
  {
    Act(x, v, ch);
    w := Done(v, x.t, NextPublish(v.sh, v.pc.o, v.pc.pu, ch).value);
  }

  lemma InAnnounce(x: Stretch, v: View, ch: Choice) returns (w: View)
    requires x.At(v) && v.pc.Announcing? && !ch.Start? && Possible(NextAnnounce(x.cfg, v.sh, v.pc.o, v.pc.an, ch), v)
    ensures w == Done(v, x.t, NextAnnounce(x.cfg, v.sh, v.pc.o, v.pc.an, ch).value) && x.At(w)
  {
    Act(x, v, ch);
    w := Done(v, x.t, NextAnnounce(x.cfg, v.sh, v.pc.o, v.pc.an, ch).value);
  }

  lemma InProbe(x: Stretch, v: View, ch: Choice) returns (w: View)
    requires x.At(v) && v.pc.Probe? && !ch.Start? && Possible(NextProbe(x.cfg, v.sh, v.pc.pk, v.pc.pr, ch), v)
    ensures w == Done(v, x.t, NextProbe(x.cfg, v.sh, v.pc.pk, v.pc.pr, ch).value) && x.At(w)
  {
    Act(x, v, ch);
    w := Done(v, x.t, NextProbe(x.cfg, v.sh, v.pc.pk, v.pc.pr, ch).value);
  }

  lemma InGet(x: Stretch, v: View, ch: Choice) returns (w: View)
    requires x.At(v) && v.pc.Get? && !ch.Start? && Possible(NextGet(x.cfg, v.sh, v.pc.g, v.pc.ge, ch), v)
    ensures w == Done(v, x.t, NextGet(x.cfg, v.sh, v.pc.g, v.pc.ge, ch).value) && x.At(w)
  {
    Act(x, v, ch);
    w := Done(v, x.t, NextGet(x.cfg, v.sh, v.pc.g, v.pc.ge, ch).value);
  }

  lemma InValidate(x: Stretch, v: View, ch: Choice) returns (w: View)
    requires x.At(v) && v.pc.Validate? && !ch.Start? && Possible(NextValidate(x.cfg, v.sh, v.pc.again, v.pc.va, ch), v)
    ensures w == Done(v, x.t, NextValidate(x.cfg, v.sh, v.pc.again, v.pc.va, ch).value) && x.At(w)
  {
    Act(x, v, ch);
    w := Done(v, x.t, NextValidate(x.cfg, v.sh, v.pc.again, v.pc.va, ch).value);
  }

  lemma InHealth(x: Stretch, v: View, ch: Choice) returns (w: View)
    requires x.At(v) && v.pc.Health? && !ch.Start? && Possible(NextHealth(v.sh, v.pc.he, ch), v)
    ensures w == Done(v, x.t, NextHealth(v.sh, v.pc.he, ch).value) && x.At(w)
  {
    Act(x, v, ch);
    w := Done(v, x.t, NextHealth(v.sh, v.pc.he, ch).value);
  }

  lemma InCheck(x: Stretch, v: View, ch: Choice) returns (w: View)
    requires x.At(v) && v.pc.Check? && !ch.Start? && Possible(NextCheck(x.cfg, v.sh, v.pc.ck, ch), v)
    ensures w == Done(v, x.t, NextCheck(x.cfg, v.sh, v.pc.ck, ch).value) && x.At(w)
  {
    Act(x, v, ch);
    w := Done(v, x.t, NextCheck(x.cfg, v.sh, v.pc.ck, ch).value);
  }

  lemma InCleanup(x: Stretch, v: View, ch: Choice) returns (w: View)
    requires x.At(v) && v.pc.Cleanup? && !ch.Start? && Possible(NextCleanup(v.sh, v.pc.cl, ch, 0), v)
    ensures w == Done(v, x.t, NextCleanup(v.sh, v.pc.cl, ch, 0).value) && x.At(w)
  {
    Act(x, v, ch);
    w := Done(v, x.t, NextCleanup(v.sh, v.pc.cl, ch, 0).value);
  }

  lemma InStopping(x: Stretch, v: View, ch: Choice) returns (w: View)
    requires x.At(v) && v.pc.Stopping? && !ch.Start? && Possible(NextStopping(v.sh, x.t, v.pc.rest), v)
    ensures w == Done(v, x.t, NextStopping(v.sh, x.t, v.pc.rest).value) && x.At(w)
  {
    Act(x, v, ch);
    w := Done(v, x.t, NextStopping(v.sh, x.t, v.pc.rest).value);
  }

  lemma InShutting(x: Stretch, v: View, ch: Choice) returns (w: View)
    requires x.At(v) && v.pc.Shutting? && !ch.Start? && Possible(NextShutting(v.sh, x.t, v.pc.cz), v)
    ensures w == Done(v, x.t, NextShutting(v.sh, x.t, v.pc.cz).value) && x.At(w)
  {
    Act(x, v, ch);
    w := Done(v, x.t, NextShutting(v.sh, x.t, v.pc.cz).value);
  }

  lemma FinishStartup(x: Stretch, v: View) returns (w: View)
    requires x.At(v) && v.pc.Finishing? && v.pc.o.ByStartup?
    ensures w == View(v.sh, v.locks.(lifecycleMu := None), Idle) && x.At(w)
  {
    Act(x, v, Go);
    w := View(v.sh, v.locks.(lifecycleMu := None), Idle);
  }

  /** Where an operation starts. */
  function Entry(op: Op): PC {
    match op
    case OpStartup => Startup(StartAt.Lock)
    case OpReportHealth => Health(HealthAt.RLock)
    case OpReconnect => Reconnect(ToCaller, ReconnectAt.Lock)
    case OpGetDB => BeginGet(GetToCaller)
    case OpGetValidatedConn => BeginGet(GetToValidate)
    case OpCheckHealth => Probe(ProbeToCheck, ProbeAt.Flag)
    case OpIsConnected => Probe(ProbeToCaller, ProbeAt.Flag)
    case OpGetStats => Stats(StatsAt.RLock)
    case OpSet => Setting(SetAt.LockMu)
    case _ => Cleanup(Cas)
  }

  /** An idle caller begins an operation. */
  lemma Calls(cfg: Config, from: State, s: State, t: Tid, op: Op) returns (x: Stretch, v: View)
    requires Can(cfg, from, s) && ThreadOf(s, t) == Thread(Caller, Idle)
    requires !op.Tick?
    ensures x == Stretch(cfg, from, s.threads - {t}, t, Caller) && v == View(s.sh, s.locks, Entry(op)) && x.At(v)
  {
    assert NextIdle(cfg, s.sh, t, Caller, Start(op)) == Some(Out(s.sh, Entry(op), NoLock, None));
    CanOn(cfg, from, s, Label(t, Start(op), 0));
    x, v := Stretch(cfg, from, s.threads - {t}, t, Caller), View(s.sh, s.locks, Entry(op));
    assert (s.threads - {t})[t := Thread(Caller, Entry(op))] == s.threads[t := Thread(Caller, Entry(op))];
  }

  /** Another goroutine, in the middle of something or just started, goes on. */
  lemma Switch(x: Stretch, v: View, u: Tid) returns (y: Stretch, w: View)
    requires x.At(v) && u in x.others && u != x.t
    ensures y == x.(others := (x.others - {u})[x.t := Thread(x.home, v.pc)], t := u, home := x.others[u].home)
    ensures w == v.(pc := x.others[u].pc) && y.At(w)
  {
    y := x.(others := (x.others - {u})[x.t := Thread(x.home, v.pc)], t := u, home := x.others[u].home);
    w := v.(pc := x.others[u].pc);
    assert Among(y.others, u, y.home, w).threads == Among(x.others, x.t, x.home, v).threads;
  }

  lemma ReadersLeave(t: Tid)
    ensures {} + {t} - {t} == {}
  {
  }

  // ---------------------------------------------------------------- Startup

  /** Nothing that is not needed. */
  const BARE := Config(false, 0, false, false, false, false, false, false, false)

  predicate Plain(cfg: Config) {
    !cfg.retryEnabled && !cfg.warmup && !cfg.hasRuntime
  }

  function Held(t: Tid): Locks {
    FREE.(lifecycleMu := Some(t))
  }

  /** After a successful connect, after the store of its pool, and with the components stored. */
  function WithConnect(sh: Shared): Shared {
    var ps, m := sh.pools, sh.metrics;
    sh.(pools := ps.(created := ps.created + 1, verified := ps.verified + {ps.created}),
        metrics := m.(attempts := m.attempts + 1, successes := m.successes + 1))
  }

  function WithPool(sh: Shared, p: PoolId): Shared {
    var ps := sh.pools;
    var orphans := if ps.db.Some? then ps.orphans + {ps.db.value} else ps.orphans;
    sh.(pools := ps.(db := Some(p), history := ps.history + [p], orphans := orphans, connected := true))
  }

  function WithComponents(cfg: Config, sh: Shared): Shared {
    sh.(bg := sh.bg.(components := Components(cfg, sh.bg.generations), generations := sh.bg.generations + 1))
  }

  function Started(cfg: Config, sh: Shared): Shared {
    WithComponents(cfg, WithPool(WithConnect(sh), sh.pools.created))
  }

  lemma Guards(x: Stretch, v: View) returns (w: View)
    requires x.At(v) && v.pc == Startup(StartAt.Lock) && v.locks == FREE && !v.sh.pools.connected && !v.sh.closing
    ensures w == View(v.sh, Held(x.t), Connecting(ByStartup(v.sh.pools.db, v.sh.pools.created), Begin)) && x.At(w)
  {
    w := InStartup(x, v, Go);
    w := InStartup(x, w, Go);
    w := InStartup(x, w, Go);
    w := InStartup(x, w, Go);
  }

  lemma Connects(x: Stretch, v: View) returns (w: View)
    requires x.At(v) && v.pc.Connecting? && v.pc.co.Begin? && v.pc.o.ByStartup? && Plain(x.cfg)
    ensures w == View(WithConnect(v.sh), v.locks, Publishing(v.pc.o, CheckStale(v.sh.pools.created))) && x.At(w)
  {
    w := InConnect(x, v, Go);
    w := InConnect(x, w, Go);
    w := InConnect(x, w, Go);
    w := InConnect(x, w, Go);
    w := InConnect(x, w, Go);
  }

  lemma Publishes(x: Stretch, v: View) returns (w: View)
    requires x.At(v) && v.pc.Publishing? && v.pc.pu.CheckStale? && v.pc.o.ByStartup? && v.locks == Held(x.t)
    ensures w == View(WithPool(v.sh, v.pc.pu.p), v.locks, Startup(SpawnWarmer)) && x.At(w)
  {
    w := InPublish(x, v, Go);
    w := InPublish(x, w, Go);
    w := InPublish(x, w, Go);
    w := InPublish(x, w, Go);
    w := InPublish(x, w, Go);
    w := InPublish(x, w, Go);
  }

  lemma Equips(x: Stretch, v: View) returns (w: View)
    requires x.At(v) && v.pc == Startup(SpawnWarmer) && v.locks == Held(x.t) && Plain(x.cfg)
    ensures var sh := WithComponents(x.cfg, v.sh);
            w == View(sh, v.locks, Startup(StartComponents(sh.bg.components))) && x.At(w)
  {
    w := EquipsLocked(x, v);
    w := InStartup(x, w, Go);
    w := InStartup(x, w, Go);
  }

  lemma EquipsLocked(x: Stretch, v: View) returns (w: View)
    requires x.At(v) && v.pc == Startup(SpawnWarmer) && v.locks == Held(x.t) && Plain(x.cfg)
    ensures w == View(v.sh, v.locks.(writer := Some(x.t)), Startup(StoreComponents)) && x.At(w)
  {
    w := InStartup(x, v, Go);
    w := InStartup(x, w, Go);
    w := InStartup(x, w, Go);
  }

  /** From the guards to the start of the components. */
  lemma ConnectsAndEquips(x: Stretch, v: View) returns (w: View)
    requires x.At(v) && v.pc.Connecting? && v.pc.co.Begin? && v.pc.o.ByStartup? && v.locks == Held(x.t) && Plain(x.cfg)
    ensures var sh := Started(x.cfg, v.sh);
            w == View(sh, v.locks, Startup(StartComponents(sh.bg.components))) && x.At(w)
  {
    w := Connects(x, v);
    w := Publishes(x, w);
    w := Equips(x, w);
  }

  /** From the start of no components to the return. */
  lemma Returns(x: Stretch, v: View, child: Tid) returns (y: Stretch, w: View)
    requires x.At(v) && v.pc == Startup(StartComponents([])) && v.locks == Held(x.t) && Plain(x.cfg)
    requires child !in x.others && child != x.t
    ensures y == x.(others := x.others[child := Thread(Reporter, Idle)]) && w == View(v.sh, FREE, Idle) && y.At(w)
  {
    w := InStartup(x, v, Go);
    y := ActSpawning(x, w, Go, child);
    w := Done(w, x.t, NextStartup(x.cfg, w.sh, SpawnReporter, Go, child).value);
    w := Announces(y, w);
  }

  lemma Announces(x: Stretch, v: View) returns (w: View)
    requires x.At(v) && v.pc.Announcing? && v.pc.an.RLock? && v.pc.o.ByStartup? && v.locks == Held(x.t) && Plain(x.cfg)
    ensures w == View(v.sh, FREE, Idle) && x.At(w)
  {
    w := InAnnounce(x, v, Go);
    w := InAnnounce(x, w, Go);
    ReadersLeave(x.t);
    w := InAnnounce(x, w, Go);
    w := FinishStartup(x, w);
  }

  /** An undisturbed Startup with a willing driver succeeds. */
  lemma StartupSucceeds(from: State, s: State, t: Tid, child: Tid) returns (s': State)
    requires Can(BARE, from, s) && s.locks == FREE && !s.sh.pools.connected && !s.sh.closing
    requires ThreadOf(s, t) == Thread(Caller, Idle) && child !in s.threads && child != t
    ensures s' == State(Started(BARE, s.sh), FREE,
        s.threads[child := Thread(Reporter, Idle)][t := Thread(Caller, Idle)])
    ensures Can(BARE, from, s')
  {
    var x, v := Calls(BARE, from, s, t, OpStartup);
    v := Guards(x, v);
    v := ConnectsAndEquips(x, v);
    assert v.sh.bg.components == [];
    x, v := Returns(x, v, child);
    s' := Among(x.others, t, Caller, v);
    assert s'.threads == s.threads[child := Thread(Reporter, Idle)][t := Thread(Caller, Idle)];
  }

  /** A plugin after its Startup, with an idle caller and the stats reporter. */
  predicate Running(s: State) {
    && s.locks == FREE && s.threads == map[1 := Thread(Reporter, Idle)][0 := Thread(Caller, Idle)]
    && !s.sh.closing && s.sh.bg.components == [] && s.sh.bg.warmers == {}
    && var ps := s.sh.pools;
    && ps.connected && ps.db == Some(0) && ps.created == 1 && ps.orphans == {} && ps.closes == multiset{} && !ps.shut
  }

  lemma CanRun() returns (s: State)
    ensures Can(BARE, INIT, s) && Running(s)
  {
    CanStay(BARE, INIT);
    s := StartupSucceeds(INIT, INIT, 0, 1);
  }

  // ---------------------------------------------------------------- an overwritten pool

  /** A failed health check clears `connected`. */
  lemma HealthFails(x: Stretch, v: View) returns (w: View)
    requires x.At(v) && v.pc == Health(HealthAt.RLock) && v.locks == FREE
    requires v.sh.pools.connected && v.sh.pools.db.Some? && !v.sh.closing
    ensures w == View(v.sh.(pools := v.sh.pools.(connected := false)), FREE, Idle) && x.At(w)
  {
    w := HealthAsks(x, v);
    w := InHealth(x, w, Bad);
    w := InHealth(x, w, Go);
  }

  lemma HealthAsks(x: Stretch, v: View) returns (w: View)
    requires x.At(v) && v.pc == Health(HealthAt.RLock) && v.locks == FREE
    requires v.sh.pools.connected && v.sh.pools.db.Some? && !v.sh.closing
    ensures w == View(v.sh, FREE, Health(HealthAt.Query(v.sh.pools.db.value))) && x.At(w)
  {
    w := InHealth(x, v, Go);
    w := InHealth(x, w, Go);
    ReadersLeave(x.t);
    w := InHealth(x, w, Go);
    w := InHealth(x, w, Go);
  }

  /** Startup, a failed health check, Startup. */
  lemma StartsTwice() returns (s: State)
    ensures Can(BARE, INIT, s) && s.locks == FREE && s.sh.pools.db == Some(1) && s.sh.pools.orphans == {0}
  {
    var r := CanRun();
    var x, v := Calls(BARE, INIT, r, 2, OpReportHealth);
    v := HealthFails(x, v);
    s := StartupSucceeds(INIT, Among(x.others, 2, Caller, v), 0, 3);
    assert {} + {0} == {0};
  }

  /** The first pool is open, and no longer published. */
  lemma SecondStartupLeaks() returns (states: seq<State>, labels: seq<Label>)
    ensures IsRun(BARE, states, labels)
    ensures var s := states[|labels|];
            && s.locks == FREE && s.sh.pools.db == Some(1)
            && s.sh.pools.orphans == {0} && OpenPools(s.sh.pools) == {0, 1}
  {
    var s := StartsTwice();
    states, labels := RunTo(BARE, s);
    RunInv(BARE, states, labels, |labels|);
    OpenPoolsQuiet(BARE, s);
    assert OpenPools(s.sh.pools) == {0, 1};
  }

  // ---------------------------------------------------------------- an abandoned shutdown

  /** A Cleanup up to its first phase. */
  lemma CleanupBegins(x: Stretch, v: View) returns (w: View)
    requires x.At(v) && v.pc == Cleanup(Cas) && !v.sh.closing && v.locks.writer.None? && v.locks.readers == {}
    ensures w == View(v.sh.(closing := true, cancelled := true), v.locks,
        Cleanup(Spawn1(v.sh.bg.components))) && x.At(w)
  {
    w := InCleanup(x, v, Go);
    w := InCleanup(x, w, Go);
    w := InCleanup(x, w, Go);
    w := InCleanup(x, w, Go);
    ReadersLeave(x.t);
  }

  /** A Cleanup about to start its first phase, and nothing else under way. */
  lemma CleanupWaiting() returns (s: State)
    ensures Can(BARE, INIT, s) && s.sh.closing && s.sh.pools.db == Some(0) && s.sh.pools.closes == multiset{}
    ensures s.threads == map[0 := Thread(Caller, Idle), 1 := Thread(Reporter, Idle),
        2 := Thread(Caller, Cleanup(Spawn1([])))]
  {
    var r := CanRun();
    var x, v := Calls(BARE, INIT, r, 2, OpCleanup);
    v := CleanupBegins(x, v);
    s := Among(x.others, 2, Caller, v);
    assert s.threads == map[0 := Thread(Caller, Idle), 1 := Thread(Reporter, Idle),
        2 := Thread(Caller, Cleanup(Spawn1([])))];
  }

  /** Its context has expired: that is the last thing that happens, nothing is under way, and the pool is
      open. */
  lemma AbandonedPoolStaysOpen() returns (states: seq<State>, labels: seq<Label>)
    ensures IsRun(BARE, states, labels) && labels != []
    ensures Abandons(states[|labels| - 1], labels[|labels| - 1])
    ensures var s := states[|labels|];
            && s.sh.closing && AtRest(s)
            && s.sh.pools.db == Some(0) && s.sh.pools.closes[0] == 0
  {
    var s := CleanupWaiting();
    states, labels := RunTo(BARE, s);
    var l := Label(2, Bad, 0);
    var s' := State(s.sh, s.locks, s.threads[2 := Thread(Caller, Idle)]);
    AbandonsAtOnce(s, l);
    ExtendRun(BARE, states, labels, l, s');
    states, labels := states + [s'], labels + [l];
  }

  lemma AbandonsAtOnce(s: State, l: Label)
    requires ThreadOf(s, l.t) == Thread(Caller, Cleanup(Spawn1([]))) && l.ch == Bad
    ensures Abandons(s, l) && Step(BARE, s, l) == Some(State(s.sh, s.locks, s.threads[l.t := Thread(Caller, Idle)]))
  {
  }

  // ---------------------------------------------------------------- nil handed out

  /** The cache answers IsConnectedContext. */
  lemma ProbeAnswers(x: Stretch, v: View) returns (w: View)
    requires x.At(v) && v.pc.Probe? && v.pc.pr.Flag? && v.locks == FREE
    requires v.sh.pools.connected && v.sh.pools.db.Some? && !v.sh.closing
    ensures w == View(v.sh, FREE, AfterProbing(x.cfg, v.pc.pk, true)) && x.At(w)
  {
    w := InProbe(x, v, Go);
    w := InProbe(x, w, Go);
    w := InProbe(x, w, Go);
    w := InProbe(x, w, Go);
    ReadersLeave(x.t);
    w := InProbe(x, w, Go);
  }

  function WithoutPool(sh: Shared, p: PoolId): Shared {
    var ps := sh.pools;
    sh.(pools := ps.(closes := ps.closes + multiset{p}, db := None, shut := true, connected := false))
  }

  /** Phase two, undisturbed. */
  lemma Shuts(x: Stretch, v: View) returns (w: View)
    requires x.At(v) && v.pc == Shutting(CloseAt.Lock) && v.locks == FREE && v.sh.pools.db.Some?
    ensures var sh := WithoutPool(v.sh, v.sh.pools.db.value);
            w == View(sh.(bg := sh.bg.(done2 := sh.bg.done2 + {x.t})), FREE, Exited) && x.At(w)
  {
    w := ShutsLocked(x, v);
    w := Empties(x, w);
    w := InShutting(x, w, Go);
    w := InShutting(x, w, Go);
  }

  lemma Empties(x: Stretch, v: View) returns (w: View)
    requires x.At(v) && v.pc == Shutting(CloseDb) && v.sh.pools.db.Some?
    ensures w == View(WithoutPool(v.sh, v.sh.pools.db.value), v.locks, Shutting(CloseAt.UnlockMu)) && x.At(w)
  {
    w := InShutting(x, v, Go);
    w := InShutting(x, w, Go);
    w := InShutting(x, w, Go);
  }

  lemma ShutsLocked(x: Stretch, v: View) returns (w: View)
    requires x.At(v) && v.pc == Shutting(CloseAt.Lock) && v.locks == FREE
    ensures w == View(v.sh, Locks(Some(x.t), Some(x.t), {}), Shutting(CloseDb)) && x.At(w)
  {
    w := InShutting(x, v, Go);
    w := InShutting(x, w, Go);
    w := InShutting(x, w, Go);
  }

  lemma PhaseOneBegins(x: Stretch, v: View, c1: Tid) returns (y: Stretch, w: View)
    requires x.At(v) && v.pc.Cleanup? && v.pc.cl.Spawn1? && c1 !in x.others && c1 != x.t
    ensures y == x.(others := x.others[c1 := Thread(Phase1, Stopping(v.pc.cl.cs))]) && y.At(w)
    ensures w == View(v.sh, v.locks, Cleanup(Await1(c1)))
  {
    y := ActSpawning(x, v, Go, c1);
    w := Done(v, x.t, NextCleanup(v.sh, v.pc.cl, Go, c1).value);
  }

  /** Phase one, when there is nothing to stop. */
  lemma PhaseOne(x: Stretch, v: View, c1: Tid) returns (y: Stretch, w: View)
    requires x.At(v) && x.home == Caller && v.pc == Cleanup(Spawn1([])) && v.sh.bg.warmers == {}
    requires x.t !in x.others && c1 !in x.others && c1 != x.t
    ensures y == x.(others := x.others[c1 := Thread(Phase1, Exited)]) && y.At(w)
    ensures w == View(v.sh.(bg := v.sh.bg.(done1 := v.sh.bg.done1 + {c1})), v.locks, Cleanup(Await1(c1)))
  {
    y, w := PhaseOneBegins(x, v, c1);
    y, w := Switch(y, w, c1);
    w := InStopping(y, w, Go);
    y, w := Switch(y, w, x.t);
    assert y.others == x.others[c1 := Thread(Phase1, Exited)];
  }

  /** Up to the start of phase two. */
  lemma PhaseTwoBegins(x: Stretch, v: View, c1: Tid, c2: Tid) returns (y: Stretch, w: View)
    requires x.At(v) && v.pc == Cleanup(Await1(c1)) && c1 in v.sh.bg.done1
    requires c2 !in x.others && c2 != x.t
    ensures y == x.(others := x.others[c2 := Thread(Phase2, Shutting(CloseAt.Lock))])
    ensures w == View(v.sh, v.locks, Cleanup(Await2(c2))) && y.At(w)
  {
    w := InCleanup(x, v, Go);
    w := InCleanup(x, w, Go);
    y := ActSpawning(x, w, Go, c2);
    w := Done(w, x.t, NextCleanup(w.sh, Spawn2, Go, c2).value);
  }

  /** A Cleanup with nothing to stop, up to the start of phase two. */
  lemma CleanupToPhaseTwo(cfg: Config, from: State, s: State, t: Tid, c1: Tid, c2: Tid) returns (x: Stretch, v: View)
    requires Can(cfg, from, s) && ThreadOf(s, t) == Thread(Caller, Idle) && t != c1 && t != c2 && c1 != c2
    requires c1 !in s.threads && c2 !in s.threads && !s.sh.closing && s.sh.bg.components == [] && s.sh.bg.warmers == {}
    requires s.locks.writer.None? && s.locks.readers == {}
    ensures x == Stretch(cfg, from,
        (s.threads - {t})[c1 := Thread(Phase1, Exited)][c2 := Thread(Phase2, Shutting(CloseAt.Lock))],
                         t, Caller)
    ensures x.At(v) && v == View(s.sh.(closing := true, cancelled := true,
        bg := s.sh.bg.(done1 := s.sh.bg.done1 + {c1})),
                                 s.locks, Cleanup(Await2(c2)))
  {
    x, v := Calls(cfg, from, s, t, OpCleanup);
    v := CleanupBegins(x, v);
    x, v := PhaseOne(x, v, c1);
    x, v := PhaseTwoBegins(x, v, c1, c2);
  }

  /** A GetValidatedConn that has found the plugin connected. */
  lemma FoundConnected() returns (s: State)
    ensures Can(BARE, INIT, s) && s.locks == FREE && s.sh.pools.db.Some?
    ensures !s.sh.closing && s.sh.bg.components == [] && s.sh.bg.warmers == {}
    ensures s.threads == map[0 := Thread(Caller, Idle), 1 := Thread(Reporter, Idle),
                             2 := Thread(Caller, Get(GetToValidate, GetAt.CheckCtx))]
  {
    var r := CanRun();
    var x, v := Calls(BARE, INIT, r, 2, OpGetValidatedConn);
    v := ProbeAnswers(x, v);
    s := Among(x.others, 2, Caller, v);
    assert s.threads == map[0 := Thread(Caller, Idle), 1 := Thread(Reporter, Idle),
                            2 := Thread(Caller, Get(GetToValidate, GetAt.CheckCtx))];
  }

  /** And then a whole Cleanup. */
  lemma ShutBehindItsBack() returns (x: Stretch, v: View)
    ensures x.cfg == BARE && x.from == INIT && x.t == 2 && x.home == Caller && x.At(v)
    ensures v.pc == Get(GetToValidate, GetAt.CheckCtx) && v.locks == FREE && v.sh.pools.db.None?
  {
    var s := FoundConnected();
    x, v := CleanupToPhaseTwo(BARE, INIT, s, 3, 4, 5);
    x, v := Switch(x, v, 5);
    v := Shuts(x, v);
    x, v := Switch(x, v, 2);
  }

  lemma ReadsNil(x: Stretch, v: View) returns (w: View)
    requires x.At(v) && v.pc == Get(GetToValidate, GetAt.CheckCtx) && v.locks == FREE && v.sh.pools.db.None?
    ensures w == View(v.sh, FREE, Get(GetToValidate, Return(None))) && x.At(w)
  {
    w := InGet(x, v, Go);
    w := InGet(x, w, Go);
    w := InGet(x, w, Go);
    ReadersLeave(x.t);
    w := InGet(x, w, Go);
  }

  /** GetDBWithContext is about to return nil without an error. */
  lemma NilHandedOut() returns (states: seq<State>, labels: seq<Label>)
    ensures IsRun(BARE, states, labels)
    ensures ThreadOf(states[|labels|], 2).pc == Get(GetToValidate, Return(None))
  {
    var x, v := ShutBehindItsBack();
    v := ReadsNil(x, v);
    states, labels := RunTo(BARE, Among(x.others, 2, Caller, v));
  }

  /** And GetValidatedConn dereferences it. */
  lemma NilDereferenced() returns (states: seq<State>, labels: seq<Label>)
    ensures IsRun(BARE, states, labels)
    ensures ThreadOf(states[|labels|], 2).pc == Crashed
  {
    var x, v := ShutBehindItsBack();
    v := ReadsNil(x, v);
    v := InGet(x, v, Go);
    v := InValidate(x, v, Go);
    states, labels := RunTo(BARE, Among(x.others, 2, Caller, v));
  }

  // ---------------------------------------------------------------- components started too late

  const MONITORED := BARE.(monitor := true)

  /** A Startup that has connected. */
  lemma Connected() returns (s: State)
    ensures Can(MONITORED, INIT, s) && s.locks == Held(0) && s.sh == WithConnect(INIT_SHARED)
    ensures s.threads == map[0 := Thread(Caller, Publishing(ByStartup(None, 0), CheckStale(0)))]
  {
    CanStay(MONITORED, INIT);
    var x, v := Calls(MONITORED, INIT, INIT, 0, OpStartup);
    v := Guards(x, v);
    v := Connects(x, v);
    s := Among(x.others, 0, Caller, v);
    assert s.threads == map[0 := Thread(Caller, Publishing(ByStartup(None, 0), CheckStale(0)))];
  }

  /** A Cleanup goes on to its second phase before the Startup publishes its pool. */
  lemma CleanupOvertakes() returns (x: Stretch, v: View)
    ensures x.cfg == MONITORED && x.from == INIT && x.t == 0 && x.home == Caller && x.At(v)
    ensures v.pc == Publishing(ByStartup(None, 0), CheckStale(0)) && v.locks == Held(0) && v.sh.bg.generations == 0
    ensures 4 !in x.others && 3 in x.others && x.others[3] == Thread(Phase2, Shutting(CloseAt.Lock))
  {
    var s := Connected();
    x, v := CleanupToPhaseTwo(MONITORED, INIT, s, 1, 2, 3);
    x, v := Switch(x, v, 0);
  }

  /** The Startup publishes its pool and stores its components. */
  lemma EquipsLate() returns (x: Stretch, v: View)
    ensures x.cfg == MONITORED && x.from == INIT && x.t == 0 && x.home == Caller && x.At(v)
    ensures v.pc == Startup(StartComponents([Component(0, PoolMonitoring)]))
    ensures 4 !in x.others && 3 in x.others && x.others[3] == Thread(Phase2, Shutting(CloseAt.Lock))
  {
    x, v := CleanupOvertakes();
    v := Publishes(x, v);
    v := Equips(x, v);
    assert v.sh.bg.components == [Component(0, PoolMonitoring)];
  }

  /** The late Startup starts its pool monitor: it runs while phase two waits for the lock, though phase
      one is over. */
  lemma LateComponent() returns (states: seq<State>, labels: seq<Label>)
    ensures IsRun(MONITORED, states, labels)
    ensures var s := states[|labels|];
            && ThreadOf(s, 3).pc == Shutting(CloseAt.Lock)
            && ThreadOf(s, 4) == Thread(Worker(Component(0, PoolMonitoring)), Idle)
  {
    var x, v := EquipsLate();
    x, v := StartsComponent(x, v, 4);
    states, labels := RunTo(MONITORED, Among(x.others, 0, Caller, v));
  }

  lemma StartsComponent(x: Stretch, v: View, child: Tid) returns (y: Stretch, w: View)
    requires x.At(v) && v.pc.Startup? && v.pc.st.StartComponents? && v.pc.st.rest != [] && child !in x.others &&
        child != x.t
    ensures y == x.(others := x.others[child := Thread(Worker(v.pc.st.rest[0]), Idle)]) && y.At(w)
    ensures w == View(v.sh.(bg := v.sh.bg.(live := v.sh.bg.live[child := v.pc.st.rest[0]])), v.locks,
        Startup(StartComponents(v.pc.st.rest[1..])))
  {
    y := ActSpawning(x, v, Go, child);
    w := Done(v, x.t, NextStartup(x.cfg, v.sh, v.pc.st, Go, child).value);
  }

  // ---------------------------------------------------------------- components that are overwritten

  function Watching(g: nat): Component {
    Component(g, PoolMonitoring)
  }

  function WithMonitor(sh: Shared, child: Tid): Shared {
    var started := Started(MONITORED, sh);
    started.(bg := started.bg.(live := started.bg.live[child := Watching(sh.bg.generations)]))
  }

  /** A Startup up to the start of its pool monitor. */
  lemma EquipsMonitored(from: State, s: State, t: Tid) returns (x: Stretch, v: View)
    requires Can(MONITORED, from, s) && s.locks == FREE && !s.sh.pools.connected && !s.sh.closing
    requires ThreadOf(s, t) == Thread(Caller, Idle)
    ensures x == Stretch(MONITORED, from, s.threads - {t}, t, Caller) && x.At(v)
    ensures v == View(Started(MONITORED, s.sh), Held(t), Startup(StartComponents([Watching(s.sh.bg.generations)])))
  {
    x, v := Calls(MONITORED, from, s, t, OpStartup);
    v := Guards(x, v);
    v := ConnectsAndEquips(x, v);
    assert v.sh.bg.components == [Watching(s.sh.bg.generations)];
  }

  lemma StartsLast(x: Stretch, v: View, child: Tid, c: Component) returns (y: Stretch, w: View)
    requires x.At(v) && v.pc == Startup(StartComponents([c])) && child !in x.others && child != x.t
    ensures y == x.(others := x.others[child := Thread(Worker(c), Idle)]) && y.At(w)
    ensures w == View(v.sh.(bg := v.sh.bg.(live := v.sh.bg.live[child := c])), v.locks, Startup(StartComponents([])))
  {
    assert [c][1..] == [];
    y, w := StartsComponent(x, v, child);
  }

  lemma Rejoins(threads: map<Tid, Thread>, t: Tid, th: Thread, c: Tid, child: Thread, r: Tid)
    requires c != t && r != t
    ensures (threads - {t})[c := child][r := Thread(Reporter, Idle)][t := th] ==
            threads[c := child][r := Thread(Reporter, Idle)][t := th]
  {
  }

  /** An undisturbed Startup that starts a pool monitor. */
  lemma StartsMonitored(from: State, s: State, t: Tid, c: Tid, r: Tid) returns (s': State)
    requires Can(MONITORED, from, s) && s.locks == FREE && !s.sh.pools.connected && !s.sh.closing
    requires ThreadOf(s, t) == Thread(Caller, Idle) && c !in s.threads && r !in s.threads && c != t && r != t && c != r
    ensures s' == State(WithMonitor(s.sh, c), FREE,
        s.threads[c := Thread(Worker(Watching(s.sh.bg.generations)), Idle)][r := Thread(Reporter, Idle)]
                 [t := Thread(Caller, Idle)])
    ensures Can(MONITORED, from, s')
  {
    var x, v := EquipsMonitored(from, s, t);
    x, v := StartsLast(x, v, c, Watching(s.sh.bg.generations));
    x, v := Returns(x, v, r);
    s' := Among(x.others, t, Caller, v);
    Rejoins(s.threads, t, Thread(Caller, Idle), c, Thread(Worker(Watching(s.sh.bg.generations)), Idle), r);
  }

  /** Startup and a failed health check. */
  lemma MonitorsOnce() returns (s: State)
    ensures Can(MONITORED, INIT, s) && s.locks == FREE && !s.sh.closing && !s.sh.pools.connected
    ensures s.threads == map[1 := Thread(Worker(Watching(0)), Idle), 2 := Thread(Reporter, Idle),
                             0 := Thread(Caller, Idle), 3 := Thread(Caller, Idle)]
    ensures s.sh.pools.created == 1 && s.sh.pools.closes == multiset{} && s.sh.bg.warmers == {}
    ensures s.sh.bg.generations == 1 && s.sh.bg.live == map[1 := Watching(0)]
  {
    CanStay(MONITORED, INIT);
    s := StartsMonitored(INIT, INIT, 0, 1, 2);
    var x, v := Calls(MONITORED, INIT, s, 3, OpReportHealth);
    v := HealthFails(x, v);
    s := Among(x.others, 3, Caller, v);
  }

  /** And Startup again: two pool monitors run, and Cleanup sees the second. */
  lemma MonitorsTwice() returns (s: State)
    ensures Can(MONITORED, INIT, s) && s.locks == FREE && !s.sh.closing
    ensures s.threads == map[1 := Thread(Worker(Watching(0)), Idle), 2 := Thread(Reporter, Idle),
                             0 := Thread(Caller, Idle), 3 := Thread(Caller, Idle),
                             4 := Thread(Worker(Watching(1)), Idle), 5 := Thread(Reporter, Idle)]
    ensures s.sh.pools.db == Some(1) && s.sh.pools.closes == multiset{} && s.sh.bg.warmers == {}
    ensures s.sh.bg.components == [Watching(1)] && s.sh.bg.live == map[1 := Watching(0), 4 := Watching(1)]
  {
    s := MonitorsOnce();
    s := StartsMonitored(INIT, s, 0, 4, 5);
  }

  /** A component goroutine returns once its channel is closed. */
  lemma WorkerReturns(x: Stretch, v: View) returns (w: View)
    requires x.At(v) && x.home.Worker? && v.pc == Idle && x.home.c in v.sh.bg.stopped
    ensures w == View(v.sh.(bg := v.sh.bg.(live := v.sh.bg.live - {x.t})), v.locks, Exited) && x.At(w)
  {
    Act(x, v, Go);
    w := View(v.sh.(bg := v.sh.bg.(live := v.sh.bg.live - {x.t})), v.locks, Exited);
  }

  /** The first phase finds nothing more of the component it has told to stop. */
  lemma FindsItGone(x: Stretch, v: View, c: Component) returns (w: View)
    requires x.At(v) && v.pc == Waiting([c]) && c !in v.sh.bg.live.Values && v.sh.bg.warmers == {}
    ensures w == View(v.sh.(bg := v.sh.bg.(done1 := v.sh.bg.done1 + {x.t})), v.locks, Exited) && x.At(w)
  {
    assert [c][1..] == [];
    Act(x, v, Go);
    w := View(v.sh, v.locks, Stopping([]));
    w := InStopping(x, w, Go);
  }

  lemma CallsCleanup() returns (x: Stretch, v: View)
    ensures x.cfg == MONITORED && x.from == INIT && x.At(v) && v.locks == FREE && !v.sh.closing
    ensures x.t == 6 && x.home == Caller && v.pc == Cleanup(Cas) && v.sh.bg.components == [Watching(1)]
    ensures 4 in x.others && x.others[4] == Thread(Worker(Watching(1)), Idle) && 7 !in x.others && 8 !in x.others
    ensures v.sh.pools.db == Some(1) && v.sh.pools.closes == multiset{} && v.sh.bg.warmers == {}
    ensures v.sh.bg.live == map[1 := Watching(0), 4 := Watching(1)]
  {
    var s := MonitorsTwice();
    x, v := Calls(MONITORED, INIT, s, 6, OpCleanup);
  }

  /** A Cleanup up to its first phase. */
  lemma SeesSecond() returns (x: Stretch, v: View)
    ensures x.cfg == MONITORED && x.from == INIT && x.At(v) && v.locks == FREE
    ensures x.t == 6 && x.home == Caller && v.pc == Cleanup(Spawn1([Watching(1)]))
    ensures 4 in x.others && x.others[4] == Thread(Worker(Watching(1)), Idle) && 7 !in x.others && 8 !in x.others
    ensures v.sh.pools.db == Some(1) && v.sh.pools.closes == multiset{} && v.sh.bg.warmers == {}
    ensures v.sh.bg.live == map[1 := Watching(0), 4 := Watching(1)]
  {
    x, v := CallsCleanup();
    v := CleanupBegins(x, v);
  }

  /** It tells the second monitor to stop. */
  lemma TellsSecond() returns (x: Stretch, v: View)
    ensures x.cfg == MONITORED && x.from == INIT && x.At(v) && v.locks == FREE
    ensures x.t == 7 && x.home == Phase1 && v.pc == Waiting([Watching(1)])
    ensures 4 in x.others && x.others[4] == Thread(Worker(Watching(1)), Idle)
    ensures 6 in x.others && x.others[6] == Thread(Caller, Cleanup(Await1(7))) && 8 !in x.others
    ensures v.sh.pools.db == Some(1) && v.sh.pools.closes == multiset{} && v.sh.bg.warmers == {}
    ensures v.sh.bg.live == map[1 := Watching(0), 4 := Watching(1)] && Watching(1) in v.sh.bg.stopped
  {
    x, v := SeesSecond();
    x, v := PhaseOneBegins(x, v, 7);
    x, v := Switch(x, v, 7);
    v := InStopping(x, v, Go);
  }

  lemma SecondReturns() returns (x: Stretch, v: View)
    ensures x.cfg == MONITORED && x.from == INIT && x.At(v) && v.locks == FREE && x.t == 4
    ensures 7 in x.others && x.others[7] == Thread(Phase1, Waiting([Watching(1)]))
    ensures 6 in x.others && x.others[6] == Thread(Caller, Cleanup(Await1(7))) && 8 !in x.others
    ensures v.sh.pools.db == Some(1) && v.sh.pools.closes == multiset{} && v.sh.bg.warmers == {}
    ensures v.sh.bg.live == map[1 := Watching(0)]
  {
    x, v := TellsSecond();
    x, v := Switch(x, v, 4);
    v := WorkerReturns(x, v);
    assert v.sh.bg.live == map[1 := Watching(0)];
  }

  /** And goes on to its second phase when that has returned. */
  lemma StopsSecond() returns (x: Stretch, v: View)
    ensures x.cfg == MONITORED && x.from == INIT && x.At(v) && v.locks == FREE
    ensures x.t == 6 && x.home == Caller && v.pc == Cleanup(Await1(7)) && 7 in v.sh.bg.done1 && 8 !in x.others
    ensures v.sh.pools.db == Some(1) && v.sh.pools.closes == multiset{} && v.sh.bg.live == map[1 := Watching(0)]
  {
    x, v := SecondReturns();
    x, v := Switch(x, v, 7);
    v := FindsItGone(x, v, Watching(1));
    x, v := Switch(x, v, 6);
  }

  /** The pool is closed, and the goroutine of the first pool monitor has not returned. */
  lemma OverwrittenComponentLives() returns (states: seq<State>, labels: seq<Label>)
    ensures IsRun(MONITORED, states, labels)
    ensures var s := states[|labels|];
            && s.sh.pools.shut && s.sh.pools.closes[1] == 1
            && s.sh.bg.live == map[1 := Component(0, PoolMonitoring)]
  {
    var x, v := StopsSecond();
    x, v := PhaseTwoBegins(x, v, 7, 8);
    x, v := Switch(x, v, 8);
    v := Shuts(x, v);
    states, labels := RunTo(MONITORED, Among(x.others, 8, Phase2, v));
  }
}
