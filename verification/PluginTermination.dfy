/**
 Every operation comes to an end: a measure over all goroutines falls with every action that is not a
 new call or tick, whatever the driver does and whichever contexts expire.
 */
module PluginTermination {
  import opened Wrappers
  import opened PluginMachine
  import opened PluginLocal
  import opened PluginReachable
  import opened PluginProgress

  // ---------------------------------------------------------------- actions left, per program counter

  /** Actions of a whole Reconnect, up to its return. */
  function ReconnectCost(cfg: Config): nat {
    28 + 8 * cfg.retryMaxAttempts
  }

  /** Of GetDBWithContext after its first check, when what follows its return costs `after`. */
  function GetCost(cfg: Config, after: nat): nat {
    8 + ReconnectCost(cfg) + after
  }

  function CheckCost(cfg: Config): nat {
    7 + ReconnectCost(cfg)
  }

  /** Of GetValidatedConn's second GetDBWithContext and what follows it. */
  function RevalidateCost(cfg: Config): nat {
    7 + ReconnectCost(cfg) + GetCost(cfg, 3)
  }

  function AfterGetCost(cfg: Config, g: AfterGet): nat {
    match g
    case GetToCaller => 1
    case GetToValidate => 2 + ReconnectCost(cfg) + RevalidateCost(cfg)
    case GetToRevalidate => 3
  }

  function AfterReconnectCost(cfg: Config, k: AfterReconnect): nat {
    match k
    case ToCaller => 1
    case ToAuto => 1
    case ToGet(g) => GetCost(cfg, AfterGetCost(cfg, g))
    case ToGetAgain(g) => 3 + AfterGetCost(cfg, g)
    case ToCheck => CheckCost(cfg)
    case ToCheckAgain => 4
    case ToRevalidate => RevalidateCost(cfg)
  }

  function AfterProbeCost(cfg: Config, k: AfterProbe): nat {
    match k
    case ProbeToCaller => 1
    case ProbeToAuto => 2 + ReconnectCost(cfg)
    case ProbeToGet(g) => ReconnectCost(cfg) + GetCost(cfg, AfterGetCost(cfg, g))
    case ProbeToCheck => ReconnectCost(cfg) + CheckCost(cfg)
  }

  /** What follows the release of lifecycleMu. */
  function OwnerCost(cfg: Config, o: Owner): nat {
    match o
    case ByStartup(_, _) => 1
    case ByReconnect(_, _, k) => AfterReconnectCost(cfg, k)
  }

  /** What follows the store of a pool. */
  function StoredCost(cfg: Config, o: Owner): nat {
    if o.ByStartup? then 28 else 6 + OwnerCost(cfg, o)
  }

  function RetriesLeft(cfg: Config, n: nat): nat {
    if n < cfg.retryMaxAttempts then cfg.retryMaxAttempts - n else 0
  }

  function StartupCost(cfg: Config, at: StartAt): nat {
    match at
    case Lock => 47 + 8 * cfg.retryMaxAttempts
    case CheckConnected => 46 + 8 * cfg.retryMaxAttempts
    case CheckClosing => 45 + 8 * cfg.retryMaxAttempts
    case CheckCtx => 44 + 8 * cfg.retryMaxAttempts
    case SpawnWarmer => 27
    case LockMu => 20
    case DrainMu => 19
    case StoreComponents => 18
    case UnlockMu => 17
    case StartComponents(rest) => 8 + 2 * |rest|
    case SpawnReporter => 7
    case Release => 2
  }

  function ReconnectAtCost(cfg: Config, k: AfterReconnect, at: ReconnectAt): nat {
    match at
    case Lock => ReconnectCost(cfg) + AfterReconnectCost(cfg, k)
    case LockMu => ReconnectCost(cfg) + AfterReconnectCost(cfg, k) - 1
    case DrainMu => ReconnectCost(cfg) + AfterReconnectCost(cfg, k) - 2
    case CheckClosing => ReconnectCost(cfg) + AfterReconnectCost(cfg, k) - 3
    case CheckCtx => ReconnectCost(cfg) + AfterReconnectCost(cfg, k) - 4
    case Snapshot => ReconnectCost(cfg) + AfterReconnectCost(cfg, k) - 5
    case UnlockMu => 3
    case Release => 2
  }

  function ConnectCost(cfg: Config, o: Owner, at: ConnectAt): nat {
    var base := StoredCost(cfg, o) + 6;
    match at
    case UnlockMu => base + 8 * cfg.retryMaxAttempts + 10
    case Begin => base + 8 * cfg.retryMaxAttempts + 9
    case Head(n) => base + 8 * RetriesLeft(cfg, n) + 8
    case Wait(n) => base + 8 * RetriesLeft(cfg, n) + 7
    case Open(n) => base + 8 * RetriesLeft(cfg, n) + 6
    case Ping(n, _) => base + 8 * RetriesLeft(cfg, n) + 5
    case Verify(n, _) => base + 8 * RetriesLeft(cfg, n) + 4
    case Drop(n, _) => base + 8 * RetriesLeft(cfg, n) + 3
    case Failed(n) => base + 8 * RetriesLeft(cfg, n) + 2
    case Succeeded(_) => base
    case GaveUp => 2
  }

  function PublishCost(cfg: Config, o: Owner, at: PublishAt): nat {
    match at
    case CheckStale(_) => StoredCost(cfg, o) + 5
    case Discard(_) => 3
    case LockMu(_) => StoredCost(cfg, o) + 4
    case DrainMu(_) => StoredCost(cfg, o) + 3
    case StoreDb(_) => StoredCost(cfg, o) + 2
    case StoreConnected => StoredCost(cfg, o) + 1
    case UnlockMu => StoredCost(cfg, o)
    case CloseOld => OwnerCost(cfg, o) + 5
  }

  function AnnounceCost(cfg: Config, o: Owner, at: AnnounceAt): nat {
    match at
    case RLock => OwnerCost(cfg, o) + 4
    case Read => OwnerCost(cfg, o) + 3
    case Register(_) => OwnerCost(cfg, o) + 2
  }

  function ProbeCost(cfg: Config, k: AfterProbe, at: ProbeAt): nat {
    match at
    case Flag => AfterProbeCost(cfg, k) + 7
    case Closing => AfterProbeCost(cfg, k) + 6
    case RLock => AfterProbeCost(cfg, k) + 5
    case Read => AfterProbeCost(cfg, k) + 4
    case Cache(_) => AfterProbeCost(cfg, k) + 3
    case Ping(_) => AfterProbeCost(cfg, k) + 2
    case Clear => AfterProbeCost(cfg, k) + 1
  }

  function GetAtCost(cfg: Config, g: AfterGet, at: GetAt): nat {
    var after := AfterGetCost(cfg, g);
    match at
    case CheckCtx => GetCost(cfg, after)
    case RLock => GetCost(cfg, after) - 1
    case Read => GetCost(cfg, after) - 2
    case Alive(_) => GetCost(cfg, after) - 3
    case Ping(_) => GetCost(cfg, after) - 4
    case Clear => 2
    case RLockAgain => after + 3
    case ReadAgain => after + 2
    case Return(_) => after + 1
  }

  function ValidateCost(cfg: Config, again: bool, at: ValidateAt): nat {
    match at
    case Conn(_) => if again then 3 else 2 + ReconnectCost(cfg) + RevalidateCost(cfg)
    case Ping(_) => if again then 2 else 1 + ReconnectCost(cfg) + RevalidateCost(cfg)
  }

  function HealthCost(at: HealthAt): nat {
    match at
    case RLock => 7
    case Read => 6
    case Flag(_) => 5
    case Closing(_) => 4
    case Query(_) => 3
    case Clear => 2
  }

  function CheckAtCost(cfg: Config, at: CheckAt): nat {
    match at
    case RLock => CheckCost(cfg)
    case Read => CheckCost(cfg) - 1
    case Query(_) => CheckCost(cfg) - 2
    case Clear => 2
    case RLockAgain => 4
    case ReadAgain => 3
    case QueryAgain(_) => 2
  }

  function StatsCost(at: StatsAt): nat {
    match at
    case RLock => 5
    case Flag => 4
    case Closing => 3
    case Sample => 2
  }

  function WarmCost(at: WarmAt): nat {
    match at
    case Closing => 6
    case Flag => 5
    case RLock => 4
    case Read => 3
    case Fill(_) => 2
  }

  function CleanupCost(at: CleanupAt): nat {
    match at
    case Cas => 28
    case Cancel => 27
    case RLock => 26
    case Read => 25
    case Spawn1(cs) => 15 + 2 * |cs|
    case Await1(_) => 13
    case CheckCtx => 12
    case Spawn2 => 11
    case Await2(_) => 2
  }

  function ShuttingCost(at: CloseAt): nat {
    match at
    case Lock => 8
    case LockMu => 7
    case DrainMu => 6
    case CloseDb => 5
    case NilDb => 4
    case ClearConnected => 3
    case UnlockMu => 2
    case Unlock => 1
  }

  function SetCost(at: SetAt): nat {
    match at
    case LockMu => 4
    case DrainMu => 3
    case Store => 2
  }

  /** An upper bound on what a goroutine still has to do before it is idle or has returned, and its exit. */
  function Cost(cfg: Config, pc: PC): nat {
    match pc
    case Idle => 1
    case Exited => 0
    case Crashed => 0
    case Startup(st) => StartupCost(cfg, st)
    case Reconnect(k, re) => ReconnectAtCost(cfg, k, re)
    case Connecting(o, co) => ConnectCost(cfg, o, co)
    case Publishing(o, pu) => PublishCost(cfg, o, pu)
    case Announcing(o, an) => AnnounceCost(cfg, o, an)
    case Finishing(o) => OwnerCost(cfg, o) + 1
    case Probe(k, pr) => ProbeCost(cfg, k, pr)
    case AutoDecide => 2 + ReconnectCost(cfg)
    case Get(g, ge) => GetAtCost(cfg, g, ge)
    case Validate(again, va) => ValidateCost(cfg, again, va)
    case Health(he) => HealthCost(he)
    case Check(ck) => CheckAtCost(cfg, ck)
    case Stats(sa) => StatsCost(sa)
    case Warm(wa) => WarmCost(wa)
    case Cleanup(cl) => CleanupCost(cl)
    case Stopping(rest) => 2 * |rest| + 1
    case Waiting(rest) => 2 * |rest|
    case Shutting(cz) => ShuttingCost(cz)
    case Setting(se) => SetCost(se)
  }

  function OutCost(cfg: Config, o: Out): nat {
    Cost(cfg, o.pc) + if o.spawn.Some? then Cost(cfg, o.spawn.value.pc) else 0
  }

  /** The action brings its goroutine nearer to rest, by more than the goroutine it starts has to do. */
  ghost predicate Nearer(cfg: Config, pc: PC, n: Option<Out>) {
    n.Some? ==> OutCost(cfg, n.value) < Cost(cfg, pc)
  }

  predicate FewComponents(sh: Shared) {
    |sh.bg.components| <= 4
  }

  lemma ReconnectReturnCost(cfg: Config, k: AfterReconnect, ok: bool)
    ensures Cost(cfg, AfterReconnecting(k, ok)) <= if ok then AfterReconnectCost(cfg, k) else 1
  {
  }

  lemma ProbeReturnCost(cfg: Config, k: AfterProbe, b: bool)
    ensures Cost(cfg, AfterProbing(cfg, k, b)) <= AfterProbeCost(cfg, k)
  {
  }

  lemma StartupNearer(cfg: Config, sh: Shared, at: StartAt, ch: Choice, child: Tid)
    requires FewComponents(sh)
    ensures Nearer(cfg, Startup(at), NextStartup(cfg, sh, at, ch, child))
  {
  }

  lemma ReconnectNearer(cfg: Config, sh: Shared, k: AfterReconnect, at: ReconnectAt, ch: Choice)
    ensures Nearer(cfg, Reconnect(k, at), NextReconnect(sh, k, at, ch))
  {
    ReconnectReturnCost(cfg, k, false);
  }

  lemma ConnectNearerSecond(cfg: Config, sh: Shared, o: Owner, at: ConnectAt, ch: Choice)
    requires at.Ping? || at.Verify? || at.Drop? || at.Failed?
    ensures Nearer(cfg, Connecting(o, at), NextConnect(cfg, sh, o, at, ch))
  {
  }

  lemma ConnectNearerFirst(cfg: Config, sh: Shared, o: Owner, at: ConnectAt, ch: Choice)
    requires at.UnlockMu? || at.Begin? || at.Head? || at.Wait? || at.Open?
    ensures Nearer(cfg, Connecting(o, at), NextConnect(cfg, sh, o, at, ch))
  {
  }

  lemma ConnectNearer(cfg: Config, sh: Shared, o: Owner, at: ConnectAt, ch: Choice)
    ensures Nearer(cfg, Connecting(o, at), NextConnect(cfg, sh, o, at, ch))
  {
    if at.UnlockMu? || at.Begin? || at.Head? || at.Wait? || at.Open? {
      ConnectNearerFirst(cfg, sh, o, at, ch);
    } else if at.Ping? || at.Verify? || at.Drop? || at.Failed? {
      ConnectNearerSecond(cfg, sh, o, at, ch);
    } else if o.ByReconnect? {
      ReconnectReturnCost(cfg, o.k, false);
    }
  }

  lemma PublishNearer(cfg: Config, sh: Shared, o: Owner, at: PublishAt, ch: Choice)
    ensures Nearer(cfg, Publishing(o, at), NextPublish(sh, o, at, ch))
  {
  }

  lemma AnnounceNearer(cfg: Config, sh: Shared, o: Owner, at: AnnounceAt, ch: Choice)
    ensures Nearer(cfg, Announcing(o, at), NextAnnounce(cfg, sh, o, at, ch))
  {
  }

  lemma ProbeNearer(cfg: Config, sh: Shared, k: AfterProbe, at: ProbeAt, ch: Choice)
    ensures Nearer(cfg, Probe(k, at), NextProbe(cfg, sh, k, at, ch))
  {
    ProbeReturnCost(cfg, k, true);
    ProbeReturnCost(cfg, k, false);
  }

  lemma GetNearer(cfg: Config, sh: Shared, g: AfterGet, at: GetAt, ch: Choice)
    ensures Nearer(cfg, Get(g, at), NextGet(cfg, sh, g, at, ch))
  {
  }

  lemma CheckNearer(cfg: Config, sh: Shared, at: CheckAt, ch: Choice)
    ensures Nearer(cfg, Check(at), NextCheck(cfg, sh, at, ch))
  {
  }

  lemma CleanupNearer(cfg: Config, sh: Shared, at: CleanupAt, ch: Choice, child: Tid)
    requires FewComponents(sh)
    ensures Nearer(cfg, Cleanup(at), NextCleanup(sh, at, ch, child))
  {
  }

  lemma IdleNearer(cfg: Config, sh: Shared, t: Tid, home: Home, ch: Choice)
    requires !ch.Start?
    ensures Nearer(cfg, Idle, NextIdle(cfg, sh, t, home, ch))
  {
  }

  lemma LifecycleNearer(cfg: Config, sh: Shared, pc: PC, ch: Choice, child: Tid)
    requires FewComponents(sh)
    ensures Nearer(cfg, pc, NextLifecycle(cfg, sh, pc, ch, child))
  {
    match pc
    case Startup(st) => StartupNearer(cfg, sh, st, ch, child);
    case Reconnect(k, re) => ReconnectNearer(cfg, sh, k, re, ch);
    case Connecting(o, co) => ConnectNearer(cfg, sh, o, co, ch);
    case Publishing(o, pu) => PublishNearer(cfg, sh, o, pu, ch);
    case Announcing(o, an) => AnnounceNearer(cfg, sh, o, an, ch);
    case Finishing(o) => if o.ByReconnect? { ReconnectReturnCost(cfg, o.k, true); }
    case _ =>
  }

  /** AutoDecide, GetValidatedConn, ReportHealth, GetStats, the warmup and the setters. */
  lemma OthersNearer(cfg: Config, sh: Shared, pc: PC, ch: Choice)
    requires !pc.Probe? && !pc.Get? && !pc.Check?
    ensures Nearer(cfg, pc, NextObserver(cfg, sh, pc, ch))
  {
  }

  lemma ObserverNearer(cfg: Config, sh: Shared, pc: PC, ch: Choice)
    ensures Nearer(cfg, pc, NextObserver(cfg, sh, pc, ch))
  {
    match pc
    case Probe(k, pr) => ProbeNearer(cfg, sh, k, pr, ch);
    case Get(g, ge) => GetNearer(cfg, sh, g, ge, ch);
    case Check(ck) => CheckNearer(cfg, sh, ck, ch);
    case _ => OthersNearer(cfg, sh, pc, ch);
  }

  lemma TeardownNearer(cfg: Config, sh: Shared, t: Tid, pc: PC, ch: Choice, child: Tid)
    requires FewComponents(sh)
    ensures Nearer(cfg, pc, NextTeardown(sh, t, pc, ch, child))
  {
    match pc
    case Cleanup(cl) => CleanupNearer(cfg, sh, cl, ch, child);
    case _ =>
  }

  lemma NextNearer(cfg: Config, sh: Shared, t: Tid, th: Thread, ch: Choice, child: Tid)
    requires FewComponents(sh) && !ch.Start?
    ensures Nearer(cfg, th.pc, Next(cfg, sh, t, th, ch, child))
  {
    if th.pc.Idle? {
      IdleNearer(cfg, sh, t, th.home, ch);
    } else if InLifecycle(th.pc) {
      LifecycleNearer(cfg, sh, th.pc, ch, child);
    } else if InTeardown(th.pc) {
      TeardownNearer(cfg, sh, t, th.pc, ch, child);
    } else {
      ObserverNearer(cfg, sh, th.pc, ch);
    }
  }

  // ---------------------------------------------------------------- actions left, all goroutines

  ghost function Total(cfg: Config, m: map<Tid, Thread>): nat {
    if m == map[] then 0
    else
      var t :| t in m;
      Cost(cfg, m[t].pc) + Total(cfg, m - {t})
  }

  lemma {:induction false} TotalWithout(cfg: Config, m: map<Tid, Thread>, t: Tid)
    requires t in m
    ensures Total(cfg, m) == Cost(cfg, m[t].pc) + Total(cfg, m - {t})
  {
    var u :| u in m && Total(cfg, m) == Cost(cfg, m[u].pc) + Total(cfg, m - {u});
    if u != t {
      TotalWithout(cfg, m - {u}, t);
      TotalWithout(cfg, m - {t}, u);
      assert m - {u} - {t} == m - {t} - {u};
    }
  }

  lemma TotalUpdate(cfg: Config, m: map<Tid, Thread>, t: Tid, th: Thread)
    ensures Total(cfg, m[t := th]) == Total(cfg, m) - (if t in m then Cost(cfg, m[t].pc) else 0) + Cost(cfg, th.pc)
  {
    TotalWithout(cfg, m[t := th], t);
    assert m[t := th] - {t} == m - {t};
    if t in m {
      TotalWithout(cfg, m, t);
    } else {
      assert m - {t} == m;
    }
  }

  lemma TotalFalls(cfg: Config, s: State, l: Label, o: Out)
    requires l.t in s.threads && Allowed(s, l, o) && OutCost(cfg, o) < Cost(cfg, s.threads[l.t].pc)
    ensures Total(cfg, Apply(s, l, o).threads) < Total(cfg, s.threads)
  {
    var moved := s.threads[l.t := ThreadOf(s, l.t).(pc := o.pc)];
    TotalUpdate(cfg, s.threads, l.t, ThreadOf(s, l.t).(pc := o.pc));
    if o.spawn.Some? {
      TotalUpdate(cfg, moved, l.child, o.spawn.value);
    }
  }

  // ---------------------------------------------------------------- runs

  lemma ComponentsFew(cfg: Config, sh: Shared, at: StartAt, ch: Choice, child: Tid)
    requires NextStartup(cfg, sh, at, ch, child).Some? && FewComponents(sh)
    ensures FewComponents(NextStartup(cfg, sh, at, ch, child).value.sh)
  {
  }

  lemma FewComponentsKept(cfg: Config, s: State, l: Label, o: Out)
    requires Does(cfg, s, l, o) && Actual(cfg, s, l, o) && FewComponents(s.sh)
    ensures FewComponents(o.sh)
  {
    var pc := ThreadOf(s, l.t).pc;
    if pc.Startup? {
      ComponentsFew(cfg, s.sh, pc.st, l.ch, l.child);
    } else {
      assert StartsNothing(s.sh, o);
    }
  }

  lemma FewComponentsRun(cfg: Config, states: seq<State>, labels: seq<Label>, i: nat)
    requires IsRun(cfg, states, labels) && i < |states|
    ensures FewComponents(states[i].sh)
  {
    var P := (s: State) => FewComponents(s.sh);
    forall s, l, o | Inv(cfg, s) && Does(cfg, s, l, o) && Actual(cfg, s, l, o) && P(s) ensures P(Apply(s, l, o)) {
      FewComponentsKept(cfg, s, l, o);
    }
    RunKeepsActual(cfg, states, labels, 0, i, P);
  }

  /** Whatever goroutine acts, and however the driver and the contexts turn out: less is left to do. */
  lemma EveryActionCounts(cfg: Config, states: seq<State>, labels: seq<Label>, i: nat)
    requires IsRun(cfg, states, labels) && i < |labels| && !labels[i].ch.Start?
    ensures Total(cfg, states[i + 1].threads) < Total(cfg, states[i].threads)
  {
    var s, l := states[i], labels[i];
    FewComponentsRun(cfg, states, labels, i);
    assert Step(cfg, s, l) == Some(states[i + 1]);
    NextNearer(cfg, s.sh, l.t, ThreadOf(s, l.t), l.ch, l.child);
    KnownGoroutine(cfg, s, l);
    TotalFalls(cfg, s, l, Next(cfg, s.sh, l.t, ThreadOf(s, l.t), l.ch, l.child).value);
  }

  lemma KnownGoroutine(cfg: Config, s: State, l: Label)
    requires Step(cfg, s, l).Some? && !l.ch.Start?
    ensures l.t in s.threads
  {
  }

  /** Without new calls and ticks a run has no more steps than were left to do. */
  lemma {:induction false} OperationsEnd(cfg: Config, states: seq<State>, labels: seq<Label>, i: nat, j: nat)
    requires IsRun(cfg, states, labels) && i <= j < |states|
    requires forall k :: i <= k < j ==> !labels[k].ch.Start?
    ensures j - i + Total(cfg, states[j].threads) <= Total(cfg, states[i].threads)
  {
    if i < j {
      OperationsEnd(cfg, states, labels, i, j - 1);
      EveryActionCounts(cfg, states, labels, j - 1);
    }
  }

  /** Every run can be continued, with no new call and the driver willing, until nothing is under way;
      and by OperationsEnd and StuckMeansAtRest no continuation without new calls does otherwise. */
  lemma {:induction false} ComesToRest(cfg: Config, states: seq<State>, labels: seq<Label>)
      returns (states': seq<State>, labels': seq<Label>)
    requires IsRun(cfg, states, labels)
    ensures IsRun(cfg, states', labels') && states <= states' && labels <= labels'
    ensures forall k :: |labels| <= k < |labels'| ==> labels'[k].ch == Go
    ensures AtRest(states'[|labels'|])
    decreases Total(cfg, states[|labels|].threads)
  {
    var s := states[|labels|];
    if AtRest(s) {
      return states, labels;
    }
    var t :| t in s.threads && Active(s.threads[t].pc);
    var chain := DeadlockFree(cfg, states, labels, |labels|, t);
    var u := chain[|chain| - 1];
    var child: Tid :| Step(cfg, s, Label(u, Go, child)).Some?;
    var next := Step(cfg, s, Label(u, Go, child)).value;
    ExtendRun(cfg, states, labels, Label(u, Go, child), next);
    EveryActionCounts(cfg, states + [next], labels + [Label(u, Go, child)], |labels|);
    states', labels' := ComesToRest(cfg, states + [next], labels + [Label(u, Go, child)]);
  }

  /** A state from which only a new call or tick, a failure or an expiry leads on is at rest. */
  lemma StuckMeansAtRest(cfg: Config, states: seq<State>, labels: seq<Label>, i: nat)
    requires IsRun(cfg, states, labels) && i < |states| && forall u: Tid :: !CanGo(cfg, states[i], u)
    ensures AtRest(states[i])
  {
    forall t | t in states[i].threads ensures !Active(states[i].threads[t].pc) {
      if Active(states[i].threads[t].pc) {
        var chain := DeadlockFree(cfg, states, labels, i, t);
      }
    }
  }
}
