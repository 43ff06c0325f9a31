/**
 The record of validations (`lastPingTime`), laid over the machine: a goroutine that has found a pool good
 stores the record in an action of its own, and anything may happen before it does.
 */
module PluginValidation {
  import opened Wrappers
  import opened PluginMachine
  import opened PluginLocks
  import opened PluginInvariant
  import opened PluginReachable

  /** The machine, the pool the record is of, and the validations that are still to be recorded. */
  datatype Recorded = Recorded(s: State, record: Option<PoolId>, pending: map<Tid, PoolId>)

  const NOTHING_RECORDED := Recorded(INIT, None, map[])

  datatype Move = Act(l: Label) | Record(t: Tid)

  /** The pool that an action finds good, or publishes. */
  function Validated(sh: Shared, pc: PC, ch: Choice): Option<PoolId> {
    if pc.Publishing? && pc.pu.StoreConnected? then sh.pools.db
    else if ch != Go then None
    else if pc.Probe? && pc.pr.Ping? then Some(pc.pr.d)
    else if pc.Get? && pc.ge.Ping? then Some(pc.ge.d)
    else if pc.Health? && pc.he.Query? then Some(pc.he.d)
    else if pc.Check? && pc.ck.Query? then Some(pc.ck.d)
    else if pc.Check? && pc.ck.QueryAgain? then Some(pc.ck.d)
    else if pc.Connecting? && pc.co.Verify? then Some(pc.co.p)
    else None
  }

  /** An answer that rests on the record. */
  predicate Relies(pc: PC, ch: Choice) {
    (pc.Probe? && pc.pr.Cache? && ch == Go) || (pc.Get? && pc.ge.Alive? && ch == Bad)
  }

  function After(r: Recorded, l: Label, s: State): Recorded {
    var d := Validated(r.s.sh, ThreadOf(r.s, l.t).pc, l.ch);
    Recorded(s, r.record, if d.Some? then r.pending[l.t := d.value] else r.pending)
  }

  function NextRecorded(cfg: Config, r: Recorded, m: Move): Option<Recorded> {
    match m
    case Act(l) =>
      if l.t in r.pending || (Relies(ThreadOf(r.s, l.t).pc, l.ch) && r.record.None?) then None
      else
        var n := Step(cfg, r.s, l);
        if n.None? then None else Some(After(r, l, n.value))
    case Record(t) =>
      if t in r.pending then Some(Stored(r, t)) else None
  }

  function Stored(r: Recorded, t: Tid): Recorded
    requires t in r.pending
  {
    Recorded(r.s, Some(r.pending[t]), r.pending - {t})
  }

  ghost predicate IsRecordedRun(cfg: Config, rs: seq<Recorded>, ms: seq<Move>) {
    && |rs| == |ms| + 1
    && rs[0] == NOTHING_RECORDED
    && forall i {:trigger NextRecorded(cfg, rs[i], ms[i])} ::
         0 <= i < |ms| ==> NextRecorded(cfg, rs[i], ms[i]) == Some(rs[i + 1])
  }

  lemma ExtendRecorded(cfg: Config, rs: seq<Recorded>, ms: seq<Move>, m: Move, r: Recorded)
    requires IsRecordedRun(cfg, rs, ms) && NextRecorded(cfg, rs[|ms|], m) == Some(r)
    ensures IsRecordedRun(cfg, rs + [r], ms + [m])
  {
    var rs', ms' := rs + [r], ms + [m];
    forall i | 0 <= i < |ms'| ensures NextRecorded(cfg, rs'[i], ms'[i]) == Some(rs'[i + 1]) {
      if i < |ms| {
        assert NextRecorded(cfg, rs[i], ms[i]) == Some(rs[i + 1]);
      }
    }
  }

  // ---------------------------------------------------------------- the machine underneath

  /** Without the records it is a run of the machine. */
  lemma {:induction false} Projects(cfg: Config, rs: seq<Recorded>, ms: seq<Move>, i: nat)
      returns (states: seq<State>, labels: seq<Label>)
    requires IsRecordedRun(cfg, rs, ms) && i < |rs|
    ensures IsRun(cfg, states, labels) && states[|labels|] == rs[i].s
  {
    if i == 0 {
      return [INIT], [];
    }
    states, labels := Projects(cfg, rs, ms, i - 1);
    assert NextRecorded(cfg, rs[i - 1], ms[i - 1]) == Some(rs[i - 1 + 1]);
    if ms[i - 1].Act? {
      ExtendRun(cfg, states, labels, ms[i - 1].l, rs[i].s);
      states, labels := states + [rs[i].s], labels + [ms[i - 1].l];
    }
  }

  /** Properties that every action and every store of a record keeps. */
  ghost predicate KeptRecorded(cfg: Config, P: Recorded -> bool) {
    && (forall r: Recorded, l: Label, o: Out ::
          Inv(cfg, r.s) && Does(cfg, r.s, l, o) && Actual(cfg, r.s, l, o) && l.t !in r.pending && P(r) ==>
            P(After(r, l, Apply(r.s, l, o))))
    && (forall r: Recorded, t: Tid :: Inv(cfg, r.s) && t in r.pending && P(r) ==> P(Stored(r, t)))
  }

  lemma StepKeepsRecorded(cfg: Config, rs: seq<Recorded>, ms: seq<Move>, i: nat, P: Recorded -> bool)
    requires IsRecordedRun(cfg, rs, ms) && i < |ms| && KeptRecorded(cfg, P) && P(rs[i])
    ensures P(rs[i + 1])
  {
    var states, labels := Projects(cfg, rs, ms, i);
    RunInv(cfg, states, labels, |labels|);
    assert NextRecorded(cfg, rs[i], ms[i]) == Some(rs[i + 1]);
    if ms[i].Act? {
      var o := StepDoes(cfg, rs[i].s, ms[i].l);
      assert Actual(cfg, rs[i].s, ms[i].l, o);
    }
  }

  lemma {:induction false} RunKeepsRecorded(cfg: Config, rs: seq<Recorded>, ms: seq<Move>,
                                            from: nat, to: nat, P: Recorded -> bool)
    requires IsRecordedRun(cfg, rs, ms) && from <= to < |rs| && KeptRecorded(cfg, P) && P(rs[from])
    ensures P(rs[to])
  {
    if from < to {
      RunKeepsRecorded(cfg, rs, ms, from, to - 1, P);
      StepKeepsRecorded(cfg, rs, ms, to - 1, P);
    }
  }

  // ---------------------------------------------------------------- what is recorded has been validated

  /** Has read pool `d` and may come to validate it. */
  predicate Holds(pc: PC, d: PoolId) {
    || (pc.Probe? && (pc.pr == Cache(d) || pc.pr == ProbeAt.Ping(d)))
    || (pc.Get? && (pc.ge == Alive(Some(d)) || pc.ge == GetAt.Ping(d)))
    || (pc.Health? &&
        (pc.he == HealthAt.Flag(Some(d)) || pc.he == HealthAt.Closing(Some(d)) || pc.he == HealthAt.Query(d)))
    || (pc.Check? && (pc.ck == CheckAt.Query(d) || pc.ck == QueryAgain(d)))
  }

  lemma ProbeHolds(cfg: Config, sh: Shared, k: AfterProbe, at: ProbeAt, ch: Choice, d: PoolId)
    requires NextProbe(cfg, sh, k, at, ch).Some? && Holds(NextProbe(cfg, sh, k, at, ch).value.pc, d)
    ensures Holds(Probe(k, at), d) || sh.pools.db == Some(d)
  {
  }

  lemma GetHolds(cfg: Config, sh: Shared, g: AfterGet, at: GetAt, ch: Choice, d: PoolId)
    requires NextGet(cfg, sh, g, at, ch).Some? && Holds(NextGet(cfg, sh, g, at, ch).value.pc, d)
    ensures Holds(Get(g, at), d) || sh.pools.db == Some(d)
  {
  }

  lemma HealthHolds(sh: Shared, at: HealthAt, ch: Choice, d: PoolId)
    requires NextHealth(sh, at, ch).Some? && Holds(NextHealth(sh, at, ch).value.pc, d)
    ensures Holds(Health(at), d) || sh.pools.db == Some(d)
  {
  }

  lemma CheckHolds(cfg: Config, sh: Shared, at: CheckAt, ch: Choice, d: PoolId)
    requires NextCheck(cfg, sh, at, ch).Some? && Holds(NextCheck(cfg, sh, at, ch).value.pc, d)
    ensures Holds(Check(at), d) || sh.pools.db == Some(d)
  {
  }

  lemma ObserverHolds(cfg: Config, sh: Shared, pc: PC, ch: Choice, d: PoolId)
    requires NextObserver(cfg, sh, pc, ch).Some? && Holds(NextObserver(cfg, sh, pc, ch).value.pc, d)
    ensures Holds(pc, d) || sh.pools.db == Some(d)
  {
    match pc
    case Probe(k, pr) => ProbeHolds(cfg, sh, k, pr, ch, d);
    case Get(g, ge) => GetHolds(cfg, sh, g, ge, ch, d);
    case Health(he) => HealthHolds(sh, he, ch, d);
    case Check(ck) => CheckHolds(cfg, sh, ck, ch, d);
    case _ =>
  }

  ghost predicate HoldsNone(pc: PC) {
    forall d :: !Holds(pc, d)
  }

  lemma LifecycleHolds(cfg: Config, sh: Shared, pc: PC, ch: Choice, child: Tid)
    requires NextLifecycle(cfg, sh, pc, ch, child).Some?
    ensures HoldsNone(NextLifecycle(cfg, sh, pc, ch, child).value.pc)
  {
    match pc
    case Startup(st) => StartupHolds(cfg, sh, st, ch, child);
    case Connecting(o, co) => ConnectHolds(cfg, sh, o, co, ch);
    case _ =>
  }

  lemma StartupHolds(cfg: Config, sh: Shared, at: StartAt, ch: Choice, child: Tid)
    requires NextStartup(cfg, sh, at, ch, child).Some?
    ensures HoldsNone(NextStartup(cfg, sh, at, ch, child).value.pc)
  {
  }

  lemma ConnectHolds(cfg: Config, sh: Shared, ow: Owner, at: ConnectAt, ch: Choice)
    requires NextConnect(cfg, sh, ow, at, ch).Some?
    ensures HoldsNone(NextConnect(cfg, sh, ow, at, ch).value.pc)
  {
  }

  lemma TeardownHolds(sh: Shared, t: Tid, pc: PC, ch: Choice, child: Tid)
    requires NextTeardown(sh, t, pc, ch, child).Some?
    ensures HoldsNone(NextTeardown(sh, t, pc, ch, child).value.pc)
  {
  }

  lemma IdleHolds(cfg: Config, sh: Shared, t: Tid, home: Home, ch: Choice)
    requires NextIdle(cfg, sh, t, home, ch).Some?
    ensures HoldsNone(NextIdle(cfg, sh, t, home, ch).value.pc)
  {
  }

  /** What a goroutine comes to hold it held before, or has just read. */
  lemma ActionHolds(cfg: Config, s: State, l: Label, o: Out, d: PoolId)
    requires Actual(cfg, s, l, o) && Holds(o.pc, d)
    ensures Holds(ThreadOf(s, l.t).pc, d) || s.sh.pools.db == Some(d)
  {
    var th := ThreadOf(s, l.t);
    if th.pc.Idle? {
      IdleHolds(cfg, s.sh, l.t, th.home, l.ch);
    } else if InLifecycle(th.pc) {
      LifecycleHolds(cfg, s.sh, th.pc, l.ch, l.child);
    } else if InTeardown(th.pc) {
      TeardownHolds(s.sh, l.t, th.pc, l.ch, l.child);
    } else {
      ObserverHolds(cfg, s.sh, th.pc, l.ch, d);
    }
  }

  /** Has no pool in hand to publish, nor one just stored. */
  predicate NoPublisher(pc: PC) {
    && !(PhaseOf(pc).Candidate? && PhaseOf(pc).hand.Some?)
    && !(pc.Publishing? && pc.pu.StoreConnected?)
  }

  lemma StartupChild(cfg: Config, sh: Shared, at: StartAt, ch: Choice, child: Tid)
    requires NextStartup(cfg, sh, at, ch, child).Some? && NextStartup(cfg, sh, at, ch, child).value.spawn.Some?
    ensures var pc := NextStartup(cfg, sh, at, ch, child).value.spawn.value.pc; HoldsNone(pc) && NoPublisher(pc)
  {
  }

  lemma CleanupChild(sh: Shared, at: CleanupAt, ch: Choice, child: Tid)
    requires NextCleanup(sh, at, ch, child).Some? && NextCleanup(sh, at, ch, child).value.spawn.Some?
    ensures var pc := NextCleanup(sh, at, ch, child).value.spawn.value.pc; HoldsNone(pc) && NoPublisher(pc)
  {
  }

  lemma ChildHolds(cfg: Config, s: State, l: Label, o: Out)
    requires Actual(cfg, s, l, o) && o.spawn.Some?
    ensures HoldsNone(o.spawn.value.pc) && NoPublisher(o.spawn.value.pc)
  {
    var pc := ThreadOf(s, l.t).pc;
    if pc.Startup? {
      StartupChild(cfg, s.sh, pc.st, l.ch, l.child);
    } else if pc.Cleanup? {
      CleanupChild(s.sh, pc.cl, l.ch, l.child);
    }
  }

  /** Every pool that was published, is held, waits to be recorded or is recorded has been verified. */
  ghost predicate AllVerified(r: Recorded) {
    && (forall q :: q in r.s.sh.pools.history ==> q in r.s.sh.pools.verified)
    && (forall t :: t in r.pending ==> r.pending[t] in r.s.sh.pools.verified)
    && (r.record.Some? ==> r.record.value in r.s.sh.pools.verified)
    && (forall t, d :: t in r.s.threads && Holds(r.s.threads[t].pc, d) ==> d in r.s.sh.pools.verified)
  }

  lemma MoveVerifies(ps: Pools, a: Phase, ps': Pools, b: Phase, closing: bool)
    requires CandidateOk(ps, a) && PoolMove(closing, ps, a, ps', b)
    ensures ps.verified <= ps'.verified
    ensures ps'.history == ps.history ||
        (a.Candidate? && a.hand.Some? && a.hand.value in ps.verified && ps'.history == ps.history + [a.hand.value])
  {
  }

  lemma QuietVerifies(ps: Pools, a: Phase, ps': Pools, b: Phase, closing: bool)
    requires a.Quiet? && PoolMove(closing, ps, a, ps', b)
    ensures ps.verified == ps'.verified && ps'.history == ps.history
  {
  }

  lemma ActionVerifies(cfg: Config, s: State, l: Label, o: Out)
    requires Inv(cfg, s) && Does(cfg, s, l, o)
    requires forall q :: q in s.sh.pools.history ==> q in s.sh.pools.verified
    ensures s.sh.pools.verified <= o.sh.pools.verified
    ensures forall q :: q in o.sh.pools.history ==> q in o.sh.pools.verified
  {
    var pc := ThreadOf(s, l.t).pc;
    ReadyToMove(cfg, s, l.t);
    if HoldsLifecycle(pc) {
      MoveVerifies(s.sh.pools, PhaseOf(pc), o.sh.pools, PhaseOf(o.pc), s.sh.closing);
    } else {
      OutsiderQuiet(pc);
      QuietVerifies(s.sh.pools, PhaseOf(pc), o.sh.pools, PhaseOf(o.pc), s.sh.closing);
    }
  }

  /** The published pool has been verified. */
  lemma DbVerified(cfg: Config, s: State)
    requires Inv(cfg, s) && s.sh.pools.db.Some?
    ensures s.sh.pools.db.value in s.sh.pools.verified
  {
  }

  lemma ValidatedHeld(sh: Shared, pc: PC, ch: Choice, d: PoolId)
    requires Validated(sh, pc, ch) == Some(d)
    ensures Holds(pc, d) || sh.pools.db == Some(d) || (pc.Connecting? && pc.co.Verify? && ch == Go && pc.co.p == d)
  {
  }

  lemma VerifyPasses(cfg: Config, s: State, l: Label, o: Out)
    requires Actual(cfg, s, l, o) && l.ch == Go
    requires var pc := ThreadOf(s, l.t).pc; pc.Connecting? && pc.co.Verify?
    ensures ThreadOf(s, l.t).pc.co.p in o.sh.pools.verified
  {
    var pc := ThreadOf(s, l.t).pc;
    assert NextConnect(cfg, s.sh, pc.o, pc.co, Go) == Some(o);
  }

  lemma ValidatedVerified(cfg: Config, r: Recorded, l: Label, o: Out, d: PoolId)
    requires Inv(cfg, r.s) && Does(cfg, r.s, l, o) && Actual(cfg, r.s, l, o) && AllVerified(r)
    requires Validated(r.s.sh, ThreadOf(r.s, l.t).pc, l.ch) == Some(d)
    ensures d in o.sh.pools.verified
  {
    var pc := ThreadOf(r.s, l.t).pc;
    ValidatedHeld(r.s.sh, pc, l.ch, d);
    ActionVerifies(cfg, r.s, l, o);
    if r.s.sh.pools.db == Some(d) {
      DbVerified(cfg, r.s);
    } else if !Holds(pc, d) {
      VerifyPasses(cfg, r.s, l, o);
    }
  }

  lemma HeldVerified(cfg: Config, r: Recorded, l: Label, o: Out, t: Tid, d: PoolId)
    requires Inv(cfg, r.s) && Does(cfg, r.s, l, o) && Actual(cfg, r.s, l, o) && AllVerified(r)
    requires var s' := Apply(r.s, l, o); t in s'.threads && Holds(s'.threads[t].pc, d)
    ensures d in o.sh.pools.verified
  {
    ActionVerifies(cfg, r.s, l, o);
    if o.spawn.Some? {
      ChildHolds(cfg, r.s, l, o);
    }
    if t == l.t {
      ActionHolds(cfg, r.s, l, o, d);
      if r.s.sh.pools.db == Some(d) {
        DbVerified(cfg, r.s);
      }
    }
  }

  lemma VerifiedKept(cfg: Config, r: Recorded, l: Label, o: Out)
    requires Inv(cfg, r.s) && Does(cfg, r.s, l, o) && Actual(cfg, r.s, l, o) && AllVerified(r)
    ensures AllVerified(After(r, l, Apply(r.s, l, o)))
  {
    var r' := After(r, l, Apply(r.s, l, o));
    ActionVerifies(cfg, r.s, l, o);
    forall t | t in r'.pending ensures r'.pending[t] in r'.s.sh.pools.verified {
      if t == l.t && Validated(r.s.sh, ThreadOf(r.s, l.t).pc, l.ch).Some? {
        ValidatedVerified(cfg, r, l, o, r'.pending[t]);
      }
    }
    forall t, d | t in r'.s.threads && Holds(r'.s.threads[t].pc, d) ensures d in r'.s.sh.pools.verified {
      HeldVerified(cfg, r, l, o, t, d);
    }
  }

  lemma VerifiedRun(cfg: Config, rs: seq<Recorded>, ms: seq<Move>, i: nat)
    requires IsRecordedRun(cfg, rs, ms) && i < |rs|
    ensures AllVerified(rs[i])
  {
    var P := (r: Recorded) => AllVerified(r);
    forall r: Recorded, l: Label, o: Out |
        Inv(cfg, r.s) && Does(cfg, r.s, l, o) && Actual(cfg, r.s, l, o) && l.t !in r.pending && P(r)
      ensures P(After(r, l, Apply(r.s, l, o))) {
      VerifiedKept(cfg, r, l, o);
    }
    RunKeepsRecorded(cfg, rs, ms, 0, i, P);
  }

  /** Only a pool that has passed ping and verify query is ever recorded as validated. */
  lemma RecordWasVerified(cfg: Config, rs: seq<Recorded>, ms: seq<Move>, i: nat)
    requires IsRecordedRun(cfg, rs, ms) && i < |rs| && rs[i].record.Some?
    ensures rs[i].record.value in rs[i].s.sh.pools.verified
  {
    VerifiedRun(cfg, rs, ms, i);
  }

  // ---------------------------------------------------------------- a publication records itself

  predicate PendingAt(r: Recorded, t: Tid)
    requires t in r.pending
  {
    && t in r.s.threads
    && (r.s.threads[t].pc.Publishing? ==> r.s.threads[t].pc.pu.UnlockMu? && r.s.sh.pools.db == Some(r.pending[t]))
  }

  ghost predicate PendingPublished(r: Recorded) {
    forall t :: t in r.pending ==> PendingAt(r, t)
  }

  lemma ValidatedPublishing(cfg: Config, s: State, l: Label, o: Out, d: PoolId)
    requires Actual(cfg, s, l, o) && o.pc.Publishing? && Validated(s.sh, ThreadOf(s, l.t).pc, l.ch) == Some(d)
    ensures o.pc.pu.UnlockMu? && o.sh.pools.db == Some(d)
  {
    var pc := ThreadOf(s, l.t).pc;
    if pc.Publishing? {
      assert NextPublish(s.sh, pc.o, pc.pu, l.ch) == Some(o);
    } else if !pc.Connecting? {
      ObserverPublishesNot(cfg, s.sh, pc, l.ch);
    }
  }

  lemma ObserverPublishesNot(cfg: Config, sh: Shared, pc: PC, ch: Choice)
    requires NextObserver(cfg, sh, pc, ch).Some?
    ensures !NextObserver(cfg, sh, pc, ch).value.pc.Publishing?
  {
  }

  /** While one goroutine is publishing no other changes `db`. */
  lemma OthersKeepDb(cfg: Config, s: State, l: Label, o: Out, t: Tid)
    requires Inv(cfg, s) && Does(cfg, s, l, o) && t in s.threads && s.threads[t].pc.Publishing? && t != l.t
    ensures o.sh.pools.db == s.sh.pools.db
  {
    assert LockThread(s, t);
    assert l.t in s.threads ==> LockThread(s, l.t);
  }

  lemma PendingKept(cfg: Config, r: Recorded, l: Label, o: Out)
    requires Inv(cfg, r.s) && Does(cfg, r.s, l, o) && Actual(cfg, r.s, l, o) && l.t !in r.pending && PendingPublished(r)
    ensures PendingPublished(After(r, l, Apply(r.s, l, o)))
  {
    var r' := After(r, l, Apply(r.s, l, o));
    forall t | t in r'.pending ensures PendingAt(r', t) {
      if t == l.t {
        PendingMover(cfg, r, l, o);
      } else {
        PendingOther(cfg, r, l, o, t);
      }
    }
  }

  lemma PendingMover(cfg: Config, r: Recorded, l: Label, o: Out)
    requires Actual(cfg, r.s, l, o) && l.t !in r.pending && (o.spawn.Some? ==> l.child != l.t)
    requires l.t in After(r, l, Apply(r.s, l, o)).pending
    ensures PendingAt(After(r, l, Apply(r.s, l, o)), l.t)
  {
    if o.pc.Publishing? {
      ValidatedPublishing(cfg, r.s, l, o, After(r, l, Apply(r.s, l, o)).pending[l.t]);
    }
  }

  lemma PendingOther(cfg: Config, r: Recorded, l: Label, o: Out, t: Tid)
    requires Inv(cfg, r.s) && Does(cfg, r.s, l, o) && t != l.t && t in r.pending && PendingAt(r, t)
    ensures PendingAt(After(r, l, Apply(r.s, l, o)), t)
  {
    if r.s.threads[t].pc.Publishing? {
      OthersKeepDb(cfg, r.s, l, o, t);
    }
  }

  lemma PendingRun(cfg: Config, rs: seq<Recorded>, ms: seq<Move>, i: nat)
    requires IsRecordedRun(cfg, rs, ms) && i < |rs|
    ensures PendingPublished(rs[i])
  {
    var P := (r: Recorded) => PendingPublished(r);
    forall r: Recorded, l: Label, o: Out |
        Inv(cfg, r.s) && Does(cfg, r.s, l, o) && Actual(cfg, r.s, l, o) && l.t !in r.pending && P(r)
      ensures P(After(r, l, Apply(r.s, l, o))) {
      PendingKept(cfg, r, l, o);
    }
    RunKeepsRecorded(cfg, rs, ms, 0, i, P);
  }

  // ---------------------------------------------------------------- until the next pool is opened

  /** Nothing keeps the goroutine from asking the pool it has read. */
  predicate MayAsk(cfg: Config, sh: Shared, pc: PC) {
    && (pc.Get? && pc.ge.Alive? ==> cfg.ensureAlive && !sh.closing)
    && (pc.Health? && pc.he.Flag? ==> sh.pools.connected && !sh.closing)
    && (pc.Health? && pc.he.Closing? ==> !sh.closing)
  }

  predicate Would(cfg: Config, sh: Shared, pc: PC, d: PoolId) {
    Holds(pc, d) && MayAsk(cfg, sh, pc)
  }

  /** Goroutine `t` has found pool `d` good, or may do so with what it has read. */
  predicate Carries(cfg: Config, r: Recorded, t: Tid, d: PoolId) {
    || (t in r.pending && r.pending[t] == d)
    || (t in r.s.threads && Would(cfg, r.s.sh, r.s.threads[t].pc, d))
  }

  lemma GetWould(cfg: Config, sh: Shared, g: AfterGet, at: GetAt, ch: Choice, d: PoolId)
    requires NextGet(cfg, sh, g, at, ch).Some?
    requires var o := NextGet(cfg, sh, g, at, ch).value; Would(cfg, o.sh, o.pc, d)
    ensures Would(cfg, sh, Get(g, at), d) || sh.pools.db == Some(d)
  {
  }

  lemma HealthWould(cfg: Config, sh: Shared, at: HealthAt, ch: Choice, d: PoolId)
    requires NextHealth(sh, at, ch).Some?
    requires var o := NextHealth(sh, at, ch).value; Would(cfg, o.sh, o.pc, d)
    ensures Would(cfg, sh, Health(at), d) || sh.pools.db == Some(d)
  {
  }

  lemma ActionWould(cfg: Config, s: State, l: Label, o: Out, d: PoolId)
    requires Actual(cfg, s, l, o) && Would(cfg, o.sh, o.pc, d)
    ensures Would(cfg, s.sh, ThreadOf(s, l.t).pc, d) || s.sh.pools.db == Some(d)
  {
    var pc := ThreadOf(s, l.t).pc;
    if pc.Get? {
      GetWould(cfg, s.sh, pc.g, pc.ge, l.ch, d);
    } else if pc.Health? {
      HealthWould(cfg, s.sh, pc.he, l.ch, d);
    } else {
      ActionHolds(cfg, s, l, o, d);
    }
  }

  /** `n` pools were opened, the last record is of `p`, and nobody can bring another. */
  ghost predicate Steady(cfg: Config, n: nat, p: PoolId, r: Recorded) {
    && r.record == Some(p) && r.s.sh.pools.created == n && (r.s.sh.pools.db.Some? ==> r.s.sh.pools.db == Some(p))
    && (forall t :: t in r.s.threads ==> NoPublisher(r.s.threads[t].pc))
    && (forall t, d :: Carries(cfg, r, t, d) ==> d == p)
  }

  lemma OpensMore(ps: Pools, a: Phase, ps': Pools, b: Phase, closing: bool)
    requires PoolMove(closing, ps, a, ps', b)
    ensures ps.created <= ps'.created
  {
  }

  lemma KeepsDb(ps: Pools, a: Phase, ps': Pools, b: Phase, closing: bool)
    requires PoolMove(closing, ps, a, ps', b) && !(a.Candidate? && a.hand.Some?)
    ensures ps'.db.Some? ==> ps'.db == ps.db
  {
  }

  lemma KeepsEmptyHanded(ps: Pools, a: Phase, ps': Pools, b: Phase, closing: bool)
    requires PoolMove(closing, ps, a, ps', b) && ps'.created == ps.created && !(a.Candidate? && a.hand.Some?)
    ensures !(b.Candidate? && b.hand.Some?)
  {
  }

  lemma OnlyAfterStore(cfg: Config, s: State, l: Label, o: Out)
    requires Actual(cfg, s, l, o) && o.pc.Publishing? && o.pc.pu.StoreConnected?
    ensures !NoPublisher(ThreadOf(s, l.t).pc)
  {
    var pc := ThreadOf(s, l.t).pc;
    if pc.Publishing? {
      assert NextPublish(s.sh, pc.o, pc.pu, l.ch) == Some(o);
    }
  }

  lemma SteadyMover(cfg: Config, s: State, l: Label, o: Out)
    requires Does(cfg, s, l, o) && Actual(cfg, s, l, o) && NoPublisher(ThreadOf(s, l.t).pc)
    requires o.sh.pools.created == s.sh.pools.created
    ensures NoPublisher(o.pc)
    ensures o.sh.pools.db.Some? ==> o.sh.pools.db == s.sh.pools.db
    ensures (o.sh.pools.connected ==> s.sh.pools.connected) && (s.sh.closing ==> o.sh.closing)
  {
    KeepsDb(s.sh.pools, PhaseOf(ThreadOf(s, l.t).pc), o.sh.pools, PhaseOf(o.pc), s.sh.closing);
    KeepsEmptyHanded(s.sh.pools, PhaseOf(ThreadOf(s, l.t).pc), o.sh.pools, PhaseOf(o.pc), s.sh.closing);
    if o.pc.Publishing? && o.pc.pu.StoreConnected? {
      OnlyAfterStore(cfg, s, l, o);
    }
  }

  lemma SteadyCarries(cfg: Config, n: nat, p: PoolId, r: Recorded, l: Label, o: Out, t: Tid, d: PoolId)
    requires Inv(cfg, r.s) && Does(cfg, r.s, l, o) && Actual(cfg, r.s, l, o) && Steady(cfg, n, p, r)
    requires NoPublisher(ThreadOf(r.s, l.t).pc)
    requires (o.sh.pools.connected ==> r.s.sh.pools.connected) && (r.s.sh.closing ==> o.sh.closing)
    requires Carries(cfg, After(r, l, Apply(r.s, l, o)), t, d)
    ensures d == p
  {
    if t == l.t {
      SteadyMoverCarries(cfg, n, p, r, l, o, d);
    } else {
      CarriedBefore(cfg, r, l, o, t, d);
    }
  }

  lemma CarriedBefore(cfg: Config, r: Recorded, l: Label, o: Out, t: Tid, d: PoolId)
    requires Actual(cfg, r.s, l, o) && Allowed(r.s, l, o) && t != l.t
    requires (o.sh.pools.connected ==> r.s.sh.pools.connected) && (r.s.sh.closing ==> o.sh.closing)
    requires Carries(cfg, After(r, l, Apply(r.s, l, o)), t, d)
    ensures Carries(cfg, r, t, d)
  {
    if o.spawn.Some? {
      ChildHolds(cfg, r.s, l, o);
    }
  }

  lemma SteadyMoverCarries(cfg: Config, n: nat, p: PoolId, r: Recorded, l: Label, o: Out, d: PoolId)
    requires Does(cfg, r.s, l, o) && Actual(cfg, r.s, l, o) && Steady(cfg, n, p, r)
    requires NoPublisher(ThreadOf(r.s, l.t).pc)
    requires Carries(cfg, After(r, l, Apply(r.s, l, o)), l.t, d)
    ensures d == p
  {
    var pc := ThreadOf(r.s, l.t).pc;
    if Validated(r.s.sh, pc, l.ch) == Some(d) {
      ValidatedWould(cfg, r.s.sh, pc, l.ch, d);
      assert Carries(cfg, r, l.t, d);
    } else if l.t in r.pending && r.pending[l.t] == d {
      assert Carries(cfg, r, l.t, d);
    } else {
      ActionWould(cfg, r.s, l, o, d);
      if Would(cfg, r.s.sh, pc, d) {
        assert Carries(cfg, r, l.t, d);
      }
    }
  }

  lemma ValidatedWould(cfg: Config, sh: Shared, pc: PC, ch: Choice, d: PoolId)
    requires Validated(sh, pc, ch) == Some(d) && NoPublisher(pc)
    ensures Would(cfg, sh, pc, d)
  {
  }

  lemma SteadyKept(cfg: Config, n: nat, p: PoolId, r: Recorded, l: Label, o: Out)
    requires Inv(cfg, r.s) && Does(cfg, r.s, l, o) && Actual(cfg, r.s, l, o) && Steady(cfg, n, p, r)
    ensures o.sh.pools.created >= n
    ensures o.sh.pools.created == n ==> Steady(cfg, n, p, After(r, l, Apply(r.s, l, o)))
  {
    OpensMore(r.s.sh.pools, PhaseOf(ThreadOf(r.s, l.t).pc), o.sh.pools, PhaseOf(o.pc), r.s.sh.closing);
    if o.sh.pools.created == n {
      SteadyMover(cfg, r.s, l, o);
      var r' := After(r, l, Apply(r.s, l, o));
      forall t | t in r'.s.threads ensures NoPublisher(r'.s.threads[t].pc) {
        if o.spawn.Some? {
          ChildHolds(cfg, r.s, l, o);
        }
      }
      forall t, d | Carries(cfg, r', t, d) ensures d == p {
        SteadyCarries(cfg, n, p, r, l, o, t, d);
      }
    }
  }

  lemma SteadyStored(cfg: Config, n: nat, p: PoolId, r: Recorded, t: Tid)
    requires Steady(cfg, n, p, r) && t in r.pending
    ensures Steady(cfg, n, p, Stored(r, t))
  {
    assert Carries(cfg, r, t, r.pending[t]);
    forall u, d | Carries(cfg, Stored(r, t), u, d) ensures d == p {
      assert Carries(cfg, r, u, d);
    }
  }

  lemma SteadyRun(cfg: Config, rs: seq<Recorded>, ms: seq<Move>, i: nat, j: nat, n: nat, p: PoolId)
    requires IsRecordedRun(cfg, rs, ms) && i <= j < |rs| && Steady(cfg, n, p, rs[i])
    ensures rs[j].s.sh.pools.created == n ==> Steady(cfg, n, p, rs[j])
  {
    var P := (r: Recorded) => r.s.sh.pools.created > n || Steady(cfg, n, p, r);
    forall r: Recorded, l: Label, o: Out |
        Inv(cfg, r.s) && Does(cfg, r.s, l, o) && Actual(cfg, r.s, l, o) && l.t !in r.pending && P(r)
      ensures P(After(r, l, Apply(r.s, l, o))) {
      OpensMore(r.s.sh.pools, PhaseOf(ThreadOf(r.s, l.t).pc), o.sh.pools, PhaseOf(o.pc), r.s.sh.closing);
      if Steady(cfg, n, p, r) {
        SteadyKept(cfg, n, p, r, l, o);
      }
    }
    forall r: Recorded, t: Tid | Inv(cfg, r.s) && t in r.pending && P(r) ensures P(Stored(r, t)) {
      if Steady(cfg, n, p, r) {
        SteadyStored(cfg, n, p, r, t);
      }
    }
    RunKeepsRecorded(cfg, rs, ms, i, j, P);
  }

  // ---------------------------------------------------------------- how another record comes about

  /** The run goes on, and no pool is opened. */
  ghost predicate GoesOn(cfg: Config, rs: seq<Recorded>, ms: seq<Move>, rs': seq<Recorded>, ms': seq<Move>)
    requires |rs| == |ms| + 1
  {
    && IsRecordedRun(cfg, rs', ms') && rs <= rs' && ms <= ms'
    && rs'[|ms'|].s.sh.pools.created == rs[|ms|].s.sh.pools.created
  }

  lemma Acts(cfg: Config, rs: seq<Recorded>, ms: seq<Move>, t: Tid, ch: Choice)
      returns (rs': seq<Recorded>, ms': seq<Move>, o: Out)
    requires IsRecordedRun(cfg, rs, ms) && t in rs[|ms|].s.threads && t !in rs[|ms|].pending
    requires !Relies(rs[|ms|].s.threads[t].pc, ch)
    requires var n := Next(cfg, rs[|ms|].s.sh, t, rs[|ms|].s.threads[t], ch, 0);
             n.Some? && n.value.lock == NoLock && n.value.spawn.None?
    ensures Next(cfg, rs[|ms|].s.sh, t, rs[|ms|].s.threads[t], ch, 0) == Some(o)
    ensures IsRecordedRun(cfg, rs', ms') && rs <= rs' && ms <= ms'
    ensures rs'[|ms'|] == After(rs[|ms|], Label(t, ch, 0), Apply(rs[|ms|].s, Label(t, ch, 0), o))
  {
    var r, l := rs[|ms|], Label(t, ch, 0);
    o := Next(cfg, r.s.sh, t, r.s.threads[t], ch, 0).value;
    var r' := After(r, l, Apply(r.s, l, o));
    ExtendRecorded(cfg, rs, ms, Act(l), r');
    rs', ms' := rs + [r'], ms + [Act(l)];
  }

  lemma StoresRecord(cfg: Config, rs: seq<Recorded>, ms: seq<Move>, t: Tid)
      returns (rs': seq<Recorded>, ms': seq<Move>)
    requires IsRecordedRun(cfg, rs, ms) && t in rs[|ms|].pending
    ensures GoesOn(cfg, rs, ms, rs', ms') && rs'[|ms'|] == Stored(rs[|ms|], t)
  {
    var r := Stored(rs[|ms|], t);
    ExtendRecorded(cfg, rs, ms, Record(t), r);
    rs', ms' := rs + [r], ms + [Record(t)];
  }

  /** It asks the driver next. */
  predicate Asking(pc: PC) {
    || (pc.Probe? && pc.pr.Ping?) || (pc.Get? && pc.ge.Ping?) || (pc.Health? && pc.he.Query?)
    || (pc.Check? && (pc.ck.Query? || pc.ck.QueryAgain?))
  }

  /** Who is not asking yet comes one action nearer. */
  function Distance(pc: PC): nat {
    if pc.Health? && pc.he.Flag? then 2 else if Asking(pc) then 0 else 1
  }

  function Willing(pc: PC): Choice {
    if pc.Probe? then Bad else Go
  }

  lemma Nearer(cfg: Config, sh: Shared, t: Tid, th: Thread, d: PoolId)
    requires Would(cfg, sh, th.pc, d) && !Asking(th.pc)
    ensures !Relies(th.pc, Willing(th.pc)) && Validated(sh, th.pc, Willing(th.pc)).None?
    ensures var n := Next(cfg, sh, t, th, Willing(th.pc), 0);
            && n.Some? && n.value.lock == NoLock && n.value.spawn.None? && n.value.sh == sh
            && Would(cfg, sh, n.value.pc, d) && Distance(n.value.pc) < Distance(th.pc)
  {
  }

  lemma Answered(cfg: Config, sh: Shared, t: Tid, th: Thread, d: PoolId)
    requires Would(cfg, sh, th.pc, d) && Asking(th.pc)
    ensures !Relies(th.pc, Go) && Validated(sh, th.pc, Go) == Some(d)
    ensures var n := Next(cfg, sh, t, th, Go, 0);
            n.Some? && n.value.lock == NoLock && n.value.spawn.None? && n.value.sh == sh
  {
  }

  lemma {:induction false} ComesToRecord(cfg: Config, rs: seq<Recorded>, ms: seq<Move>, t: Tid, d: PoolId)
      returns (rs': seq<Recorded>, ms': seq<Move>)
    requires IsRecordedRun(cfg, rs, ms) && t in rs[|ms|].s.threads && t !in rs[|ms|].pending
    requires Would(cfg, rs[|ms|].s.sh, rs[|ms|].s.threads[t].pc, d)
    ensures GoesOn(cfg, rs, ms, rs', ms') && rs'[|ms'|].record == Some(d) && rs'[|ms'|].s.sh == rs[|ms|].s.sh
    decreases Distance(rs[|ms|].s.threads[t].pc)
  {
    var r := rs[|ms|];
    var th := r.s.threads[t];
    var o: Out;
    if Asking(th.pc) {
      Answered(cfg, r.s.sh, t, th, d);
      rs', ms', o := Acts(cfg, rs, ms, t, Go);
      rs', ms' := StoresRecord(cfg, rs', ms', t);
    } else {
      Nearer(cfg, r.s.sh, t, th, d);
      rs', ms', o := Acts(cfg, rs, ms, t, Willing(th.pc));
      rs', ms' := ComesToRecord(cfg, rs', ms', t, d);
    }
  }

  lemma Records(cfg: Config, rs: seq<Recorded>, ms: seq<Move>, t: Tid, d: PoolId)
      returns (rs': seq<Recorded>, ms': seq<Move>)
    requires IsRecordedRun(cfg, rs, ms) && Carries(cfg, rs[|ms|], t, d)
    ensures GoesOn(cfg, rs, ms, rs', ms') && rs'[|ms'|].record == Some(d)
  {
    if t !in rs[|ms|].pending {
      rs', ms' := ComesToRecord(cfg, rs, ms, t, d);
    } else {
      rs', ms' := StoresRecord(cfg, rs, ms, t);
      if rs[|ms|].pending[t] != d {
        rs', ms' := ComesToRecord(cfg, rs', ms', t, d);
      }
    }
  }

  // ---------------------------------------------------------------- every run of the machine

  lemma NewlyVerified(cfg: Config, s: State, l: Label, o: Out)
    requires Does(cfg, s, l, o) && Actual(cfg, s, l, o) && o.sh.pools.verified != s.sh.pools.verified
    ensures Validated(s.sh, ThreadOf(s, l.t).pc, l.ch).Some?
  {
    var pc := ThreadOf(s, l.t).pc;
    if pc.Connecting? {
      ConnectVerifies(cfg, s.sh, pc.o, pc.co, l.ch);
    } else if pc.Publishing? {
      PublishVerifies(s.sh, pc.o, pc.pu, l.ch);
    } else {
      VerifiesNothing(s.sh.pools, PhaseOf(pc), o.sh.pools, PhaseOf(o.pc), s.sh.closing);
    }
  }

  lemma ConnectVerifies(cfg: Config, sh: Shared, ow: Owner, at: ConnectAt, ch: Choice)
    requires NextConnect(cfg, sh, ow, at, ch).Some? && !ch.Start?
    ensures Validated(sh, Connecting(ow, at), ch).Some? ||
        NextConnect(cfg, sh, ow, at, ch).value.sh.pools.verified == sh.pools.verified
  {
  }

  lemma PublishVerifies(sh: Shared, ow: Owner, at: PublishAt, ch: Choice)
    requires NextPublish(sh, ow, at, ch).Some?
    ensures NextPublish(sh, ow, at, ch).value.sh.pools.verified == sh.pools.verified
  {
  }

  lemma VerifiesNothing(ps: Pools, a: Phase, ps': Pools, b: Phase, closing: bool)
    requires PoolMove(closing, ps, a, ps', b) && !a.Candidate?
    ensures ps'.verified == ps.verified
  {
  }

  /** Who relies on the record comes after a publication. */
  lemma ReliesOnSomething(cfg: Config, r: Recorded, l: Label)
    requires Inv(cfg, r.s) && AllVerified(r) && Relies(ThreadOf(r.s, l.t).pc, l.ch)
    ensures r.s.sh.pools.verified != {}
  {
    ReadyToMove(cfg, r.s, l.t);
    assert r.s.sh.pools.history[0] in r.s.sh.pools.verified;
  }

  /** Nothing waits to be recorded, and something is recorded once a pool was verified. */
  ghost predicate UpToDate(r: Recorded) {
    r.pending == map[] && (r.s.sh.pools.verified != {} ==> r.record.Some?)
  }

  lemma ActsAndStores(cfg: Config, rs: seq<Recorded>, ms: seq<Move>, l: Label, s: State)
      returns (rs': seq<Recorded>, ms': seq<Move>)
    requires IsRecordedRun(cfg, rs, ms) && UpToDate(rs[|ms|]) && Step(cfg, rs[|ms|].s, l) == Some(s)
    ensures IsRecordedRun(cfg, rs', ms') && rs'[|ms'|].s == s && UpToDate(rs'[|ms'|])
  {
    var r := rs[|ms|];
    var states, labels := Projects(cfg, rs, ms, |ms|);
    RunInv(cfg, states, labels, |labels|);
    VerifiedRun(cfg, rs, ms, |ms|);
    if Relies(ThreadOf(r.s, l.t).pc, l.ch) {
      ReliesOnSomething(cfg, r, l);
    }
    var r' := After(r, l, s);
    ExtendRecorded(cfg, rs, ms, Act(l), r');
    rs', ms' := rs + [r'], ms + [Act(l)];
    if Validated(r.s.sh, ThreadOf(r.s, l.t).pc, l.ch).Some? {
      rs', ms' := StoresRecord(cfg, rs', ms', l.t);
    } else {
      SameVerified(cfg, r.s, l);
    }
  }

  lemma SameVerified(cfg: Config, s: State, l: Label)
    requires Inv(cfg, s) && Step(cfg, s, l).Some? && Validated(s.sh, ThreadOf(s, l.t).pc, l.ch).None?
    ensures Step(cfg, s, l).value.sh.pools.verified == s.sh.pools.verified
  {
    var o := StepDoes(cfg, s, l);
    if o.sh.pools.verified != s.sh.pools.verified {
      NewlyVerified(cfg, s, l, o);
    }
  }

  /** Every run of the machine is one with records, each stored at once. */
  lemma {:induction false} Lifts(cfg: Config, states: seq<State>, labels: seq<Label>, i: nat)
      returns (rs: seq<Recorded>, ms: seq<Move>)
    requires IsRun(cfg, states, labels) && i < |states|
    ensures IsRecordedRun(cfg, rs, ms) && rs[|ms|].s == states[i] && UpToDate(rs[|ms|])
  {
    if i == 0 {
      return [NOTHING_RECORDED], [];
    }
    rs, ms := Lifts(cfg, states, labels, i - 1);
    assert Step(cfg, states[i - 1], labels[i - 1]) == Some(states[i - 1 + 1]);
    rs, ms := ActsAndStores(cfg, rs, ms, labels[i - 1], states[i]);
  }

  // ---------------------------------------------------------------- exactly

  /** However the run goes on, until the next pool is opened the record is of the same pool. */
  ghost predicate StaysRecorded(cfg: Config, rs: seq<Recorded>, ms: seq<Move>)
    requires |rs| == |ms| + 1
  {
    forall rs': seq<Recorded>, ms': seq<Move> ::
      GoesOn(cfg, rs, ms, rs', ms') ==> rs'[|ms'|].record == rs[|ms|].record
  }

  /** Goroutine `t` has just recorded the validation of the pool it published. */
  ghost predicate HasRecordedPublication(cfg: Config, rs: seq<Recorded>, ms: seq<Move>, t: Tid) {
    && IsRecordedRun(cfg, rs, ms) && ms != [] && ms[|ms| - 1] == Record(t)
    && ThreadOf(rs[|ms|].s, t).pc.Publishing?
  }

  lemma RecordedPublication(cfg: Config, rs: seq<Recorded>, ms: seq<Move>, t: Tid)
    requires HasRecordedPublication(cfg, rs, ms, t)
    ensures var r := rs[|ms|];
            && r.record.Some? && r.record == r.s.sh.pools.db
            && t in r.s.threads && r.s.threads[t].pc.Publishing? && r.s.threads[t].pc.pu.UnlockMu?
  {
    var i := |ms| - 1;
    PendingRun(cfg, rs, ms, i);
    assert NextRecorded(cfg, rs[i], ms[i]) == Some(rs[i + 1]);
  }

  lemma OthersPublishNot(s: State, t: Tid, u: Tid)
    requires LockInv(s) && t in s.threads && u in s.threads && s.threads[t].pc.Publishing? && t != u
    ensures NoPublisher(s.threads[u].pc)
  {
    assert LockThread(s, t) && LockThread(s, u);
  }

  lemma SteadyAfterPublication(cfg: Config, rs: seq<Recorded>, ms: seq<Move>, t: Tid)
    requires HasRecordedPublication(cfg, rs, ms, t)
    requires forall u: Tid, d: PoolId :: Carries(cfg, rs[|ms|], u, d) ==> rs[|ms|].record == Some(d)
    ensures rs[|ms|].record.Some? && Steady(cfg, rs[|ms|].s.sh.pools.created, rs[|ms|].record.value, rs[|ms|])
  {
    RecordedPublication(cfg, rs, ms, t);
    var states, labels := Projects(cfg, rs, ms, |ms|);
    RunInv(cfg, states, labels, |labels|);
    var s := rs[|ms|].s;
    forall u | u in s.threads ensures NoPublisher(s.threads[u].pc) {
      if u != t {
        OthersPublishNot(s, t, u);
      }
    }
  }

  /** When a Startup or Reconnect has recorded the validation of the pool it published, the record is of the
      published pool; and it stays so until the next pool is opened, whatever happens, if and only if no
      goroutine has found another pool good, or may do so with what it has read. */
  lemma RecordStaysExactly(cfg: Config, rs: seq<Recorded>, ms: seq<Move>, t: Tid)
    requires HasRecordedPublication(cfg, rs, ms, t)
    ensures rs[|ms|].record.Some? && rs[|ms|].record == rs[|ms|].s.sh.pools.db
    ensures StaysRecorded(cfg, rs, ms) <==>
        forall u: Tid, d: PoolId :: Carries(cfg, rs[|ms|], u, d) ==> rs[|ms|].record == Some(d)
  {
    var r := rs[|ms|];
    RecordedPublication(cfg, rs, ms, t);
    if u: Tid, d: PoolId :| Carries(cfg, r, u, d) && r.record != Some(d) {
      var rs', ms' := Records(cfg, rs, ms, u, d);
      assert GoesOn(cfg, rs, ms, rs', ms');
    } else {
      SteadyAfterPublication(cfg, rs, ms, t);
      forall rs': seq<Recorded>, ms': seq<Move> | GoesOn(cfg, rs, ms, rs', ms')
        ensures rs'[|ms'|].record == r.record {
        SteadyRun(cfg, rs', ms', |ms|, |ms'|, r.s.sh.pools.created, r.record.value);
      }
    }
  }
}
