/**
 The two models of the plugin agree: whatever PluginSequential says a call comes to, the machine has a run
 in which that call, undisturbed, comes to the same.
 */
module PluginSimulation {
  import opened Wrappers
  import opened PluginMachine
  import opened PluginScenarios
  import Seq = PluginSequential

  /** From `sh` to `sh'`, `replaced` Reconnects have succeeded. */
  predicate Became(sh: Shared, sh': Shared, connected: bool, replaced: nat) {
    && sh'.closing == sh.closing && sh'.pools.connected == connected
    && sh'.pools.created == sh.pools.created + replaced
    && sh'.pools.db == (if replaced == 0 then sh.pools.db else Some(sh'.pools.created - 1))
  }

  /** One after the other. */
  lemma Chains(a: Shared, b: Shared, c: Shared, connected: bool, m: nat, connected': bool, n: nat)
    requires Became(a, b, connected, m) && Became(b, c, connected', n)
    ensures Became(a, c, connected', m + n)
  {
  }

  predicate Sane(sh: Shared) {
    sh.pools.connected ==> sh.pools.db.Some?
  }

  function FlagsOf(sh: Shared, lastPing: nat): Seq.Flags {
    Seq.Flags(sh.pools.connected, sh.closing, lastPing)
  }

  // ---------------------------------------------------------------- IsConnectedContext

  lemma ProbeReads(x: Stretch, v: View) returns (w: View)
    requires x.At(v) && v.pc.Probe? && v.pc.pr.Flag? && v.locks == FREE
    requires v.sh.pools.connected && v.sh.pools.db.Some? && !v.sh.closing
    ensures w == View(v.sh, FREE, Probe(v.pc.pk, Cache(v.sh.pools.db.value))) && x.At(w)
  {
    w := InProbe(x, v, Go);
    w := InProbe(x, w, Go);
    w := InProbe(x, w, Go);
    w := InProbe(x, w, Go);
    ReadersLeave(x.t);
  }

  lemma Probes(x: Stretch, v: View, lastPing: nat, ping: Seq.Ping) returns (w: View)
    requires x.At(v) && v.pc.Probe? && v.pc.pr.Flag? && v.locks == FREE && Sane(v.sh)
    ensures var live := Seq.Live(FlagsOf(v.sh, lastPing), ping);
            && w.locks == FREE && w.pc == AfterProbing(x.cfg, v.pc.pk, live) && x.At(w)
            && Became(v.sh, w.sh, v.sh.pools.connected && (v.sh.closing || live), 0)
  {
    if !v.sh.pools.connected {
      w := InProbe(x, v, Go);
    } else if v.sh.closing {
      w := InProbe(x, v, Go);
      w := InProbe(x, w, Go);
    } else {
      w := ProbeReads(x, v);
      if Seq.Cached(lastPing, ping.now) {
        w := InProbe(x, w, Go);
      } else {
        w := InProbe(x, w, Bad);
        w := InProbe(x, w, if ping.ok then Go else Bad);
        if !ping.ok {
          w := InProbe(x, w, Go);
        }
      }
    }
  }

  // ---------------------------------------------------------------- ReconnectContext

  lemma LocksForReconnect(x: Stretch, v: View) returns (w: View)
    requires x.At(v) && v.pc.Reconnect? && v.pc.re.Lock? && v.locks == FREE
    ensures w == View(v.sh, Locks(Some(x.t), Some(x.t), {}), Reconnect(v.pc.k, ReconnectAt.CheckClosing)) && x.At(w)
  {
    w := InReconnect(x, v, Go);
    w := InReconnect(x, w, Go);
    w := InReconnect(x, w, Go);
  }

  lemma Refused(x: Stretch, v: View) returns (w: View)
    requires x.At(v) && v.pc.Reconnect? && v.pc.re.UnlockMu? && v.locks == Locks(Some(x.t), Some(x.t), {})
    ensures w == View(v.sh, FREE, AfterReconnecting(v.pc.k, false)) && x.At(w)
  {
    w := InReconnect(x, v, Go);
    w := InReconnect(x, w, Go);
  }

  lemma ConnectFails(x: Stretch, v: View) returns (w: View)
    requires x.At(v) && v.pc.Connecting? && v.pc.co.Begin? && v.locks == Held(x.t)
    ensures w.locks == FREE && w.sh.pools == v.sh.pools
    ensures w.pc == if v.pc.o.ByStartup? then Idle else AfterReconnecting(v.pc.o.k, false)
    ensures w.sh.closing == v.sh.closing && x.At(w)
  {
    w := InConnect(x, v, Go);
    w := InConnect(x, w, Bad);
    if !x.cfg.retryEnabled {
      w := InConnect(x, w, Go);
    }
    w := InConnect(x, w, Go);
  }

  lemma Opens(x: Stretch, v: View) returns (w: View)
    requires x.At(v) && v.pc.Connecting? && v.pc.co.Begin?
    ensures w.locks == v.locks && w.pc == Connecting(v.pc.o, ConnectAt.Open(0)) && x.At(w)
    ensures w.sh.closing == v.sh.closing && w.sh.pools == v.sh.pools
  {
    w := InConnect(x, v, Go);
    if x.cfg.retryEnabled {
      w := InConnect(x, w, Go);
    }
  }

  lemma ConnectAnswers(x: Stretch, v: View) returns (w: View)
    requires x.At(v) && v.pc.Connecting? && v.pc.co.Begin? && v.locks == Held(x.t)
    ensures w.locks == Held(x.t) && x.At(w)
    ensures var p := v.sh.pools.created;
            w.pc == Publishing(v.pc.o, if v.pc.o.ByStartup? then CheckStale(p) else PublishAt.LockMu(p))
    ensures w.sh.closing == v.sh.closing && w.sh.pools.created == v.sh.pools.created + 1
    ensures w.sh.pools.db == v.sh.pools.db && w.sh.pools.connected == v.sh.pools.connected
    ensures w.sh.pools.closes == v.sh.pools.closes
  {
    w := Opens(x, v);
    w := InConnect(x, w, Go);
    w := InConnect(x, w, Go);
    w := InConnect(x, w, Go);
    w := InConnect(x, w, Go);
  }

  lemma Stores(x: Stretch, v: View, p: PoolId) returns (w: View)
    requires x.At(v) && v.pc.Publishing? && v.pc.pu == PublishAt.LockMu(p) && v.locks == Held(x.t)
    requires v.pc.o.ByReconnect?
    ensures w.locks == Held(x.t) && x.At(w)
    ensures w.pc == if v.pc.o.seen.Some? then Publishing(v.pc.o, CloseOld) else Announcing(v.pc.o, AnnounceAt.RLock)
    ensures w.sh.closing == v.sh.closing && w.sh.pools.db == Some(p) && w.sh.pools.connected
    ensures w.sh.pools.created == v.sh.pools.created
  {
    w := InPublish(x, v, Go);
    w := InPublish(x, w, Go);
    w := InPublish(x, w, Go);
    w := InPublish(x, w, Go);
    w := InPublish(x, w, Go);
  }

  lemma Replaces(x: Stretch, v: View, p: PoolId) returns (w: View)
    requires x.At(v) && v.pc.Publishing? && v.pc.pu == PublishAt.LockMu(p) && v.locks == Held(x.t)
    requires v.pc.o.ByReconnect?
    ensures w.locks == Held(x.t) && w.pc == Announcing(v.pc.o, AnnounceAt.RLock) && x.At(w)
    ensures w.sh.closing == v.sh.closing && w.sh.pools.db == Some(p) && w.sh.pools.connected
    ensures w.sh.pools.created == v.sh.pools.created
  {
    w := Stores(x, v, p);
    if v.pc.o.seen.Some? {
      w := InPublish(x, w, Go);
    }
  }

  lemma Announced(x: Stretch, v: View) returns (w: View)
    requires x.At(v) && v.pc.Announcing? && v.pc.an.RLock? && v.pc.o.ByReconnect? && v.locks == Held(x.t)
    ensures w.locks == FREE && w.pc == AfterReconnecting(v.pc.o.k, true) && x.At(w)
    ensures w.sh.pools == v.sh.pools && w.sh.closing == v.sh.closing
  {
    w := InAnnounce(x, v, Go);
    w := InAnnounce(x, w, Go);
    ReadersLeave(x.t);
    w := InAnnounce(x, w, Go);
    Act(x, w, Go);
    w := View(w.sh, FREE, AfterReconnecting(v.pc.o.k, true));
  }

  lemma Reconnects(x: Stretch, v: View, c: Seq.Connect) returns (w: View)
    requires x.At(v) && v.pc.Reconnect? && v.pc.re.Lock? && v.locks == FREE
    ensures var ok := Seq.Recovers(FlagsOf(v.sh, 0), c);
            && w.locks == FREE && w.pc == AfterReconnecting(v.pc.k, ok) && x.At(w)
            && Became(v.sh, w.sh, ok || (v.sh.pools.connected && (v.sh.closing || c.ctxDone)), if ok then 1 else 0)
  {
    w := LocksForReconnect(x, v);
    w := InReconnect(x, w, Go);
    if v.sh.closing {
      w := Refused(x, w);
    } else if c.ctxDone {
      w := InReconnect(x, w, Bad);
      w := Refused(x, w);
    } else {
      w := InReconnect(x, w, Go);
      w := InReconnect(x, w, Go);
      w := InConnect(x, w, Go);
      w := Connects(x, w, c.ok);
    }
  }

  lemma Connects(x: Stretch, v: View, ok: bool) returns (w: View)
    requires x.At(v) && v.pc.Connecting? && v.pc.co.Begin? && v.locks == Held(x.t)
    requires v.pc.o.ByReconnect? && v.pc.o.seen == v.sh.pools.db && !v.sh.pools.connected
    ensures w.locks == FREE && w.pc == AfterReconnecting(v.pc.o.k, ok) && x.At(w)
    ensures Became(v.sh, w.sh, ok, if ok then 1 else 0)
  {
    if ok {
      w := ConnectAnswers(x, v);
      w := Replaces(x, w, v.sh.pools.created);
      w := Announced(x, w);
    } else {
      w := ConnectFails(x, v);
    }
  }

  // ---------------------------------------------------------------- GetDBWithContext

  /** The first check, for an operation that goes on at `go` when it succeeds. */
  lemma Begins(x: Stretch, v: View, lastPing: nat, probe: Seq.Ping, c: Seq.Connect, go: PC) returns (w: View)
    requires x.At(v) && v.pc.Probe? && v.pc.pr.Flag? && v.locks == FREE && Sane(v.sh)
    requires || (v.pc.pk.ProbeToGet? && go == Get(v.pc.pk.g, GetAt.CheckCtx))
             || (v.pc.pk.ProbeToCheck? && go == Check(CheckAt.RLock))
    ensures var e := Seq.FirstCheck(x.cfg.autoReconnect, FlagsOf(v.sh, lastPing), probe, c);
            && w.locks == FREE && w.pc == (if e.ok then go else Idle) && x.At(w)
            && Became(v.sh, w.sh, e.connected, e.replaced) && Sane(w.sh)
            && (e.ok ==> w.sh.pools.connected && !w.sh.closing)
  {
    w := Probes(x, v, lastPing, probe);
    if !Seq.Live(FlagsOf(v.sh, lastPing), probe) && x.cfg.autoReconnect {
      var u := Reconnects(x, w, c);
      Chains(v.sh, w.sh, u.sh, w.sh.pools.connected, 0, u.sh.pools.connected, u.sh.pools.created - w.sh.pools.created);
      w := u;
    }
  }

  lemma ReadsDb(x: Stretch, v: View) returns (w: View)
    requires x.At(v) && v.pc.Get? && v.pc.ge.CheckCtx? && v.locks == FREE
    ensures w == View(v.sh, FREE, Get(v.pc.g, Alive(v.sh.pools.db))) && x.At(w)
  {
    w := InGet(x, v, Go);
    w := InGet(x, w, Go);
    w := InGet(x, w, Go);
    ReadersLeave(x.t);
  }

  lemma ReadsAgain(x: Stretch, v: View) returns (w: View)
    requires x.At(v) && v.pc.Get? && v.pc.ge.RLockAgain? && v.locks == FREE
    ensures w == View(v.sh, FREE, Get(v.pc.g, Return(v.sh.pools.db))) && x.At(w)
  {
    w := InGet(x, v, Go);
    w := InGet(x, w, Go);
    ReadersLeave(x.t);
  }

  /** The Reconnect after a failed handout ping. */
  lemma Repairs(x: Stretch, v: View, e: Seq.Effect, c: Seq.Connect) returns (w: View)
    requires x.At(v) && v.pc.Reconnect? && v.pc.re.Lock? && v.pc.k.ToGetAgain? && v.locks == FREE
    requires v.sh.pools.connected && v.sh.pools.db.Some? && !v.sh.closing
    ensures var e' := Seq.Unanswered(true, e, c);
            && w.locks == FREE && w.pc == (if e'.ok then Get(v.pc.k.g, Return(w.sh.pools.db)) else Idle) && x.At(w)
            && e'.replaced == e.replaced + (if e'.ok then 1 else 0)
            && Became(v.sh, w.sh, e'.connected, if e'.ok then 1 else 0)
  {
    w := Reconnects(x, v, c);
    if Seq.Recovers(FlagsOf(v.sh, 0), c) {
      w := ReadsAgain(x, w);
    }
  }

  /** A handout ping that fails. */
  lemma FindsDead(x: Stretch, v: View, e: Seq.Effect, c: Seq.Connect) returns (w: View)
    requires x.At(v) && v.pc.Get? && v.pc.ge.Ping? && v.locks == FREE && e.ok
    requires v.sh.pools.connected && v.sh.pools.db.Some? && !v.sh.closing
    ensures var e' := Seq.Unanswered(x.cfg.autoReconnect, e, c);
            && w.locks == FREE && w.pc == (if e'.ok then Get(v.pc.g, Return(w.sh.pools.db)) else Idle) && x.At(w)
            && e'.replaced == e.replaced + (if e'.ok then 1 else 0)
            && Became(v.sh, w.sh, e'.connected, if e'.ok then 1 else 0)
  {
    w := InGet(x, v, Bad);
    if x.cfg.autoReconnect {
      w := Repairs(x, w, e, c);
    } else {
      w := InGet(x, w, Go);
    }
  }

  /** What the handout comes to when its first check has succeeded, by whether its own ping is due. */
  function Onward(auto: bool, e: Seq.Effect, due: bool, h: Seq.Handout): Seq.Effect {
    if h.ctxDone then e.(ok := false)
    else if !due then e
    else if h.alive.ok then e.(found := Some(h.alive.now))
    else Seq.Unanswered(auto, e, h.second)
  }

  /** From the check of the context on. */
  lemma GoesOn(x: Stretch, v: View, e: Seq.Effect, due: bool, h: Seq.Handout) returns (w: View)
    requires x.At(v) && v.pc.Get? && v.pc.ge.CheckCtx? && v.locks == FREE && e.ok && e.connected
    requires v.sh.pools.connected && v.sh.pools.db.Some? && !v.sh.closing && (due ==> x.cfg.ensureAlive)
    ensures var e' := Onward(x.cfg.autoReconnect, e, due, h);
            && w.locks == FREE && w.pc == (if e'.ok then Get(v.pc.g, Return(w.sh.pools.db)) else Idle) && x.At(w)
            && e'.replaced >= e.replaced && Became(v.sh, w.sh, e'.connected, e'.replaced - e.replaced)
  {
    if h.ctxDone {
      w := InGet(x, v, Bad);
    } else {
      w := ReadsDb(x, v);
      w := InGet(x, w, if due then Go else Bad);
      if due && h.alive.ok {
        w := InGet(x, w, Go);
      } else if due {
        w := FindsDead(x, w, e, h.second);
      }
    }
  }

  /** The handout's own ping is due. */
  predicate Due(cfg: Config, lastPing: nat, e: Seq.Effect, h: Seq.Handout) {
    cfg.ensureAlive && Seq.PingsFirst(if e.found.Some? then Seq.Unix(e.found.value) else lastPing, h.alive.now)
  }

  lemma HandedIs(cfg: Config, f: Seq.Flags, h: Seq.Handout)
    ensures var e := Seq.FirstCheck(cfg.autoReconnect, f, h.probe, h.first);
            Seq.Handed(cfg.autoReconnect, cfg.ensureAlive, f, h) ==
            if e.ok then Onward(cfg.autoReconnect, e, Due(cfg, f.lastPing, e, h), h) else e
  {
  }

  lemma HandsOut(x: Stretch, v: View, lastPing: nat, h: Seq.Handout) returns (w: View)
    requires x.At(v) && v.pc.Probe? && v.pc.pr.Flag? && v.pc.pk.ProbeToGet? && v.locks == FREE && Sane(v.sh)
    ensures var e := Seq.Handed(x.cfg.autoReconnect, x.cfg.ensureAlive, FlagsOf(v.sh, lastPing), h);
            && w.locks == FREE && w.pc == (if e.ok then Get(v.pc.pk.g, Return(w.sh.pools.db)) else Idle) && x.At(w)
            && Became(v.sh, w.sh, e.connected, e.replaced)
  {
    HandedIs(x.cfg, FlagsOf(v.sh, lastPing), h);
    var e := Seq.FirstCheck(x.cfg.autoReconnect, FlagsOf(v.sh, lastPing), h.probe, h.first);
    w := Begins(x, v, lastPing, h.probe, h.first, Get(v.pc.pk.g, GetAt.CheckCtx));
    if e.ok {
      w := ThenGoesOn(x, v.sh, w, e, Due(x.cfg, lastPing, e, h), h);
    }
  }

  lemma ThenGoesOn(x: Stretch, sh: Shared, v: View, e: Seq.Effect, due: bool, h: Seq.Handout) returns (w: View)
    requires x.At(v) && v.pc.Get? && v.pc.ge.CheckCtx? && v.locks == FREE && e.ok && e.connected
    requires v.sh.pools.connected && v.sh.pools.db.Some? && !v.sh.closing && (due ==> x.cfg.ensureAlive)
    requires Became(sh, v.sh, e.connected, e.replaced)
    ensures var e' := Onward(x.cfg.autoReconnect, e, due, h);
            && w.locks == FREE && w.pc == (if e'.ok then Get(v.pc.g, Return(w.sh.pools.db)) else Idle) && x.At(w)
            && Became(sh, w.sh, e'.connected, e'.replaced)
  {
    var e' := Onward(x.cfg.autoReconnect, e, due, h);
    w := GoesOn(x, v, e, due, h);
    Chains(sh, v.sh, w.sh, e.connected, e.replaced, e'.connected, e'.replaced - e.replaced);
  }

  // ---------------------------------------------------------------- GetValidatedConn

  /** A connection is asked for, and pinged. */
  lemma AsksConnection(x: Stretch, v: View, conn: (bool, bool)) returns (w: View)
    requires x.At(v) && v.pc.Get? && v.pc.ge.Return? && v.pc.ge.snap.Some? && !v.pc.g.GetToCaller? && v.locks == FREE
    ensures var again := v.pc.g.GetToRevalidate?;
            && w == View(v.sh, FREE, if conn == (true, false) && !again && x.cfg.autoReconnect
                                     then Reconnect(ToRevalidate, ReconnectAt.Lock) else Idle)
            && x.At(w)
  {
    w := InGet(x, v, Go);
    w := InValidate(x, w, if conn.0 then Go else Bad);
    if conn.0 {
      w := InValidate(x, w, if conn.1 then Go else Bad);
    }
  }

  lemma TriesAgain(x: Stretch, v: View, c: Seq.Connect, h: Seq.Handout, conn: (bool, bool)) returns (w: View)
    requires x.At(v) && v.pc == Reconnect(ToRevalidate, ReconnectAt.Lock) && v.locks == FREE
    requires v.sh.pools.connected && v.sh.pools.db.Some? && !v.sh.closing
    ensures var e := Seq.Handed(x.cfg.autoReconnect, x.cfg.ensureAlive, Seq.Flags(true, false, Seq.Unix(c.now)), h);
            && w.locks == FREE && w.pc == Idle && x.At(w)
            && if c.ctxDone || !c.ok then Became(v.sh, w.sh, c.ctxDone, 0)
               else Became(v.sh, w.sh, e.connected, e.replaced + 1)
  {
    w := Reconnects(x, v, c);
    if !c.ctxDone && c.ok {
      var e := Seq.Handed(x.cfg.autoReconnect, x.cfg.ensureAlive, Seq.Flags(true, false, Seq.Unix(c.now)), h);
      var u := HandsOut(x, w, Seq.Unix(c.now), h);
      Chains(v.sh, w.sh, u.sh, true, 1, e.connected, e.replaced);
      w := u;
      if e.ok {
        w := AsksConnection(x, w, conn);
      }
    }
  }

  lemma GetsConnection(x: Stretch, v: View, lastPing: nat, h: Seq.Handout, conn: (bool, bool), c: Seq.Connect,
                       h': Seq.Handout, conn': (bool, bool)) returns (w: View)
    requires x.At(v) && v.pc == BeginGet(GetToValidate) && v.locks == FREE && Sane(v.sh)
    ensures var got := Seq.Got(x.cfg.autoReconnect, x.cfg.ensureAlive, FlagsOf(v.sh, lastPing), h, conn, c, h', conn');
            w.locks == FREE && w.pc == Idle && x.At(w) && Became(v.sh, w.sh, got.connected, got.replaced)
  {
    var f := FlagsOf(v.sh, lastPing);
    var e := Seq.Handed(x.cfg.autoReconnect, x.cfg.ensureAlive, f, h);
    Seq.FirstConnection(x.cfg.autoReconnect, x.cfg.ensureAlive, f, h, conn, c, h', conn');
    HandedLeaves(x.cfg, f, h);
    w := HandsOut(x, v, lastPing, h);
    if e.ok {
      w := AsksConnection(x, w, conn);
      if conn == (true, false) && x.cfg.autoReconnect {
        var u := TriesAgain(x, w, c, h', conn');
        Chains(v.sh, w.sh, u.sh, e.connected, e.replaced,
               u.sh.pools.connected, u.sh.pools.created - w.sh.pools.created);
        w := u;
      }
    }
  }

  /** A handout that succeeds leaves the plugin connected, and it is not closing. */
  lemma HandedLeaves(cfg: Config, f: Seq.Flags, h: Seq.Handout)
    ensures Seq.Handed(cfg.autoReconnect, cfg.ensureAlive, f, h).ok ==>
              !f.closing && Seq.Handed(cfg.autoReconnect, cfg.ensureAlive, f, h).connected
  {
  }

  // ---------------------------------------------------------------- CheckHealthContext and ReportHealth

  lemma ChecksDb(x: Stretch, v: View) returns (w: View)
    requires x.At(v) && v.pc == Check(CheckAt.RLock) && v.locks == FREE && v.sh.pools.db.Some?
    ensures w == View(v.sh, FREE, Check(CheckAt.Query(v.sh.pools.db.value))) && x.At(w)
  {
    w := InCheck(x, v, Go);
    w := InCheck(x, w, Go);
    ReadersLeave(x.t);
  }

  lemma ChecksAgain(x: Stretch, v: View) returns (w: View)
    requires x.At(v) && v.pc == Check(CheckAt.RLockAgain) && v.locks == FREE && v.sh.pools.db.Some?
    ensures w == View(v.sh, FREE, Idle) && x.At(w)
  {
    w := InCheck(x, v, Go);
    w := InCheck(x, w, Go);
    ReadersLeave(x.t);
    w := InCheck(x, w, Go);
  }

  /** A query that fails. */
  lemma QueryFails(x: Stretch, v: View, e: Seq.Effect, c: Seq.Connect) returns (w: View)
    requires x.At(v) && v.pc.Check? && v.pc.ck.Query? && v.locks == FREE && e.ok
    requires v.sh.pools.connected && v.sh.pools.db.Some? && !v.sh.closing
    ensures var e' := Seq.Unanswered(x.cfg.autoReconnect, e, c);
            && w.locks == FREE && w.pc == Idle && x.At(w)
            && e'.replaced == e.replaced + (if e'.ok then 1 else 0)
            && Became(v.sh, w.sh, e'.connected, if e'.ok then 1 else 0)
  {
    w := InCheck(x, v, Bad);
    if x.cfg.autoReconnect {
      w := Reconnects(x, w, c);
      if Seq.Recovers(FlagsOf(v.sh, 0), c) {
        w := ChecksAgain(x, w);
      }
    } else {
      w := InCheck(x, w, Go);
    }
  }

  lemma ChecksHealth(x: Stretch, v: View, lastPing: nat, h: Seq.Checkup) returns (w: View)
    requires x.At(v) && v.pc == Probe(ProbeToCheck, ProbeAt.Flag) && v.locks == FREE && Sane(v.sh)
    ensures var e := Seq.Checked(x.cfg.autoReconnect, FlagsOf(v.sh, lastPing), h);
            w.locks == FREE && w.pc == Idle && x.At(w) && Became(v.sh, w.sh, e.connected, e.replaced)
  {
    var e := Seq.FirstCheck(x.cfg.autoReconnect, FlagsOf(v.sh, lastPing), h.probe, h.first);
    w := Begins(x, v, lastPing, h.probe, h.first, Check(CheckAt.RLock));
    if e.ok {
      w := ChecksDb(x, w);
      if h.query.ok {
        w := InCheck(x, w, Go);
      } else {
        var e' := Seq.Unanswered(x.cfg.autoReconnect, e, h.second);
        var u := QueryFails(x, w, e, h.second);
        Chains(v.sh, w.sh, u.sh, e.connected, e.replaced, e'.connected, if e'.ok then 1 else 0);
        w := u;
      }
    }
  }

  lemma ReportsHealth(x: Stretch, v: View, query: Seq.Ping) returns (w: View)
    requires x.At(v) && v.pc == Health(HealthAt.RLock) && v.locks == FREE && Sane(v.sh)
    ensures w.locks == FREE && w.pc == Idle && x.At(w)
    ensures Became(v.sh, w.sh, v.sh.pools.connected && (v.sh.closing || query.ok), 0)
  {
    w := InHealth(x, v, Go);
    w := InHealth(x, w, Go);
    ReadersLeave(x.t);
    w := InHealth(x, w, Go);
    if v.sh.pools.connected {
      w := InHealth(x, w, Go);
      if !v.sh.closing {
        w := InHealth(x, w, if query.ok then Go else Bad);
        if !query.ok {
          w := InHealth(x, w, Go);
        }
      }
    }
  }

  // ---------------------------------------------------------------- StartupTasksContext

  lemma Passes(x: Stretch, v: View, ctxDone: bool) returns (w: View)
    requires x.At(v) && v.pc == Startup(CheckConnected) && v.locks == Held(x.t)
    ensures x.At(w) && w.sh == v.sh && w.locks == v.locks
    ensures w.pc == if v.sh.pools.connected || v.sh.closing || ctxDone then Startup(StartAt.Release)
                    else Connecting(ByStartup(v.sh.pools.db, v.sh.pools.created), Begin)
  {
    w := InStartup(x, v, Go);
    if !v.sh.pools.connected {
      w := InStartup(x, w, Go);
      if !v.sh.closing {
        w := InStartup(x, w, if ctxDone then Bad else Go);
      }
    }
  }

  lemma StartsConnect(x: Stretch, v: View, c: Seq.Connect) returns (w: View)
    requires x.At(v) && v.pc == Startup(StartAt.Lock) && v.locks == FREE
    ensures x.At(w) && w.sh == v.sh
    ensures if v.sh.pools.connected || v.sh.closing || c.ctxDone then w == View(v.sh, FREE, Idle)
            else w == View(v.sh, Held(x.t), Connecting(ByStartup(v.sh.pools.db, v.sh.pools.created), Begin))
  {
    w := InStartup(x, v, Go);
    w := Passes(x, w, c.ctxDone);
    if w.pc.Startup? {
      w := InStartup(x, w, Go);
    }
  }

  lemma ThrowsAway(x: Stretch, v: View, p: PoolId) returns (w: View)
    requires x.At(v) && v.pc.Publishing? && v.pc.o.ByStartup? && v.pc.pu == CheckStale(p) && v.locks == Held(x.t)
    ensures w.locks == FREE && w.pc == Idle && x.At(w) && w.sh.closing == v.sh.closing
    ensures w.sh.pools == v.sh.pools.(closes := v.sh.pools.closes + multiset{p})
  {
    w := InPublish(x, v, Bad);
    w := InPublish(x, w, Go);
    w := InStartup(x, w, Go);
  }

  /** A Startup: refused, failed, given up, or on to its background goroutines with its pool published. */
  lemma StartsUp(x: Stretch, v: View, c: Seq.Connect, cancelledAfter: bool) returns (w: View)
    requires x.At(v) && v.pc == Startup(StartAt.Lock) && v.locks == FREE
    ensures x.At(w) && w.sh.closing == v.sh.closing
    ensures var ps, ps' := v.sh.pools, w.sh.pools;
            var connects := !ps.connected && !v.sh.closing && !c.ctxDone && c.ok;
            && ps'.created == ps.created + (if connects then 1 else 0)
            && ps'.closes == ps.closes + (if connects && cancelledAfter then multiset{ps.created} else multiset{})
            && if connects && !cancelledAfter
               then w.pc == Startup(SpawnWarmer) && ps'.db == Some(ps.created) && ps'.connected
               else w.pc == Idle && w.locks == FREE && ps'.db == ps.db && ps'.connected == ps.connected
  {
    w := StartsConnect(x, v, c);
    if w.pc.Connecting? {
      if !c.ok {
        w := ConnectFails(x, w);
      } else {
        w := ConnectAnswers(x, w);
        if cancelledAfter {
          w := ThrowsAway(x, w, v.sh.pools.created);
        } else {
          w := Publishes(x, w);
        }
      }
    }
  }

  // ---------------------------------------------------------------- the calls

  /** Goroutine `t` is idle, nobody holds a lock, and `connected` means that there is a pool. */
  ghost predicate MayCall(cfg: Config, from: State, s: State, t: Tid) {
    Can(cfg, from, s) && s.locks == FREE && ThreadOf(s, t) == Thread(Caller, Idle) && Sane(s.sh)
  }

  /** What an undisturbed call has come to. */
  ghost predicate Came(cfg: Config, from: State, s: State, t: Tid, s': State, pc: PC, e: Seq.Effect) {
    && Can(cfg, from, s') && s'.locks == FREE && s'.threads == s.threads[t := Thread(Caller, pc)]
    && Became(s.sh, s'.sh, e.connected, e.replaced)
  }

  lemma Stays(x: Stretch, s: State, w: View) returns (s': State)
    requires x.At(w) && x.home == Caller && x.others == s.threads - {x.t}
    ensures Can(x.cfg, x.from, s') && s'.sh == w.sh && s'.locks == w.locks
    ensures s'.threads == s.threads[x.t := Thread(Caller, w.pc)]
  {
    s' := Among(x.others, x.t, Caller, w);
  }

  /** An undisturbed GetDBWithContext comes to what PluginSequential says, for every outcome of its pings
      and Reconnects; when it hands out a pool it is about to return the published one. */
  lemma GetDBAgrees(cfg: Config, from: State, s: State, t: Tid, lastPing: nat, h: Seq.Handout) returns (s': State)
    requires MayCall(cfg, from, s, t)
    ensures var e := Seq.Handed(cfg.autoReconnect, cfg.ensureAlive, FlagsOf(s.sh, lastPing), h);
            Came(cfg, from, s, t, s', if e.ok then Get(GetToCaller, Return(s'.sh.pools.db)) else Idle, e)
  {
    var x, v := Calls(cfg, from, s, t, OpGetDB);
    v := HandsOut(x, v, lastPing, h);
    s' := Stays(x, s, v);
  }

  lemma GetValidatedConnAgrees(cfg: Config, from: State, s: State, t: Tid, lastPing: nat, h: Seq.Handout,
                               conn: (bool, bool), c: Seq.Connect, h': Seq.Handout, conn': (bool, bool))
      returns (s': State)
    requires MayCall(cfg, from, s, t)
    ensures Came(cfg, from, s, t, s', Idle,
                 Seq.Got(cfg.autoReconnect, cfg.ensureAlive, FlagsOf(s.sh, lastPing), h, conn, c, h', conn'))
  {
    var x, v := Calls(cfg, from, s, t, OpGetValidatedConn);
    v := GetsConnection(x, v, lastPing, h, conn, c, h', conn');
    s' := Stays(x, s, v);
  }

  lemma CheckHealthAgrees(cfg: Config, from: State, s: State, t: Tid, lastPing: nat, h: Seq.Checkup)
      returns (s': State)
    requires MayCall(cfg, from, s, t)
    ensures Came(cfg, from, s, t, s', Idle, Seq.Checked(cfg.autoReconnect, FlagsOf(s.sh, lastPing), h))
  {
    var x, v := Calls(cfg, from, s, t, OpCheckHealth);
    v := ChecksHealth(x, v, lastPing, h);
    s' := Stays(x, s, v);
  }

  /** IsConnectedContext, ReportHealth and ReconnectContext, by the ensures of their methods. */
  lemma IsConnectedAgrees(cfg: Config, from: State, s: State, t: Tid, lastPing: nat, ping: Seq.Ping)
      returns (s': State)
    requires MayCall(cfg, from, s, t)
    ensures var ok := s.sh.pools.connected && !s.sh.closing && (ping.now < (lastPing + 5) * Seq.SECOND || ping.ok);
            Came(cfg, from, s, t, s', Idle, Seq.Effect(ok, 0, 0, s.sh.pools.connected && (s.sh.closing || ok), None))
  {
    Seq.WindowEdges(lastPing, ping.now);
    var x, v := Calls(cfg, from, s, t, OpIsConnected);
    v := Probes(x, v, lastPing, ping);
    s' := Stays(x, s, v);
  }

  lemma ReportHealthAgrees(cfg: Config, from: State, s: State, t: Tid, query: Seq.Ping) returns (s': State)
    requires MayCall(cfg, from, s, t)
    ensures var ok := s.sh.pools.connected && !s.sh.closing && query.ok;
            Came(cfg, from, s, t, s', Idle,
                 Seq.Effect(ok, 0, 0, s.sh.pools.connected && (s.sh.closing || query.ok), None))
  {
    var x, v := Calls(cfg, from, s, t, OpReportHealth);
    v := ReportsHealth(x, v, query);
    s' := Stays(x, s, v);
  }

  lemma ReconnectAgrees(cfg: Config, from: State, s: State, t: Tid, c: Seq.Connect) returns (s': State)
    requires MayCall(cfg, from, s, t)
    ensures var ok := !s.sh.closing && !c.ctxDone && c.ok;
            Came(cfg, from, s, t, s', Idle,
                 Seq.Effect(ok, 1, if ok then 1 else 0,
                            ok || (s.sh.pools.connected && (s.sh.closing || c.ctxDone)), None))
  {
    var x, v := Calls(cfg, from, s, t, OpReconnect);
    v := Reconnects(x, v, c);
    s' := Stays(x, s, v);
  }

  /** StartupTasksContext: refused, failed and given up as there, or on to its background goroutines with
      the new pool published. */
  lemma StartupAgrees(cfg: Config, from: State, s: State, t: Tid, c: Seq.Connect, cancelledAfter: bool)
      returns (s': State)
    requires MayCall(cfg, from, s, t)
    ensures var ps, ps' := s.sh.pools, s'.sh.pools;
            var connects := !ps.connected && !s.sh.closing && !c.ctxDone && c.ok;
            && Can(cfg, from, s') && s'.sh.closing == s.sh.closing
            && ps'.created == ps.created + (if connects then 1 else 0)
            && ps'.closes == ps.closes + (if connects && cancelledAfter then multiset{ps.created} else multiset{})
            && if connects && !cancelledAfter
               then ThreadOf(s', t).pc == Startup(SpawnWarmer) && ps'.db == Some(ps.created) && ps'.connected
               else && s'.threads == s.threads[t := Thread(Caller, Idle)] && s'.locks == FREE
                    && ps'.db == ps.db && ps'.connected == ps.connected
  {
    var x, v := Calls(cfg, from, s, t, OpStartup);
    v := StartsUp(x, v, c, cancelledAfter);
    s' := Stays(x, s, v);
  }
}
