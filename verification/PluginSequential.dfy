/**
 The plugin as one goroutine sees it when nobody else is running: its fields, the operations that update
 them, and the clock. The step machine (PluginMachine) leaves time out; this leaves interleaving out.
 */
module PluginSequential {
  import opened Wrappers

  type PoolId = nat

  const SECOND := 1_000_000_000
  const CACHE_WINDOW := 5 * SECOND

  /** time.Now().Unix() for a clock reading in nanoseconds. */
  function Unix(at: nat): nat {
    at / SECOND
  }

  /** A validation is taken from the cache. */
  predicate Cached(lastPing: nat, now: nat) {
    Unix(now) - lastPing < CACHE_WINDOW / SECOND
  }

  /** A handout is preceded by a ping. */
  predicate PingsFirst(lastPing: nat, now: nat) {
    lastPing == 0 || Unix(now) - lastPing >= CACHE_WINDOW / SECOND
  }

  /** Whole-second truncation moves the edge of the window by less than a second, and inward. */
  lemma WindowInRealTime(at: nat, now: nat)
    requires at <= now
    ensures Cached(Unix(at), now) ==> now - at < 5_000_000_000
    ensures now - at <= 4_000_000_000 ==> Cached(Unix(at), now)
    ensures Cached(Unix(at), now) <==> now < at - at % 1_000_000_000 + 5_000_000_000
  {
  }

  /** The edges themselves, in whole seconds. */
  lemma WindowEdges(lastPing: nat, now: nat)
    ensures Cached(lastPing, now) <==> now < (lastPing + 5) * 1_000_000_000
    ensures PingsFirst(lastPing, now) <==> lastPing == 0 || now >= (lastPing + 5) * 1_000_000_000
  {
  }

  /** The two tests of the window agree exactly when a validation has been recorded, or the clock is past
      the first five seconds of the epoch. */
  lemma WindowsAgree(lastPing: nat, now: nat)
    ensures PingsFirst(lastPing, now) == !Cached(lastPing, now) <==> lastPing != 0 || Unix(now) >= CACHE_WINDOW / SECOND
  {
    assert CACHE_WINDOW / SECOND == 5;
  }

  /** One ping or query: the clock when it is made, and whether it succeeds. */
  datatype Ping = Ping(now: nat, ok: bool)

  /** One connect, with its retries: is the context done before it, does it end with a verified pool, and
      the clock when that pool is published. */
  datatype Connect = Connect(ctxDone: bool, ok: bool, now: nat)

  /** What one GetDBWithContext meets. */
  datatype Handout = Handout(probe: Ping, first: Connect, ctxDone: bool, alive: Ping, second: Connect)

  /** What one CheckHealthContext meets. */
  datatype Checkup = Checkup(probe: Ping, first: Connect, query: Ping, second: Connect, queryAgain: Ping)

  // ---------------------------------------------------------------- when calls succeed

  /** The fields that decide about success. */
  datatype Flags = Flags(connected: bool, closing: bool, lastPing: nat)

  /** IsConnectedContext asks the driver. */
  predicate Asks(f: Flags, ping: Ping) {
    f.connected && !f.closing && !Cached(f.lastPing, ping.now)
  }

  /** IsConnectedContext answers true. */
  predicate Live(f: Flags, ping: Ping) {
    f.connected && !f.closing && (Cached(f.lastPing, ping.now) || ping.ok)
  }

  /** ReconnectContext succeeds. */
  predicate Recovers(f: Flags, c: Connect) {
    !f.closing && !c.ctxDone && c.ok
  }

  /** What a call comes to: its answer, its calls of ReconnectContext and how many of them replaced the
      pool, `connected` afterwards, and when it last found a pool good. */
  datatype Effect = Effect(ok: bool, reconnects: nat, replaced: nat, connected: bool, found: Option<nat>)

  /** The first check of an operation, which may include a Reconnect. */
  function FirstCheck(auto: bool, f: Flags, probe: Ping, c: Connect): Effect {
    if Live(f, probe) then Effect(true, 0, 0, true, if Asks(f, probe) then Some(probe.now) else None)
    else if auto && Recovers(f, c) then Effect(true, 1, 1, true, Some(c.now))
    else Effect(false, One(auto), 0, f.connected && f.closing, None)
  }

  /** A driver that does not answer, and the Reconnect that follows. */
  function Unanswered(auto: bool, e: Effect, c: Connect): Effect {
    if !auto then e.(ok := false, connected := false)
    else if c.ctxDone || !c.ok then e.(ok := false, reconnects := e.reconnects + 1, connected := c.ctxDone)
    else Effect(true, e.reconnects + 1, e.replaced + 1, true, Some(c.now))
  }

  /** GetDBWithContext. */
  function Handed(auto: bool, alive: bool, f: Flags, h: Handout): Effect {
    var e := FirstCheck(auto, f, h.probe, h.first);
    if !e.ok || h.ctxDone then e.(ok := false)
    else if !alive || !PingsFirst(if e.found.Some? then Unix(e.found.value) else f.lastPing, h.alive.now) then e
    else if h.alive.ok then e.(found := Some(h.alive.now))
    else Unanswered(auto, e, h.second)
  }

  /** CheckHealthContext. */
  function Checked(auto: bool, f: Flags, h: Checkup): Effect {
    var e := FirstCheck(auto, f, h.probe, h.first);
    if !e.ok then e
    else if h.query.ok then e.(found := Some(h.query.now))
    else
      var again := Unanswered(auto, e, h.second);
      if !again.ok then again
      else if h.queryAgain.ok then again.(found := Some(h.queryAgain.now))
      else again.(ok := false)
  }

  /** GetValidatedConn; `conn` and `conn'` are, for the first and the second attempt, whether it gets a
      connection from the pool and whether that answers its ping. */
  function Got(auto: bool, alive: bool, f: Flags, h: Handout, conn: (bool, bool), c: Connect, h': Handout,
               conn': (bool, bool)): Effect {
    var e := Handed(auto, alive, f, h);
    if !e.ok || !conn.0 then e.(ok := false)
    else if conn.1 then e
    else if !auto then e.(ok := false)
    else
      var again := GotAgain(auto, alive, c, h', conn');
      Effect(again.ok, e.reconnects + again.reconnects, e.replaced + again.replaced, again.connected,
             if again.found.Some? then again.found else e.found)
  }

  /** The second attempt of GetValidatedConn, with the Reconnect before it. */
  function GotAgain(auto: bool, alive: bool, c: Connect, h: Handout, conn: (bool, bool)): Effect {
    if c.ctxDone || !c.ok then Effect(false, 1, 0, c.ctxDone, None)
    else
      var e := Handed(auto, alive, Flags(true, false, Unix(c.now)), h);
      Effect(e.ok && conn.0 && conn.1, 1 + e.reconnects, 1 + e.replaced, e.connected,
             if e.found.Some? then e.found else Some(c.now))
  }

  /** What is handed out was found good less than five seconds before the handout's own check, or, without
      that check, before the first one or by the Reconnect. */
  lemma HandedIsRecent(auto: bool, alive: bool, f: Flags, recorded: nat, h: Handout)
    requires f.lastPing == Unix(recorded) && Handed(auto, alive, f, h).ok
    ensures var e := Handed(auto, alive, f, h);
            var found := if e.found.Some? then e.found.value else recorded;
            && (alive && h.alive.now <= h.second.now ==> h.alive.now < found + 5_000_000_000)
            && (!alive && e.reconnects == 0 ==> h.probe.now < found + 5_000_000_000)
            && (!alive && e.reconnects > 0 ==> found == h.first.now)
  {
    WindowEdges(f.lastPing, h.probe.now);
    WindowEdges(f.lastPing, h.alive.now);
    WindowEdges(Unix(h.probe.now), h.alive.now);
    WindowEdges(Unix(h.first.now), h.alive.now);
  }

  // ---------------------------------------------------------------- case by case

  /** The handout of a plugin that is connected: cached or answering, and not closing. */
  lemma LiveHandout(auto: bool, alive: bool, f: Flags, h: Handout)
    requires f.connected && !f.closing && (h.probe.now < (f.lastPing + 5) * SECOND || h.probe.ok)
    ensures var cached := h.probe.now < (f.lastPing + 5) * SECOND;
            var found := if cached then None else Some(h.probe.now);
            var last := if cached then f.lastPing else h.probe.now / SECOND;
            var due := alive && (last == 0 || h.alive.now >= (last + 5) * SECOND);
            var e := Handed(auto, alive, f, h);
            && (h.ctxDone ==> e == Effect(false, 0, 0, true, found))
            && (!h.ctxDone && !due ==> e == Effect(true, 0, 0, true, found))
            && (!h.ctxDone && due && h.alive.ok ==> e == Effect(true, 0, 0, true, Some(h.alive.now)))
            && (!h.ctxDone && due && !h.alive.ok ==>
                  && (!auto ==> e == Effect(false, 0, 0, false, found))
                  && (auto && h.second.ctxDone ==> e == Effect(false, 1, 0, true, found))
                  && (auto && !h.second.ctxDone && !h.second.ok ==> e == Effect(false, 1, 0, false, found))
                  && (auto && !h.second.ctxDone && h.second.ok ==> e == Effect(true, 1, 1, true, Some(h.second.now))))
  {
    WindowEdges(f.lastPing, h.probe.now);
    WindowEdges(f.lastPing, h.alive.now);
    WindowEdges(h.probe.now / SECOND, h.alive.now);
  }

  /** The handout of a plugin that is not: disconnected, closing, or not answering. */
  lemma DeadHandout(auto: bool, alive: bool, f: Flags, h: Handout)
    requires !f.connected || f.closing || (h.probe.now >= (f.lastPing + 5) * SECOND && !h.probe.ok)
    ensures var due := alive && (h.first.now < SECOND || h.alive.now >= (h.first.now / SECOND + 5) * SECOND);
            var e := Handed(auto, alive, f, h);
            && (!auto ==> e == Effect(false, 0, 0, f.connected && f.closing, None))
            && (auto && f.closing ==> e == Effect(false, 1, 0, f.connected, None))
            && (auto && !f.closing && (h.first.ctxDone || !h.first.ok) ==> e == Effect(false, 1, 0, false, None))
            && (auto && !f.closing && !h.first.ctxDone && h.first.ok ==>
                  && (h.ctxDone ==> e == Effect(false, 1, 1, true, Some(h.first.now)))
                  && (!h.ctxDone && !due ==> e == Effect(true, 1, 1, true, Some(h.first.now)))
                  && (!h.ctxDone && due && h.alive.ok ==> e == Effect(true, 1, 1, true, Some(h.alive.now)))
                  && (!h.ctxDone && due && !h.alive.ok ==>
                        && (h.second.ctxDone ==> e == Effect(false, 2, 1, true, Some(h.first.now)))
                        && (!h.second.ctxDone && !h.second.ok ==> e == Effect(false, 2, 1, false, Some(h.first.now)))
                        && (!h.second.ctxDone && h.second.ok ==> e == Effect(true, 2, 2, true, Some(h.second.now)))))
  {
    WindowEdges(f.lastPing, h.probe.now);
    WindowEdges(h.first.now / SECOND, h.alive.now);
  }

  lemma HandoutPromises(auto: bool, alive: bool, f: Flags, h: Handout)
    ensures (&& auto && !f.closing && (!alive || h.alive.ok)
             && (!f.connected || (h.probe.now >= (f.lastPing + 5) * SECOND && !h.probe.ok))
             && !h.first.ctxDone && h.first.ok && !h.ctxDone) ==>
              var e := Handed(auto, alive, f, h); e.ok && e.reconnects == 1 && e.replaced == 1
    ensures (&& f.connected && !f.closing && (!alive || h.alive.ok)
             && (h.probe.now < (f.lastPing + 5) * SECOND || h.probe.ok) && !h.ctxDone) ==>
              var e := Handed(auto, alive, f, h); e.ok && e.reconnects == 0 && e.replaced == 0
    ensures (&& f.connected && !f.closing && alive && !h.alive.ok && !h.ctxDone
             && h.probe.now < (f.lastPing + 5) * SECOND <= h.alive.now) ==>
              var e := Handed(auto, alive, f, h);
              if auto && !h.second.ctxDone && h.second.ok
              then e.ok && e.reconnects == 1 && e.replaced == 1
              else !e.ok && e.replaced == 0 && (e.connected <==> auto && h.second.ctxDone)
  {
    if f.connected && !f.closing && (h.probe.now < (f.lastPing + 5) * SECOND || h.probe.ok) {
      LiveHandout(auto, alive, f, h);
    } else {
      DeadHandout(auto, alive, f, h);
    }
  }

  /** The health check of a plugin that is connected: cached or answering, and not closing. */
  lemma LiveCheck(auto: bool, f: Flags, h: Checkup)
    requires f.connected && !f.closing && (h.probe.now < (f.lastPing + 5) * SECOND || h.probe.ok)
    ensures var found := if h.probe.now < (f.lastPing + 5) * SECOND then None else Some(h.probe.now);
            var e := Checked(auto, f, h);
            && (h.query.ok ==> e == Effect(true, 0, 0, true, Some(h.query.now)))
            && (!h.query.ok && !auto ==> e == Effect(false, 0, 0, false, found))
            && (!h.query.ok && auto && h.second.ctxDone ==> e == Effect(false, 1, 0, true, found))
            && (!h.query.ok && auto && !h.second.ctxDone && !h.second.ok ==> e == Effect(false, 1, 0, false, found))
            && (!h.query.ok && auto && !h.second.ctxDone && h.second.ok ==>
                  e == if h.queryAgain.ok then Effect(true, 1, 1, true, Some(h.queryAgain.now))
                       else Effect(false, 1, 1, true, Some(h.second.now)))
  {
    WindowEdges(f.lastPing, h.probe.now);
  }

  /** The health check of a plugin that is not. */
  lemma DeadCheck(auto: bool, f: Flags, h: Checkup)
    requires !f.connected || f.closing || (h.probe.now >= (f.lastPing + 5) * SECOND && !h.probe.ok)
    ensures var e := Checked(auto, f, h);
            && (!auto ==> e == Effect(false, 0, 0, f.connected && f.closing, None))
            && (auto && f.closing ==> e == Effect(false, 1, 0, f.connected, None))
            && (auto && !f.closing && (h.first.ctxDone || !h.first.ok) ==> e == Effect(false, 1, 0, false, None))
            && (auto && !f.closing && !h.first.ctxDone && h.first.ok ==>
                  && (h.query.ok ==> e == Effect(true, 1, 1, true, Some(h.query.now)))
                  && (!h.query.ok && h.second.ctxDone ==> e == Effect(false, 2, 1, true, Some(h.first.now)))
                  && (!h.query.ok && !h.second.ctxDone && !h.second.ok ==>
                        e == Effect(false, 2, 1, false, Some(h.first.now)))
                  && (!h.query.ok && !h.second.ctxDone && h.second.ok ==>
                        e == if h.queryAgain.ok then Effect(true, 2, 2, true, Some(h.queryAgain.now))
                             else Effect(false, 2, 2, true, Some(h.second.now))))
  {
    WindowEdges(f.lastPing, h.probe.now);
  }

  /** What GetValidatedConn makes of its first handout. */
  lemma FirstConnection(auto: bool, alive: bool, f: Flags, h: Handout, conn: (bool, bool), c: Connect, h': Handout,
                        conn': (bool, bool))
    ensures var e, got := Handed(auto, alive, f, h), Got(auto, alive, f, h, conn, c, h', conn');
            && (!e.ok ==> got == e)
            && (e.ok && conn.0 && conn.1 ==> got == e)
            && (e.ok && (!conn.0 || (!conn.1 && !auto)) ==>
                  got == Effect(false, e.reconnects, e.replaced, true, e.found))
            && (e.ok && conn.0 && !conn.1 && auto ==>
                  && (c.ctxDone ==> got == Effect(false, e.reconnects + 1, e.replaced, true, e.found))
                  && (!c.ctxDone && !c.ok ==> got == Effect(false, e.reconnects + 1, e.replaced, false, e.found))
                  && (!c.ctxDone && c.ok ==>
                        var e' := Handed(true, alive, Flags(true, false, c.now / SECOND), h');
                        && (got.ok <==> e'.ok && conn'.0 && conn'.1) && got.connected == e'.connected
                        && got.reconnects == e.reconnects + 1 + e'.reconnects
                        && got.replaced == e.replaced + 1 + e'.replaced
                        && got.found == if e'.found.Some? then e'.found else Some(c.now)))
  {
  }

  /** A connected plugin hands out its pool, and the pool's first connection is bad. */
  lemma BadConnection(auto: bool, alive: bool, f: Flags, h: Handout, c: Connect, h': Handout, conn': (bool, bool))
    requires f.connected && !f.closing && !h.ctxDone && f.lastPing != 0
    requires h.probe.now < (f.lastPing + 5) * SECOND && h.alive.now < (f.lastPing + 5) * SECOND
    ensures var e := Got(auto, alive, f, h, (true, false), c, h', conn');
            && (!auto ==> e == Effect(false, 0, 0, true, None))
            && (auto && c.ctxDone ==> e == Effect(false, 1, 0, true, None))
            && (auto && !c.ctxDone && !c.ok ==> e == Effect(false, 1, 0, false, None))
            && (auto && !c.ctxDone && c.ok && SECOND <= c.now && h'.probe.now < (c.now / SECOND + 5) * SECOND &&
                h'.alive.now < (c.now / SECOND + 5) * SECOND ==>
                  e == Effect(!h'.ctxDone && conn'.0 && conn'.1, 1, 1, true, Some(c.now)))
  {
    LiveHandout(auto, alive, f, h);
    if h'.probe.now < (c.now / SECOND + 5) * SECOND {
      LiveHandout(auto, alive, Flags(true, false, Unix(c.now)), h');
    }
  }

  lemma GotBounds(auto: bool, alive: bool, f: Flags, h: Handout, conn: (bool, bool), c: Connect, h': Handout,
                  conn': (bool, bool))
    ensures var e := Got(auto, alive, f, h, conn, c, h', conn');
            && e.replaced <= e.reconnects <= 5
            && (!auto ==> e.reconnects == 0 && (e.connected ==> f.connected))
  {
  }

  class Plugin {
    const autoReconnect: bool
    const ensureAlive: bool
    var db: Option<PoolId>
    var connected: bool
    var closing: bool
    var lastPingTime: nat

    var created: nat                       // pools published or thrown away: 0..created
    var closed: set<PoolId>
    ghost var recorded: nat                // the clock reading behind lastPingTime
    ghost var validated: Option<PoolId>    // the pool that was found good then
    ghost var reconnects: nat              // calls of ReconnectContext

    ghost predicate Valid()
      reads this
    {
      && lastPingTime == Unix(recorded)
      && (connected ==> db.Some? && validated == db)
      && (db.Some? ==> db.value < created && db.value !in closed)
      && (forall p :: p in closed ==> p < created)
    }

    ghost function State(): Flags
      reads this
    {
      Flags(connected, closing, lastPingTime)
    }

    /** There is a published pool, it is open, and the plugin believes it good. */
    ghost predicate Usable(p: PoolId)
      reads this
    {
      db == Some(p) && connected && !closing && p !in closed && validated == db
    }

    constructor (autoReconnect: bool, ensureAlive: bool)
      ensures Valid() && db.None? && !connected && !closing && reconnects == 0 && lastPingTime == 0
      ensures this.autoReconnect == autoReconnect && this.ensureAlive == ensureAlive
    {
      this.autoReconnect, this.ensureAlive := autoReconnect, ensureAlive;
      db, connected, closing, lastPingTime, created, closed := None, false, false, 0, 0, {};
      recorded, validated, reconnects := 0, None, 0;
    }

    /** Stores a clock reading after pool `p` was found good. */
    method Record(p: PoolId, now: nat)
      modifies this`lastPingTime, this`recorded, this`validated
      ensures lastPingTime == Unix(now) && recorded == now && validated == Some(p)
    {
      lastPingTime := now / SECOND;
      recorded, validated := now, Some(p);
    }

    /** A start over a pool that is only disconnected leaves that pool open and out of reach; a start that
        is cancelled after connecting leaves nothing open, but its connect has moved lastPingTime. */
    method StartupTasksContext(c: Connect, cancelledAfter: bool) returns (ok: bool)
      requires Valid()
      modifies this
      ensures Valid() && closing == old(closing) && reconnects == old(reconnects)
      ensures ok <==> !old(connected) && !closing && !c.ctxDone && c.ok && !cancelledAfter
      ensures ok ==> Usable(old(created)) && recorded == c.now && closed == old(closed)
      ensures ok && old(db).Some? ==> db != old(db) && old(db).value !in closed
      ensures !ok ==> db == old(db) && connected == old(connected)
      ensures var connects := !old(connected) && !closing && !c.ctxDone && c.ok;
              && created == old(created) + (if connects then 1 else 0)
              && recorded == (if connects then c.now else old(recorded))
              && closed == old(closed) + (if connects && cancelledAfter then {old(created)} else {})
    {
      if connected {
        return false;
      }
      if closing {
        return false;
      }
      if c.ctxDone {
        return false;
      }
      if !c.ok {
        return false;
      }
      var p := created;
      created := created + 1;
      Record(p, c.now);
      if cancelledAfter {
        closed := closed + {p};
        return false;
      }
      db := Some(p);
      connected := true;
      return true;
    }

    /** The first call closes the published pool; any other changes nothing. */
    method CleanupTasks()
      requires Valid()
      modifies this`closing, this`closed, this`db, this`connected
      ensures Valid() && closing
      ensures !old(closing) ==>
          db.None? && !connected && closed == old(closed) + (if old(db).Some? then {old(db).value} else {})
      ensures old(closing) ==> db == old(db) && connected == old(connected) && closed == old(closed)
    {
      if closing {
        return;
      }
      closing := true;
      if db.Some? {
        closed := closed + {db.value};
        db := None;
      }
      connected := false;
    }

    method ReconnectContext(c: Connect) returns (ok: bool)
      requires Valid()
      modifies this
      ensures Valid() && closing == old(closing) && reconnects == old(reconnects) + 1
      ensures ok <==> !closing && !c.ctxDone && c.ok
      ensures created == old(created) + (if ok then 1 else 0)
      ensures ok ==> Usable(old(created)) && recorded == c.now
      ensures ok ==> closed == old(closed) + (if old(db).Some? then {old(db).value} else {})
      ensures !ok ==> db == old(db) && closed == old(closed) && recorded == old(recorded) && validated == old(validated)
      ensures !ok ==> connected == (old(connected) && (closing || c.ctxDone))
    {
      reconnects := reconnects + 1;
      if closing {
        return false;
      }
      if c.ctxDone {
        return false;
      }
      var oldDB := db;
      connected := false;
      if !c.ok {
        return false;
      }
      var p := created;
      created := created + 1;
      Record(p, c.now);
      db := Some(p);
      connected := true;
      if oldDB.Some? {
        closed := closed + {oldDB.value};
      }
      return true;
    }

    /** `pinged` tells whether the driver was asked. */
    method IsConnectedContext(ping: Ping) returns (ok: bool, ghost pinged: bool)
      requires Valid()
      modifies this`connected, this`lastPingTime, this`recorded, this`validated
      ensures Valid()
      ensures (ok <==> Live(old(State()), ping)) && (pinged <==> Asks(old(State()), ping))
      ensures var cached := ping.now < (old(lastPingTime) + 5) * SECOND;
              && (pinged <==> old(connected) && !closing && !cached)
              && (ok <==> old(connected) && !closing && (cached || ping.ok))
      ensures ok ==> db.Some? && Usable(db.value)
      ensures ok && !pinged ==> ping.now < recorded + CACHE_WINDOW
      ensures recorded == if ok && pinged then ping.now else old(recorded)
      ensures old(connected) && !closing && recorded <= ping.now <= old(recorded) + CACHE_WINDOW - SECOND ==>
          ok && !pinged
      ensures connected == (old(connected) && (closing || ok))
    {
      pinged := false;
      WindowEdges(lastPingTime, ping.now);
      if !connected || closing {
        return false, false;
      }
      if db.None? {
        return false, false;
      }
      if ping.now / SECOND - lastPingTime < CACHE_WINDOW / SECOND {
        if recorded <= ping.now {
          WindowInRealTime(recorded, ping.now);
        }
        return true, false;
      }
      pinged := true;
      if recorded <= ping.now {
        WindowInRealTime(recorded, ping.now);
      }
      if !ping.ok {
        connected := false;
        return false, true;
      }
      Record(db.value, ping.now);
      return true, true;
    }

    /** What a call comes to, in all fields: every successful Reconnect publishes the next pool and closes
        the one before. */
    twostate predicate Comes(e: Effect)
      reads this
    {
      && closing == old(closing) && connected == e.connected && reconnects == old(reconnects) + e.reconnects
      && recorded == (if e.found.Some? then e.found.value else old(recorded))
      && created == old(created) + e.replaced
      && db == (if e.replaced == 0 then old(db) else Some(created - 1))
      && (forall p: PoolId :: p in closed <==>
            p in old(closed) || (e.replaced > 0 && (old(db) == Some(p) || old(created) <= p < created - 1)))
    }

    /** How GetDBWithContext and CheckHealthContext begin. */
    method EnsureConnected(probe: Ping, c: Connect) returns (ok: bool)
      requires Valid()
      modifies this
      ensures Valid() && Comes(FirstCheck(autoReconnect, old(State()), probe, c))
      ensures ok <==> FirstCheck(autoReconnect, old(State()), probe, c).ok
      ensures ok ==> db.Some? && Usable(db.value)
    {
      var live, _ := IsConnectedContext(probe);
      if live {
        return true;
      }
      if !autoReconnect {
        return false;
      }
      ok := ReconnectContext(c);
    }

    /** LiveHandout and DeadHandout say case by case what Handed is. What is handed out without
        interference is the current pool, open, connected, and found good less than five seconds before the
        handout's own check, or, without that check, before the first one or by the Reconnect. */
    method GetDBWithContext(h: Handout) returns (ok: bool, handed: Option<PoolId>)
      requires Valid()
      modifies this
      ensures Valid() && Comes(Handed(autoReconnect, ensureAlive, old(State()), h))
      ensures ok <==> Handed(autoReconnect, ensureAlive, old(State()), h).ok
      ensures handed == if ok then db else None
      ensures ok ==> handed.Some? && Usable(handed.value)
      ensures ok && ensureAlive && h.alive.now <= h.second.now ==> h.alive.now < recorded + CACHE_WINDOW
      ensures ok && !ensureAlive ==>
          if reconnects == old(reconnects) then h.probe.now < recorded + CACHE_WINDOW else recorded == h.first.now
      ensures reconnects <= old(reconnects) + 2
      ensures !autoReconnect ==> reconnects == old(reconnects) && db == old(db) && (connected ==> old(connected))
      ensures closing ==> !ok
    {
      if Handed(autoReconnect, ensureAlive, State(), h).ok {
        HandedIsRecent(autoReconnect, ensureAlive, State(), recorded, h);
      }
      handed := None;
      var live := EnsureConnected(h.probe, h.first);
      if !live {
        return false, None;
      }
      if h.ctxDone {
        return false, None;
      }
      handed := db;
      if ensureAlive && handed.Some? && !closing && PingsFirst(lastPingTime, h.alive.now) {
        if !h.alive.ok {
          if !autoReconnect {
            connected := false;
            return false, None;
          }
          var reconnected := ReconnectContext(h.second);
          if !reconnected {
            return false, None;
          }
          handed := db;
        } else {
          Record(handed.value, h.alive.now);
        }
      }
      return true, handed;
    }

    /** GetDBWithContext with a context that is never done: the ways to a pool. */
    method GetDB(h: Handout) returns (ok: bool, handed: Option<PoolId>)
      requires Valid() && !h.ctxDone && !h.first.ctxDone && !h.second.ctxDone
      modifies this
      ensures Valid() && (ok ==> handed.Some? && Usable(handed.value))
      // the plugin is down, or its probe fails, and the driver answers from then on
      ensures (&& autoReconnect && !closing && (!ensureAlive || h.alive.ok) && h.first.ok
               && (!old(connected) || (h.probe.now >= (old(lastPingTime) + 5) * SECOND && !h.probe.ok))) ==>
                ok && handed == Some(old(created)) && reconnects == old(reconnects) + 1
      // the probe is cached or answers
      ensures (&& old(connected) && !closing && (!ensureAlive || h.alive.ok)
               && (h.probe.now < (old(lastPingTime) + 5) * SECOND || h.probe.ok)) ==>
                ok && handed == old(db) && reconnects == old(reconnects)
      // the handout's own ping fails
      ensures (&& old(connected) && !closing && ensureAlive && !h.alive.ok
               && h.probe.now < (old(lastPingTime) + 5) * SECOND <= h.alive.now) ==>
                if autoReconnect && h.second.ok
                then ok && handed == Some(old(created)) && reconnects == old(reconnects) + 1
                else !ok && db == old(db) && !connected
    {
      HandoutPromises(autoReconnect, ensureAlive, State(), h);
      ok, handed := GetDBWithContext(h);
    }

    /** The connection returned is of the current pool; at most five Reconnects. */
    method GetValidatedConn(h: Handout, conn: (bool, bool), c: Connect, h': Handout, conn': (bool, bool))
        returns (from: Option<PoolId>)
      requires Valid()
      modifies this
      ensures Valid() && Comes(Got(autoReconnect, ensureAlive, old(State()), h, conn, c, h', conn'))
      ensures from == if Got(autoReconnect, ensureAlive, old(State()), h, conn, c, h', conn').ok then db else None
      ensures from.Some? ==> Usable(from.value)
      ensures reconnects <= old(reconnects) + 5
      ensures !autoReconnect ==> reconnects == old(reconnects) && db == old(db) && (connected ==> old(connected))
    {
      GotBounds(autoReconnect, ensureAlive, State(), h, conn, c, h', conn');
      var ok, handed := GetDBWithContext(h);
      if !ok {
        return None;
      }
      if !conn.0 {
        return None;
      }
      if conn.1 {
        return handed;
      }
      if !autoReconnect {
        return None;
      }
      from := TryAgain(c, h', conn');
    }

    /** The second attempt, after a connection that does not answer. */
    method TryAgain(c: Connect, h: Handout, conn: (bool, bool)) returns (from: Option<PoolId>)
      requires Valid() && connected && !closing
      modifies this
      ensures Valid() && Comes(GotAgain(autoReconnect, ensureAlive, c, h, conn))
      ensures from == if GotAgain(autoReconnect, ensureAlive, c, h, conn).ok then db else None
      ensures from.Some? ==> Usable(from.value)
    {
      var reconnected := ReconnectContext(c);
      if !reconnected {
        return None;
      }
      var ok, handed := GetDBWithContext(h);
      if !ok || !conn.0 || !conn.1 {
        return None;
      }
      return handed;
    }

    /** A passed check leaves a usable pool that was found good at the time of the last query; at most two
        Reconnects, none when auto-reconnect is off. */
    method CheckHealthContext(h: Checkup) returns (ok: bool)
      requires Valid()
      modifies this
      ensures Valid() && Comes(Checked(autoReconnect, old(State()), h))
      ensures ok <==> Checked(autoReconnect, old(State()), h).ok
      ensures ok ==> db.Some? && Usable(db.value) && recorded == (if h.query.ok then h.query.now else h.queryAgain.now)
      ensures ok && reconnects == old(reconnects) ==> db == old(db)
      ensures reconnects <= old(reconnects) + 2
      ensures !autoReconnect ==> reconnects == old(reconnects) && db == old(db)
      ensures !autoReconnect ==> connected == (ok || (old(connected) && closing))
      ensures closing ==> !ok
    {
      var live := EnsureConnected(h.probe, h.first);
      if !live {
        return false;
      }
      if db.None? {
        return false;
      }
      if !h.query.ok {
        if !autoReconnect {
          connected := false;
          return false;
        }
        var reconnected := ReconnectContext(h.second);
        if !reconnected {
          return false;
        }
        if db.None? {
          return false;
        }
        if !h.queryAgain.ok {
          return false;
        }
      }
      Record(db.value, if h.query.ok then h.query.now else h.queryAgain.now);
      return true;
    }

    /** Never replaces the pool; a failed query only marks it as not connected. */
    method ReportHealth(query: Ping) returns (ok: bool)
      requires Valid()
      modifies this`connected, this`lastPingTime, this`recorded, this`validated
      ensures Valid()
      ensures ok <==> old(connected) && !closing && query.ok
      ensures connected == (old(connected) && (closing || query.ok))
      ensures recorded == (if ok then query.now else old(recorded))
    {
      if db.None? || !connected || closing {
        return false;
      }
      if !query.ok {
        connected := false;
        return false;
      }
      Record(db.value, query.now);
      return true;
    }
  }

  /** A connected plugin with a fresh validation hands out at once: no ping, no Reconnect. */
  lemma FreshHandout(auto: bool, alive: bool, f: Flags, h: Handout)
    requires f.connected && !f.closing && !h.ctxDone && Cached(f.lastPing, h.probe.now)
    requires alive ==> f.lastPing != 0 && Cached(f.lastPing, h.alive.now)
    ensures Handed(auto, alive, f, h) == Effect(true, 0, 0, true, None)
  {
  }

  /** With auto-reconnect off, a handout needs a live plugin, and nothing but that and its ping. */
  lemma PassiveHandout(alive: bool, f: Flags, h: Handout)
    ensures var cached := h.probe.now < (f.lastPing + 5) * SECOND;
            var last := if cached then f.lastPing else h.probe.now / SECOND;
            Handed(false, alive, f, h).ok <==>
              && f.connected && !f.closing && (cached || h.probe.ok) && !h.ctxDone
              && (alive && (last == 0 || h.alive.now >= (last + 5) * SECOND) ==> h.alive.ok)
  {
    if f.connected && !f.closing && (h.probe.now < (f.lastPing + 5) * SECOND || h.probe.ok) {
      LiveHandout(false, alive, f, h);
    } else {
      DeadHandout(false, alive, f, h);
    }
  }
}
