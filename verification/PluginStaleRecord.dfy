/**
 A run in which the record of validations is of a pool that has been replaced and closed.
 */
module PluginStaleRecord {
  import opened Wrappers
  import opened PluginMachine
  import opened PluginValidation
  import opened PluginScenarios

  /** A health check of pool 0 is about to ask the driver. */
  lemma AsksFirst() returns (s: State)
    ensures Can(BARE, INIT, s) && s.locks == FREE && !s.sh.closing
    ensures s.sh.pools.db == Some(0) && s.sh.pools.created == 1 && s.sh.pools.closes == multiset{}
    ensures s.threads == map[0 := Thread(Caller, Idle), 1 := Thread(Reporter, Idle),
                             2 := Thread(Caller, Health(HealthAt.Query(0)))]
  {
    var r := CanRun();
    var x, v := Calls(BARE, INIT, r, 2, OpReportHealth);
    v := HealthAsks(x, v);
    s := Among(x.others, 2, Caller, v);
    assert s.threads == map[0 := Thread(Caller, Idle), 1 := Thread(Reporter, Idle),
                            2 := Thread(Caller, Health(HealthAt.Query(0)))];
  }

  /** A Reconnect up to its snapshot. */
  lemma TakesSnapshot(x: Stretch, v: View) returns (w: View)
    requires x.At(v) && v.pc == Reconnect(ToCaller, ReconnectAt.Lock) && v.locks == FREE && !v.sh.closing
    ensures w == View(v.sh.(pools := v.sh.pools.(connected := false)), Locks(Some(x.t), Some(x.t), {}),
        Connecting(ByReconnect(v.sh.pools.db, v.sh.pools.created, ToCaller), ConnectAt.UnlockMu)) && x.At(w)
  {
    w := InReconnect(x, v, Go);
    w := InReconnect(x, w, Go);
    w := InReconnect(x, w, Go);
    w := InReconnect(x, w, Go);
    w := InReconnect(x, w, Go);
    w := InReconnect(x, w, Go);
  }

  lemma ConnectsAgain(x: Stretch, v: View) returns (w: View)
    requires x.At(v) && v.pc.Connecting? && v.pc.co.UnlockMu? && v.pc.o.ByReconnect? && Plain(x.cfg)
    ensures w == View(WithConnect(v.sh), v.locks.(writer := None),
        Publishing(v.pc.o, PublishAt.LockMu(v.sh.pools.created))) && x.At(w)
  {
    w := InConnect(x, v, Go);
    w := InConnect(x, w, Go);
    w := InConnect(x, w, Go);
    w := InConnect(x, w, Go);
    w := InConnect(x, w, Go);
    w := InConnect(x, w, Go);
  }

  lemma Replaces(x: Stretch, v: View, p: PoolId) returns (w: View)
    requires x.At(v) && v.pc.Publishing? && v.pc.pu == PublishAt.LockMu(p) && v.locks == Held(x.t)
    requires v.pc.o.ByReconnect? && v.pc.o.seen.Some?
    ensures x.At(w) && w.sh.pools.db == Some(p) && w.sh.pools.connected
    ensures w.sh.pools.closes == v.sh.pools.closes + multiset{v.pc.o.seen.value}
  {
    w := InPublish(x, v, Go);
    w := InPublish(x, w, Go);
    w := InPublish(x, w, Go);
    w := InPublish(x, w, Go);
    w := InPublish(x, w, Go);
    w := InPublish(x, w, Go);
  }

  /** While the health check is about to ask pool 0, a Reconnect replaces that pool and closes it. */
  lemma Overtaken() returns (s: State)
    ensures Can(BARE, INIT, s)
    ensures s.sh.pools.db == Some(1) && s.sh.pools.connected && s.sh.pools.closes == multiset{0}
    ensures 2 in s.threads && s.threads[2] == Thread(Caller, Health(HealthAt.Query(0)))
  {
    var r := AsksFirst();
    var x, v := Calls(BARE, INIT, r, 3, OpReconnect);
    v := TakesSnapshot(x, v);
    v := ConnectsAgain(x, v);
    v := Replaces(x, v, 1);
    s := Among(x.others, 3, Caller, v);
  }

  /** The published pool is 1, pool 0 has been closed, and the record is of pool 0. */
  lemma StaleRecord() returns (rs: seq<Recorded>, ms: seq<Move>)
    ensures IsRecordedRun(BARE, rs, ms)
    ensures var r := rs[|ms|];
            && r.record == Some(0) && r.s.sh.pools.closes[0] == 1
            && r.s.sh.pools.db == Some(1) && r.s.sh.pools.connected
  {
    var s := Overtaken();
    var states, labels := RunTo(BARE, s);
    rs, ms := Lifts(BARE, states, labels, |labels|);
    rs, ms := ComesToRecord(BARE, rs, ms, 2, 0);
  }
}
