/**
 Pool warmup: one pass of ensureMinPoolConnections against a connection pool that prefers its idle
 connections, with a validated configuration; others may hold connections, but take and return none
 during the pass.
 */
module Warmup {
  type ConnId = nat

  function Max(a: int, b: int): int {
    if a >= b then a else b
  }

  // ---------------------------------------------------------------- configuration

  /** The configuration fields the warmup depends on. */
  class PoolSettings {
    var maxOpenConns: int
    var maxIdleConns: int
    var warmupConns: int

    predicate Prepared()
      reads this
    {
      1 <= maxIdleConns <= maxOpenConns && 1 <= warmupConns
    }

    constructor (maxOpenConns: int, maxIdleConns: int, warmupConns: int)
      ensures this.maxOpenConns == maxOpenConns && this.maxIdleConns == maxIdleConns && this.warmupConns == warmupConns
    {
      this.maxOpenConns, this.maxIdleConns, this.warmupConns := maxOpenConns, maxIdleConns, warmupConns;
    }

    /** Returns whether the configuration is accepted. */
    method ApplyDefaultsAndValidate() returns (ok: bool)
      modifies this
      ensures ok <==> Prepared()
      ensures ok <==> 1 <= maxIdleConns <= maxOpenConns && 1 <= warmupConns
      ensures maxOpenConns == (if old(maxOpenConns) == 0 then 25 else old(maxOpenConns))
      ensures maxIdleConns == (if old(maxIdleConns) == 0 then 5 else old(maxIdleConns))
      ensures warmupConns == (if old(warmupConns) == 0 then maxIdleConns else old(warmupConns))
    {
      if maxOpenConns == 0 {
        maxOpenConns := 25;
      }
      if maxIdleConns == 0 {
        maxIdleConns := 5;
      }
      if warmupConns == 0 {
        warmupConns := if maxIdleConns == 0 then 5 else maxIdleConns;
      }
      if maxIdleConns > maxOpenConns {
        return false;
      }
      if maxOpenConns <= 0 {
        return false;
      }
      if maxIdleConns < 0 {
        return false;
      }
      if warmupConns < 0 {
        return false;
      }
      return true;
    }

    method TargetWarmConnections() returns (target: int)
      ensures warmupConns <= 0 ==> target == 0
      // otherwise the least of the three, of those that are set
      ensures warmupConns > 0 ==>
                && 0 < target <= warmupConns && (maxOpenConns > 0 ==> target <= maxOpenConns)
                && (maxIdleConns > 0 ==> target <= maxIdleConns)
                && (|| target == warmupConns || (maxOpenConns > 0 && target == maxOpenConns)
                    || (maxIdleConns > 0 && target == maxIdleConns))
      ensures Prepared() ==> 1 <= target <= maxIdleConns && (target == warmupConns || target == maxIdleConns)
    {
      target := warmupConns;
      if target <= 0 {
        return 0;
      }
      if maxOpenConns > 0 && target > maxOpenConns {
        target := maxOpenConns;
      }
      if maxIdleConns > 0 && target > maxIdleConns {
        target := maxIdleConns;
      }
    }
  }

  // ---------------------------------------------------------------- the pool

  predicate Distinct(s: seq<ConnId>) {
    forall i, j :: 0 <= i < j < |s| ==> s[i] != s[j]
  }

  /** What database/sql keeps of its connections. */
  class Pool {
    const maxOpen: int
    const maxIdle: int
    var created: nat
    var idle: seq<ConnId>
    var inUse: set<ConnId>
    var acquired: seq<ConnId>       // every connection handed out, in order
    var returned: seq<ConnId>       // every connection given back, in order
    var waits: nat                  // how often a caller found all connections in use

    ghost predicate Valid()
      reads this
    {
      && Distinct(idle)
      && (forall c :: c in idle ==> c < created && c !in inUse)
      && (forall c :: c in inUse ==> c < created)
      && |idle| + |inUse| <= maxOpen && |idle| <= maxIdle
    }

    function Open(): nat
      reads this
    {
      |idle| + |inUse|
    }

    constructor (maxOpen: int, maxIdle: int)
      requires 0 <= maxIdle && 0 <= maxOpen
      ensures Valid() && this.maxOpen == maxOpen && this.maxIdle == maxIdle && Open() == 0
    {
      this.maxOpen, this.maxIdle := maxOpen, maxIdle;
      created, idle, inUse, acquired, returned, waits := 0, [], {}, [], [], 0;
    }

    /** db.Conn. `works` is false when the context is done or the driver cannot connect. */
    method Conn(works: bool) returns (conn: ConnId, ok: bool)
      requires Valid()
      modifies this
      ensures Valid() && returned == old(returned)
      ensures ok <==> works && (old(idle) != [] || old(Open()) < maxOpen)
      ensures waits == old(waits) + (if works && old(idle) == [] && old(Open()) >= maxOpen then 1 else 0)
      ensures !ok ==> created == old(created) && idle == old(idle) && inUse == old(inUse) && acquired == old(acquired)
      ensures ok ==>
                && acquired == old(acquired) + [conn] && conn !in old(inUse) && inUse == old(inUse) + {conn}
                && if old(idle) == [] then conn == old(created) == created - 1 && idle == []
                   else created == old(created) && old(idle) == idle + [conn]
    {
      conn := 0;
      if !works {
        return conn, false;
      }
      if idle != [] {
        conn := idle[|idle| - 1];
        assert conn in idle;
        idle := idle[..|idle| - 1];
        assert old(idle) == idle + [conn];
        assert conn !in idle && forall c :: c in idle ==> c in old(idle);
      } else if Open() < maxOpen {
        conn, created := created, created + 1;
      } else {
        waits := waits + 1;
        return conn, false;
      }
      inUse := inUse + {conn};
      acquired := acquired + [conn];
      return conn, true;
    }

    /** conn.Close. A connection that is not healthy any more is closed instead of being kept. */
    method Release(conn: ConnId, healthy: bool)
      requires Valid() && conn in inUse
      modifies this
      ensures Valid() && created == old(created) && acquired == old(acquired) && waits == old(waits)
      ensures returned == old(returned) + [conn] && inUse == old(inUse) - {conn}
      ensures idle == if healthy && |old(idle)| < maxIdle then old(idle) + [conn] else old(idle)
    {
      inUse := inUse - {conn};
      returned := returned + [conn];
      if healthy && |idle| < maxIdle {
        idle := idle + [conn];
      }
    }
  }

  // ---------------------------------------------------------------- one pass

  /** Idle connections after a successful pass in which every connection stayed healthy, when `used`
      others are in use, as EnsureMinPoolConnections leaves them. */
  function AfterPass(idle: nat, used: nat, target: int): nat {
    Max(idle, target - (idle + used))
  }

  /** What connection k of a pass meets: can it be acquired, does it answer the ping, is it healthy when
      it is given back. */
  datatype Attempt = Attempt(works: bool, pings: bool, healthy: bool)

  /** How many of the first `n` connections are not kept. */
  function Lost(attempts: seq<Attempt>, n: nat): nat
    requires n <= |attempts|
    ensures Lost(attempts, n) <= n
  {
    if n == 0 then 0 else Lost(attempts, n - 1) + if attempts[n - 1].healthy then 0 else 1
  }

  /** The connections in use are those in `held` and those of `others`. */
  ghost predicate Holds(inUse: set<ConnId>, others: set<ConnId>, held: seq<ConnId>) {
    && Distinct(held) && others <= inUse && |inUse| == |others| + |held|
    && forall i :: 0 <= i < |held| ==> held[i] in inUse && held[i] !in others
  }

  lemma HoldsMore(inUse: set<ConnId>, others: set<ConnId>, held: seq<ConnId>, conn: ConnId)
    requires Holds(inUse, others, held) && conn !in inUse
    ensures Holds(inUse + {conn}, others, held + [conn])
  {
  }

  lemma HoldsLess(inUse: set<ConnId>, others: set<ConnId>, held: seq<ConnId>)
    requires Holds(inUse, others, held) && held != []
    ensures Holds(inUse - {held[0]}, others, held[1..])
  {
  }

  lemma HoldsNone(inUse: set<ConnId>, others: set<ConnId>)
    requires Holds(inUse, others, [])
    ensures inUse == others
  {
    assert |inUse - others| == |inUse| - |others|;
    assert inUse == others + (inUse - others);
  }

  /** Gives back everything a pass holds. */
  method ReleaseAll(db: Pool, ghost others: set<ConnId>, held: seq<ConnId>, attempts: seq<Attempt>)
    requires db.Valid() && Holds(db.inUse, others, held) && |held| <= |attempts|
    requires |db.idle| + |held| <= db.maxIdle
    modifies db
    ensures db.Valid() && db.inUse == others
    ensures db.created == old(db.created) && db.waits == old(db.waits) && db.acquired == old(db.acquired)
    ensures db.returned == old(db.returned) + held
    ensures |db.idle| + Lost(attempts, |held|) == old(|db.idle|) + |held|
  {
    for k := 0 to |held|
      invariant db.Valid() && db.created == old(db.created) && db.waits == old(db.waits)
      invariant Holds(db.inUse, others, held[k..])
      invariant db.acquired == old(db.acquired) && db.returned == old(db.returned) + held[..k]
      invariant |db.idle| + Lost(attempts, k) == old(|db.idle|) + k
    {
      HoldsLess(db.inUse, others, held[k..]);
      assert held[k..][0] == held[k] && held[k..][1..] == held[k + 1..];
      db.Release(held[k], attempts[k].healthy);
    }
    assert held[..|held|] == held;
    HoldsNone(db.inUse, others);
  }

  /** The first `n` connections can be acquired and answer their ping. */
  predicate AllAnswer(attempts: seq<Attempt>, n: nat)
    requires n <= |attempts|
  {
    forall k :: 0 <= k < n ==> attempts[k].works && attempts[k].pings
  }

  /** A pass that fails ends with its first connection that cannot be acquired, or does not answer; `taken`
      were acquired. */
  predicate StopsAt(attempts: seq<Attempt>, deficit: nat, taken: nat)
    requires deficit <= |attempts|
  {
    && taken <= deficit
    && ((taken < deficit && AllAnswer(attempts, taken) && !attempts[taken].works)
        || (taken > 0 && AllAnswer(attempts, taken - 1) && attempts[taken - 1].works && !attempts[taken - 1].pings))
  }

  /** Acquires and pings until it has `deficit` connections or one fails; one that fails its ping is given
      back at once. */
  method AcquireAll(db: Pool, deficit: nat, attempts: seq<Attempt>)
      returns (held: seq<ConnId>, ghost failed: seq<ConnId>, ok: bool)
    requires db.Valid() && deficit <= |attempts|
    requires |db.idle| + deficit <= db.maxIdle && |db.inUse| + |db.idle| + deficit <= db.maxOpen
    modifies db
    ensures db.Valid() && db.waits == old(db.waits) && Holds(db.inUse, old(db.inUse), held) && Distinct(held + failed)
    ensures db.acquired == old(db.acquired) + held + failed && db.returned == old(db.returned) + failed
    ensures |held| + |failed| <= deficit && |db.idle| <= Max(old(|db.idle|) - |held|, |failed|)
    ensures ok ==> |held| == deficit && failed == [] && |db.idle| == Max(old(|db.idle|) - deficit, 0)
    ensures ok <==> AllAnswer(attempts, deficit)
    ensures !ok ==> StopsAt(attempts, deficit, |held| + |failed|)
  {
    held, failed, ok := [], [], true;
    for i := 0 to deficit
      invariant ok && failed == [] && AllAnswer(attempts, i)
      invariant db.Valid() && db.waits == old(db.waits)
      invariant |held| == i && Holds(db.inUse, old(db.inUse), held)
      invariant db.acquired == old(db.acquired) + held && db.returned == old(db.returned)
      invariant |db.idle| == Max(old(|db.idle|) - i, 0)
    {
      ghost var inUse := db.inUse;
      var conn, got := db.Conn(attempts[i].works);
      if !got {
        return held, [], false;
      }
      HoldsMore(inUse, old(db.inUse), held, conn);
      if !attempts[i].pings {
        db.Release(conn, attempts[i].healthy);
        assert db.inUse == inUse;
        return held, [conn], false;
      }
      held := held + [conn];
    }
  }

  /** One pass, whatever connections others have in use. It never has to wait for a connection, gives
      every connection it acquired back exactly once, leaves those of others alone, and ends between what
      it found (less any that turned out bad) and the target. */
  method EnsureMinPoolConnections(db: Pool?, target: int, attempts: seq<Attempt>) returns (ok: bool)
    requires db != null ==> db.Valid() && target <= db.maxIdle <= db.maxOpen
    requires |attempts| >= target
    modifies db
    ensures db == null ==> (ok <==> target <= 0)
    ensures db != null ==>
              && db.Valid() && db.inUse == old(db.inUse) && db.waits == old(db.waits)
              && old(db.acquired) <= db.acquired && old(db.returned) <= db.returned
              && var taken := db.acquired[|old(db.acquired)|..];
              && Distinct(taken)
              && multiset(db.returned[|old(db.returned)|..]) == multiset(taken)
              && |db.idle| <= Max(old(|db.idle|), target - old(db.Open()))
              && (ok ==> && |taken| == Max(0, target - old(db.Open()))
                         && |db.idle| + Lost(attempts, |taken|) == Max(old(|db.idle|), target - old(db.Open())))
              && (!ok ==> target > old(db.Open()) && StopsAt(attempts, target - old(db.Open()), |taken|))
              && (ok <==> forall k :: 0 <= k < target - old(db.Open()) ==> attempts[k].works && attempts[k].pings)
  {
    if target <= 0 {
      assert db != null ==> db.acquired[|db.acquired|..] == [] == db.returned[|db.returned|..];
      return true;
    }
    if db == null {
      return false;
    }
    ghost var acquired, returned, others := db.acquired, db.returned, db.inUse;
    var found := db.Open();
    if found >= target {
      assert db.acquired[|db.acquired|..] == [] == db.returned[|db.returned|..];
      return true;
    }
    var deficit := target - found;
    var held: seq<ConnId>;
    ghost var failed;
    held, failed, ok := AcquireAll(db, deficit, attempts);
    // deferred: given back whether or not all could be acquired
    ReleaseAll(db, others, held, attempts);
    Balanced(db.acquired, acquired, db.returned, returned, held + failed, failed + held);
  }

  lemma Balanced(acquired': seq<ConnId>, acquired: seq<ConnId>, returned': seq<ConnId>, returned: seq<ConnId>,
                 taken: seq<ConnId>, given: seq<ConnId>)
    requires acquired' == acquired + taken && returned' == returned + given && multiset(given) == multiset(taken)
    ensures acquired'[|acquired|..] == taken
    ensures multiset(returned'[|returned|..]) == multiset(acquired'[|acquired|..])
  {
    assert returned'[|returned|..] == given;
  }

  // ---------------------------------------------------------------- what passes achieve

  function AfterPasses(idle: nat, used: nat, target: nat, n: nat): nat {
    if n == 0 then idle else AfterPass(AfterPasses(idle, used, target, n - 1), used, target)
  }

  /** However many passes succeed, while others use the same number of connections, they reach the target
      exactly when no connection was idle or there were that many to begin with; they always reach half of
      it, and all there is to gain is gained by the first. */
  lemma {:induction false} TargetReached(idle: nat, used: nat, target: nat, n: nat)
    requires n >= 1
    ensures AfterPasses(idle, used, target, n) + used >= target <==> idle == 0 || idle + used >= target
    ensures 2 * (AfterPasses(idle, used, target, n) + used) >= target
    ensures AfterPasses(idle, used, target, n) == AfterPass(idle, used, target)
  {
    if n > 1 {
      TargetReached(idle, used, target, n - 1);
    } else {
      assert AfterPasses(idle, used, target, 1) == AfterPass(AfterPasses(idle, used, target, 0), used, target);
    }
  }
}
