/**
 The inductive invariant of the pools.

 Whatever the goroutine that holds lifecycleMu does, its effect on the pools is one of a dozen
 abstract moves between the phases of a lifecycle operation. The invariant is stated over phases, so
 it is proved move by move; that every action of the machine is such a move is a separate case check.
 */
module PluginInvariant {
  import opened Wrappers
  import opened PluginMachine
  import opened PluginLocks

  /** What the holder of lifecycleMu has in hand. */
  datatype Phase =
    | Quiet                                                     // nothing
    | Guarded                                                   // a Startup that found `connected` false
    | Permitted(startup: bool)                                  // has found `closing` false
    | Candidate(o: Owner, hand: Option<PoolId>, verified: bool) // connecting; the pool it has opened
    | Replacing(previous: PoolId)                                    // has published; the predecessor is still open
    | Settled                                                   // has published; nothing left to close
    | ShuttingDown                                              // cleanup phase two, before Close
    | ClosedShown                                               // after Close, before `db` is nil
    | Emptied                                                   // `db` is nil, `connected` not yet cleared
    | Sealed                                                    // both cleared

  function PhaseOf(pc: PC): Phase {
    if pc.Startup? then
      if pc.st.CheckClosing? then Guarded
      else if pc.st.CheckCtx? then Permitted(true)
      else if pc.st.Lock? || pc.st.CheckConnected? || pc.st.Release? then Quiet
      else Settled
    else if pc.Reconnect? then
      if pc.re.CheckCtx? || pc.re.Snapshot? then Permitted(false) else Quiet
    else if pc.Connecting? then
      if pc.co.Ping? || pc.co.Verify? || pc.co.Drop? || pc.co.Succeeded?
          then Candidate(pc.o, Some(pc.co.p), pc.co.Succeeded?)
      else Candidate(pc.o, None, false)
    else if pc.Publishing? then
      if pc.pu.StoreConnected? || pc.pu.UnlockMu? || pc.pu.CloseOld? then
        if pc.o.ByReconnect? && pc.o.seen.Some? then Replacing(pc.o.seen.value) else Settled
      else Candidate(pc.o, Some(pc.pu.p), true)
    else if pc.Announcing? || pc.Finishing? then Settled
    else if pc.Shutting? then
      if pc.cz.Lock? then Quiet
      else if pc.cz.NilDb? then ClosedShown
      else if pc.cz.ClearConnected? then Emptied
      else if pc.cz.UnlockMu? || pc.cz.Unlock? then Sealed
      else ShuttingDown
    else Quiet
  }

  /** May still publish a pool. */
  predicate Licensed(ph: Phase) {
    ph.Permitted? || ph.Candidate?
  }

  /** Has published a pool and still holds lifecycleMu. */
  predicate HasPublished(ph: Phase) {
    ph.Replacing? || ph.Settled?
  }

  function Hand(ph: Phase): Option<PoolId> {
    match ph
    case Candidate(_, hand, _) => hand
    case Replacing(previous) => Some(previous)
    case _ => None
  }

  /** The published pool; none for the instant between Cleanup's Close and its store of nil. */
  function Shown(ps: Pools, ph: Phase): Option<PoolId> {
    if ph.ClosedShown? then None else ps.db
  }

  // ---------------------------------------------------------------- the invariant

  /** In how many places a pool is: closed (once per Close call), overwritten, published, in hand. */
  function Places(ps: Pools, ph: Phase, p: PoolId): nat {
    ps.closes[p] + One(p in ps.orphans) + One(Shown(ps, ph) == Some(p)) + One(Hand(ph) == Some(p))
  }

  ghost predicate Conserved(ps: Pools, ph: Phase) {
    forall p: PoolId :: Places(ps, ph, p) == One(p < ps.created)
  }

  ghost predicate AllBelow(s: seq<PoolId>, n: nat) {
    forall q :: q in s ==> q < n
  }

  ghost predicate AllIn(a: set<PoolId>, s: seq<PoolId>) {
    forall q :: q in a ==> q in s
  }

  /** No pool is published twice. */
  ghost predicate Increasing(s: seq<PoolId>) {
    forall i, j :: 0 <= i < j < |s| ==> s[i] < s[j]
  }

  function ButLast(s: seq<PoolId>): seq<PoolId> {
    if s == [] then [] else s[..|s| - 1]
  }

  ghost predicate CandidateOk(ps: Pools, ph: Phase) {
    && (ph.Guarded? || ph.Candidate? || (ph.Permitted? && ph.startup) ==> !ps.connected)
    && (ph.Candidate? ==>
          && ph.o.seen == ps.db && ph.o.base <= ps.created
          && AllBelow(ps.history, ph.o.base)
          && (ph.hand.Some? ==> ph.o.base <= ph.hand.value)
          && (ph.verified ==> ph.hand.Some? && ph.hand.value in ps.verified))
    && (HasPublished(ph) ==> ps.history != [])
    && (ph.Replacing? ==> |ps.history| >= 2 && ph.previous == ps.history[|ps.history| - 2])
  }

  ghost predicate DbOk(ps: Pools, ph: Phase) {
    && (ps.db.None? <==> ps.history == [] || ps.shut)
    && (ps.db.Some? ==> ps.history != [] && ps.db.value == ps.history[|ps.history| - 1] && ps.db.value in ps.verified)
    && (ps.connected ==> ps.db.Some? || ph.Emptied?)
    && AllBelow(ps.history, ps.created)
    && AllIn(ps.orphans, ButLast(ps.history))
    && Increasing(ps.history)
  }

  ghost predicate ShutOk(closing: bool, done2: set<Tid>, ps: Pools, ph: Phase) {
    && (ps.shut ==> closing && !Licensed(ph) && !HasPublished(ph))
    && (ph.ShuttingDown? || ph.ClosedShown? || ph.Emptied? || ph.Sealed? ==> closing)
    && (ph.ClosedShown? ==> ps.db.Some?)
    && (ph.Emptied? ==> ps.shut)
    && (ph.Sealed? ==> ps.shut && !ps.connected)
    && (done2 != {} ==> ps.shut && !ps.connected)
  }

  /** The pools Reconnect closed, and the one it is about to close. */
  function Replaced(ps: Pools, ph: Phase): seq<PoolId> {
    ps.replaced + if ph.Replacing? then [ph.previous] else []
  }

  /** Together with the overwritten pools they are the history without its last; if there are none of
      those, in order. */
  ghost predicate HistoryOk(ps: Pools, ph: Phase) {
    && multiset(Replaced(ps, ph)) + multiset(ps.orphans) == multiset(ButLast(ps.history))
    && (ps.orphans == {} ==> Replaced(ps, ph) == ButLast(ps.history))
  }

  ghost predicate PoolInv(closing: bool, done2: set<Tid>, ps: Pools, ph: Phase) {
    && Conserved(ps, ph)
    && CandidateOk(ps, ph)
    && DbOk(ps, ph)
    && ShutOk(closing, done2, ps, ph)
    && HistoryOk(ps, ph)
  }

  // ---------------------------------------------------------------- abstract moves

  /** Moves that leave the pools alone. */
  ghost predicate Keeps(closing: bool, ps: Pools, a: Phase, b: Phase) {
    || a == b
    || (b.Quiet? && (a.Guarded? || a.Permitted? || a.Settled? || a.Sealed? || (a.Candidate? && a.hand.None?)))
    || (a.Quiet? && b.Guarded? && !ps.connected)
    || (b == Permitted(true) && a.Guarded? && !closing)
    || (b == Permitted(false) && a.Quiet? && !closing)
    || (a == Permitted(true) && b == Candidate(ByStartup(ps.db, ps.created), None, false))
    || (a.Quiet? && b.ShuttingDown? && closing)
  }

  /** Moves of a connect, from the snapshot to the verified candidate or its Close. */
  ghost predicate ConnectMove(ps: Pools, a: Phase, ps': Pools, b: Phase) {
    // a Reconnect takes its snapshot
    || (&& a == Permitted(false) && ps' == ps.(connected := false)
        && b.Candidate? && b.o.ByReconnect? && b.o.seen == ps.db && b.o.base == ps.created && b.hand.None? &&
            !b.verified)
    // Open
    || (&& a.Candidate? && a.hand.None? && ps' == ps.(created := ps.created + 1)
        && b == Candidate(a.o, Some(ps.created), false))
    // ping and verify query passed
    || (&& a.Candidate? && a.hand.Some? && ps' == ps.(verified := ps.verified + {a.hand.value})
        && b == Candidate(a.o, a.hand, true))
    // Close
    || (&& a.Candidate? && a.hand.Some? && ps' == ps.(closes := ps.closes + multiset{a.hand.value})
        && (b.Quiet? || b == Candidate(a.o, None, false)))
  }

  /** The store that publishes a candidate. */
  ghost predicate StoreMove(ps: Pools, a: Phase, ps': Pools, b: Phase) {
    && a.Candidate? && a.hand.Some? && a.verified
    && ps' == ps.(db := a.hand, history := ps.history + [a.hand.value],
                  orphans := if a.o.ByStartup? && ps.db.Some? then ps.orphans + {ps.db.value} else ps.orphans)
    && b == (if a.o.ByReconnect? && a.o.seen.Some? then Replacing(a.o.seen.value) else Settled)
  }

  /** What follows the store. */
  ghost predicate SettleMove(ps: Pools, a: Phase, ps': Pools, b: Phase) {
    || (HasPublished(a) && a == b && ps' == ps.(connected := true))
    || (&& a.Replacing? && b.Settled?
        && ps' == ps.(closes := ps.closes + multiset{a.previous}, replaced := ps.replaced + [a.previous]))
  }

  /** Cleanup phase two. */
  ghost predicate ShutMove(ps: Pools, a: Phase, ps': Pools, b: Phase) {
    || (a.ShuttingDown? && b.ClosedShown? && ps.db.Some? && ps' == ps.(closes := ps.closes + multiset{ps.db.value}))
    || (a.ShuttingDown? && b.Emptied? && ps.db.None? && ps' == ps.(shut := true))
    || (a.ClosedShown? && b.Emptied? && ps' == ps.(db := None, shut := true))
    || (a.Emptied? && b.Sealed? && ps' == ps.(connected := false))
  }

  lemma KeepsInv(closing: bool, done2: set<Tid>, ps: Pools, a: Phase, b: Phase)
    requires PoolInv(closing, done2, ps, a) && Keeps(closing, ps, a, b)
    ensures PoolInv(closing, done2, ps, b)
  {
    forall p: PoolId ensures Places(ps, b, p) == One(p < ps.created) {
      assert Places(ps, a, p) == One(p < ps.created);
    }
  }

  lemma SameHistory(ps: Pools, a: Phase, ps': Pools, b: Phase)
    requires HistoryOk(ps, a) && Replaced(ps', b) == Replaced(ps, a) && ps'.history == ps.history &&
        ps'.orphans == ps.orphans
    ensures HistoryOk(ps', b)
  {
  }

  lemma ConnectConserves(ps: Pools, a: Phase, ps': Pools, b: Phase)
    requires Conserved(ps, a) && ConnectMove(ps, a, ps', b)
    ensures Conserved(ps', b)
  {
    forall p: PoolId ensures Places(ps', b, p) == One(p < ps'.created) {
      assert Places(ps, a, p) == One(p < ps.created);
    }
  }

  lemma ConnectKeepsFacts(closing: bool, done2: set<Tid>, ps: Pools, a: Phase, ps': Pools, b: Phase)
    requires CandidateOk(ps, a) && DbOk(ps, a) && ShutOk(closing, done2, ps, a) && ConnectMove(ps, a, ps', b)
    ensures CandidateOk(ps', b) && DbOk(ps', b) && ShutOk(closing, done2, ps', b)
  {
  }

  lemma ConnectInv(closing: bool, done2: set<Tid>, ps: Pools, a: Phase, ps': Pools, b: Phase)
    requires PoolInv(closing, done2, ps, a) && ConnectMove(ps, a, ps', b)
    ensures PoolInv(closing, done2, ps', b)
  {
    ConnectConserves(ps, a, ps', b);
    ConnectKeepsFacts(closing, done2, ps, a, ps', b);
    SameHistory(ps, a, ps', b);
  }

  lemma StoreConserves(ps: Pools, a: Phase, ps': Pools, b: Phase)
    requires Conserved(ps, a) && StoreMove(ps, a, ps', b) && a.o.seen == ps.db
    ensures Conserved(ps', b)
  {
    assert Places(ps, a, a.hand.value) == One(a.hand.value < ps.created);
    forall p: PoolId ensures Places(ps', b, p) == One(p < ps'.created) {
      assert Places(ps, a, p) == One(p < ps.created);
    }
  }

  lemma StoreKeepsFacts(closing: bool, done2: set<Tid>, ps: Pools, a: Phase, ps': Pools, b: Phase)
    requires PoolInv(closing, done2, ps, a) && StoreMove(ps, a, ps', b)
    ensures CandidateOk(ps', b) && ShutOk(closing, done2, ps', b)
  {
  }

  lemma StoreHistoryGrows(history: seq<PoolId>, orphans: set<PoolId>, p: PoolId)
    requires Increasing(history) && AllBelow(history, p) && AllIn(orphans, history)
    ensures Increasing(history + [p]) && AllBelow(history + [p], p + 1)
    ensures AllIn(orphans, ButLast(history + [p]))
  {
    assert ButLast(history + [p]) == history;
    forall i | 0 <= i < |history| ensures history[i] < p {
      assert history[i] in history;
    }
  }

  lemma StoreDbOk(ps: Pools, a: Phase, ps': Pools, b: Phase)
    requires Conserved(ps, a) && CandidateOk(ps, a) && DbOk(ps, a) && StoreMove(ps, a, ps', b) && !ps.shut
    ensures DbOk(ps', b)
  {
    assert Places(ps, a, a.hand.value) == One(a.hand.value < ps.created);
    StoreHistoryGrows(ps.history, ps'.orphans, a.hand.value);
  }

  lemma StoreInv(closing: bool, done2: set<Tid>, ps: Pools, a: Phase, ps': Pools, b: Phase)
    requires PoolInv(closing, done2, ps, a) && StoreMove(ps, a, ps', b)
    ensures PoolInv(closing, done2, ps', b)
  {
    StoreConserves(ps, a, ps', b);
    StoreKeepsFacts(closing, done2, ps, a, ps', b);
    StoreDbOk(ps, a, ps', b);
    assert ps.db.Some? ==> Places(ps, a, ps.db.value) == One(ps.db.value < ps.created);
    StoreHistory(ps, a, ps', b);
  }

  /** The last of the history is overwritten. */
  lemma OrphanAdds(replaced: seq<PoolId>, orphans: set<PoolId>, history: seq<PoolId>, last: PoolId)
    requires history != [] && last == history[|history| - 1] && last !in orphans
    requires multiset(replaced) + multiset(orphans) == multiset(ButLast(history))
    ensures multiset(replaced) + multiset(orphans + {last}) == multiset(history)
  {
    assert history == ButLast(history) + [last];
    assert multiset(orphans + {last}) == multiset(orphans) + multiset{last};
  }

  /** The last of the history is replaced. */
  lemma ReplacedAdds(replaced: seq<PoolId>, orphans: set<PoolId>, history: seq<PoolId>, last: PoolId)
    requires history != [] && last == history[|history| - 1]
    requires multiset(replaced) + multiset(orphans) == multiset(ButLast(history))
    ensures multiset(replaced + [last]) + multiset(orphans) == multiset(history)
    ensures replaced == ButLast(history) ==> replaced + [last] == history
  {
    assert history == ButLast(history) + [last];
  }

  lemma StoreHistory(ps: Pools, a: Phase, ps': Pools, b: Phase)
    requires StoreMove(ps, a, ps', b) && HistoryOk(ps, a)
    requires a.o.seen == ps.db && (ps.db.None? ==> ps.history == [] && ps.orphans == {})
    requires ps.db.Some? ==>
        ps.history != [] && ps.db.value == ps.history[|ps.history| - 1] && ps.db.value !in ps.orphans
    ensures HistoryOk(ps', b)
  {
    assert ButLast(ps'.history) == ps.history;
    assert Replaced(ps, a) == ps.replaced;
    if ps.db.None? {
      assert Replaced(ps', b) == ps.replaced;
    } else if a.o.ByStartup? {
      assert Replaced(ps', b) == ps.replaced;
      OrphanAdds(ps.replaced, ps.orphans, ps.history, ps.db.value);
    } else {
      ReplacedAdds(ps.replaced, ps.orphans, ps.history, ps.db.value);
    }
  }

  lemma SettleConserves(ps: Pools, a: Phase, ps': Pools, b: Phase)
    requires Conserved(ps, a) && SettleMove(ps, a, ps', b)
    ensures Conserved(ps', b)
  {
    forall p: PoolId ensures Places(ps', b, p) == One(p < ps'.created) {
      assert Places(ps, a, p) == One(p < ps.created);
    }
  }

  lemma SettleInv(closing: bool, done2: set<Tid>, ps: Pools, a: Phase, ps': Pools, b: Phase)
    requires PoolInv(closing, done2, ps, a) && SettleMove(ps, a, ps', b)
    ensures PoolInv(closing, done2, ps', b)
  {
    SettleConserves(ps, a, ps', b);
    assert Replaced(ps', b) == Replaced(ps, a);
    SameHistory(ps, a, ps', b);
  }

  lemma ShutConserves(ps: Pools, a: Phase, ps': Pools, b: Phase)
    requires Conserved(ps, a) && ShutMove(ps, a, ps', b)
    requires a.ClosedShown? ==> ps.db.Some?
    ensures Conserved(ps', b)
  {
    forall p: PoolId ensures Places(ps', b, p) == One(p < ps'.created) {
      assert Places(ps, a, p) == One(p < ps.created);
    }
  }

  lemma ShutKeepsFacts(closing: bool, done2: set<Tid>, ps: Pools, a: Phase, ps': Pools, b: Phase)
    requires CandidateOk(ps, a) && DbOk(ps, a) && ShutOk(closing, done2, ps, a) && ShutMove(ps, a, ps', b)
    ensures CandidateOk(ps', b) && DbOk(ps', b) && ShutOk(closing, done2, ps', b)
  {
  }

  lemma ShutInv(closing: bool, done2: set<Tid>, ps: Pools, a: Phase, ps': Pools, b: Phase)
    requires PoolInv(closing, done2, ps, a) && ShutMove(ps, a, ps', b)
    ensures PoolInv(closing, done2, ps', b)
  {
    ShutConserves(ps, a, ps', b);
    ShutKeepsFacts(closing, done2, ps, a, ps', b);
    SameHistory(ps, a, ps', b);
  }

  // ---------------------------------------------------------------- every action is a move

  ghost predicate PoolMove(closing: bool, ps: Pools, a: Phase, ps': Pools, b: Phase) {
    || (ps' == ps && Keeps(closing, ps, a, b))
    || ConnectMove(ps, a, ps', b)
    || StoreMove(ps, a, ps', b)
    || SettleMove(ps, a, ps', b)
    || ShutMove(ps, a, ps', b)
    || (a == b && ps' == ps.(connected := false))
  }

  ghost predicate OutPools(sh: Shared, pc: PC, o: Out) {
    && PoolMove(sh.closing, sh.pools, PhaseOf(pc), o.sh.pools, PhaseOf(o.pc))
    && (sh.closing ==> o.sh.closing)
    && (o.sh.bg.done2 == sh.bg.done2 || PhaseOf(pc).Sealed?)
  }

  lemma MoveInv(sh: Shared, pc: PC, o: Out)
    requires PoolInv(sh.closing, sh.bg.done2, sh.pools, PhaseOf(pc)) && OutPools(sh, pc, o)
    ensures PoolInv(o.sh.closing, o.sh.bg.done2, o.sh.pools, PhaseOf(o.pc))
  {
    var ps, a, ps', b := sh.pools, PhaseOf(pc), o.sh.pools, PhaseOf(o.pc);
    if ps' == ps && Keeps(sh.closing, ps, a, b) {
      KeepsInv(sh.closing, sh.bg.done2, ps, a, b);
    } else if ConnectMove(ps, a, ps', b) {
      ConnectInv(sh.closing, sh.bg.done2, ps, a, ps', b);
    } else if StoreMove(ps, a, ps', b) {
      StoreInv(sh.closing, sh.bg.done2, ps, a, ps', b);
    } else if SettleMove(ps, a, ps', b) {
      SettleInv(sh.closing, sh.bg.done2, ps, a, ps', b);
    } else if ShutMove(ps, a, ps', b) {
      ShutInv(sh.closing, sh.bg.done2, ps, a, ps', b);
    } else {
      DropInv(sh.closing, sh.bg.done2, ps, a);
    }
  }

  /** Anyone may clear `connected` at any time. */
  lemma DropInv(closing: bool, done2: set<Tid>, ps: Pools, a: Phase)
    requires PoolInv(closing, done2, ps, a)
    ensures PoolInv(closing, done2, ps.(connected := false), a)
  {
    var ps' := ps.(connected := false);
    forall p: PoolId ensures Places(ps', a, p) == One(p < ps'.created) {
      assert Places(ps, a, p) == One(p < ps.created);
    }
  }

  /** An action of a goroutine without lifecycleMu is harmless to whoever holds it. */
  lemma BystanderInv(sh: Shared, pc: PC, o: Out, holder: Phase)
    requires PoolInv(sh.closing, sh.bg.done2, sh.pools, holder) && OutPools(sh, pc, o)
    requires PhaseOf(pc).Quiet? && PhaseOf(o.pc).Quiet?
    ensures PoolInv(o.sh.closing, o.sh.bg.done2, o.sh.pools, holder)
  {
    DropInv(sh.closing, sh.bg.done2, sh.pools, holder);
  }

  lemma OutsiderQuiet(pc: PC)
    requires !HoldsLifecycle(pc)
    ensures PhaseOf(pc).Quiet?
  {
  }

  lemma StartupMoves(cfg: Config, sh: Shared, at: StartAt, ch: Choice, child: Tid)
    requires NextStartup(cfg, sh, at, ch, child).Some?
    ensures OutPools(sh, Startup(at), NextStartup(cfg, sh, at, ch, child).value)
  {
  }

  lemma ReconnectMoves(sh: Shared, k: AfterReconnect, at: ReconnectAt, ch: Choice)
    requires NextReconnect(sh, k, at, ch).Some?
    ensures OutPools(sh, Reconnect(k, at), NextReconnect(sh, k, at, ch).value)
  {
  }

  lemma ConnectMoves(cfg: Config, sh: Shared, o: Owner, at: ConnectAt, ch: Choice)
    requires NextConnect(cfg, sh, o, at, ch).Some?
    ensures OutPools(sh, Connecting(o, at), NextConnect(cfg, sh, o, at, ch).value)
  {
  }

  lemma PublishMoves(sh: Shared, o: Owner, at: PublishAt, ch: Choice)
    requires NextPublish(sh, o, at, ch).Some?
    ensures OutPools(sh, Publishing(o, at), NextPublish(sh, o, at, ch).value)
  {
  }

  lemma AnnounceMoves(cfg: Config, sh: Shared, o: Owner, at: AnnounceAt, ch: Choice)
    requires NextAnnounce(cfg, sh, o, at, ch).Some?
    ensures OutPools(sh, Announcing(o, at), NextAnnounce(cfg, sh, o, at, ch).value)
  {
  }

  lemma ShuttingMovesFirst(sh: Shared, t: Tid, at: CloseAt)
    requires at.Lock? || at.LockMu? || at.DrainMu? || at.UnlockMu? || at.Unlock?
    requires at.Lock? ==> sh.closing
    requires NextShutting(sh, t, at).Some?
    ensures OutPools(sh, Shutting(at), NextShutting(sh, t, at).value)
  {
  }

  lemma ShuttingMoves(sh: Shared, t: Tid, at: CloseAt)
    requires at.Lock? ==> sh.closing
    requires NextShutting(sh, t, at).Some?
    ensures OutPools(sh, Shutting(at), NextShutting(sh, t, at).value)
  {
    if at.Lock? || at.LockMu? || at.DrainMu? || at.UnlockMu? || at.Unlock? {
      ShuttingMovesFirst(sh, t, at);
    }
  }
}
