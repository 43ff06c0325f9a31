/**
 The retry loop of the machine is that of ConnectRetry: for every sequence of rounds the undisturbed loop
 has a run that ends with the same answer after the same connects, and tells the recorder the same.
 */
module PluginRetryLoop {
  import opened PluginMachine
  import opened PluginScenarios
  import Retry = ConnectRetry

  /** One connect that fails, from Open on. */
  lemma FailsOnce(x: Stretch, v: View, outcome: Retry.Outcome) returns (w: View)
    requires x.At(v) && v.pc.Connecting? && v.pc.co.Open? && outcome != Retry.Verified
    ensures w.pc == Connecting(v.pc.o, ConnectAt.Failed(v.pc.co.n)) && w.locks == v.locks && x.At(w)
    ensures w.sh.metrics == v.sh.metrics && w.sh.pools.db == v.sh.pools.db
    ensures w.sh.pools.created == v.sh.pools.created + (if outcome.OpenFails? then 0 else 1)
    ensures w.sh.pools.closes ==
            v.sh.pools.closes + (if outcome.OpenFails? then multiset{} else multiset{v.sh.pools.created})
  {
    if outcome.OpenFails? {
      w := InConnect(x, v, Bad);
    } else {
      w := InConnect(x, v, Go);
      if outcome.PingFails? {
        w := InConnect(x, w, Bad);
      } else {
        w := InConnect(x, w, Go);
        w := InConnect(x, w, Bad);
      }
      w := InConnect(x, w, Go);
    }
  }

  /** And what follows: the next round, or the end. */
  lemma FailsAndGoesOn(x: Stretch, v: View, outcome: Retry.Outcome) returns (w: View)
    requires x.At(v) && v.pc.Connecting? && v.pc.co.Open? && outcome != Retry.Verified && x.cfg.retryEnabled
    ensures var n, m := v.pc.co.n, v.sh.metrics;
            && w.locks == v.locks && x.At(w) && w.sh.pools.db == v.sh.pools.db
            && if n < x.cfg.retryMaxAttempts
               then w.pc == Connecting(v.pc.o, Head(n + 1)) && w.sh.metrics == m
               else w.pc == Connecting(v.pc.o, GaveUp) && w.sh.metrics == m.(failures := m.failures + 1)
  {
    w := FailsOnce(x, v, outcome);
    w := InConnect(x, w, Go);
  }

  /** One that succeeds. */
  lemma SucceedsOnce(x: Stretch, v: View) returns (w: View)
    requires x.At(v) && v.pc.Connecting? && v.pc.co.Open?
    ensures w.pc == Connecting(v.pc.o, Succeeded(v.sh.pools.created)) && w.locks == v.locks && x.At(w)
    ensures w.sh.metrics == v.sh.metrics && w.sh.pools.db == v.sh.pools.db
    ensures w.sh.pools.created == v.sh.pools.created + 1 && w.sh.pools.closes == v.sh.pools.closes
  {
    w := InConnect(x, v, Go);
    w := InConnect(x, w, Go);
    w := InConnect(x, w, Go);
  }

  /** The head of a round, and its wait. */
  lemma Reaches(x: Stretch, v: View, r: Retry.Round) returns (w: View)
    requires x.At(v) && v.pc.Connecting? && v.pc.co.Head?
    ensures var n, m := v.pc.co.n, v.sh.metrics;
            var retries := m.retries + if n > 0 && !r.doneAtHead then 1 else 0;
            && w.locks == v.locks && x.At(w) && w.sh.pools == v.sh.pools
            && if r.doneAtHead || (n > 0 && r.doneInWait)
               then && w.pc == Connecting(v.pc.o, GaveUp)
                    && w.sh.metrics == m.(retries := retries, cancellations := m.cancellations + 1)
               else && w.pc == Connecting(v.pc.o, ConnectAt.Open(n))
                    && w.sh.metrics == m.(retries := retries)
  {
    w := InConnect(x, v, if r.doneAtHead then Bad else Go);
    if !r.doneAtHead && v.pc.co.n > 0 {
      w := InConnect(x, w, if r.doneInWait then Bad else Go);
    }
  }

  /** The context lets round `k` make its connect. */
  predicate Lets(rounds: seq<Retry.Round>, k: nat)
    requires k < |rounds|
  {
    !rounds[k].doneAtHead && (k > 0 ==> !rounds[k].doneInWait)
  }

  /** What the loop comes to from round `k` on, when `n` is the number of connects in all. */
  predicate Ends(rounds: seq<Retry.Round>, k: nat, n: nat, answer: Retry.Answer)
    requires k <= n <= |rounds|
  {
    && (forall i :: k <= i < n ==> Lets(rounds, i))
    && (forall i :: k <= i < n - 1 ==> rounds[i].outcome != Retry.Verified)
    && (answer.Connected? <==> n > k && rounds[n - 1].outcome == Retry.Verified)
    && (answer.Cancelled? <==>
          n < |rounds| && (n > k ==> rounds[n - 1].outcome != Retry.Verified) && !Lets(rounds, n))
    && (answer.Failed? <==> n == |rounds| && (n > k ==> rounds[n - 1].outcome != Retry.Verified))
  }

  /** The recorder's view: `retries` more, and the outcome. */
  predicate Counted(m: Metrics, m': Metrics, retries: nat, answer: Retry.Answer) {
    m' == m.(retries := m.retries + retries,
             failures := m.failures + (if answer.Failed? then 1 else 0),
             cancellations := m.cancellations + (if answer.Cancelled? then 1 else 0))
  }

  /** Retries of the rounds from `k` on: every connect but the first of all is one, and so is a wait in
      which the context is done. */
  function RetriesFrom(rounds: seq<Retry.Round>, k: nat, n: nat, answer: Retry.Answer): nat
    requires k <= n <= |rounds|
  {
    n - k - (if k == 0 && n > 0 then 1 else 0) +
    (if answer.Cancelled? && n < |rounds| && !rounds[n].doneAtHead && n > 0 then 1 else 0)
  }

  lemma {:induction false} Loops(x: Stretch, v: View, rounds: seq<Retry.Round>)
      returns (w: View, n: nat, answer: Retry.Answer)
    requires x.At(v) && x.cfg.retryEnabled && |rounds| == x.cfg.retryMaxAttempts + 1
    requires v.pc.Connecting? && v.pc.co.Head? && v.pc.co.n < |rounds|
    ensures x.At(w) && w.locks == v.locks && w.sh.pools.db == v.sh.pools.db
    ensures v.pc.co.n <= n <= |rounds| && Ends(rounds, v.pc.co.n, n, answer)
    ensures Counted(v.sh.metrics, w.sh.metrics, RetriesFrom(rounds, v.pc.co.n, n, answer), answer)
    ensures w.pc == Connecting(v.pc.o, if answer.Connected? then Succeeded(answer.pool) else GaveUp)
    ensures answer.Connected? ==> answer.pool == w.sh.pools.created - 1
    decreases |rounds| - v.pc.co.n
  {
    var k := v.pc.co.n;
    w := Reaches(x, v, rounds[k]);
    if !Lets(rounds, k) {
      return w, k, Retry.Cancelled;
    }
    if rounds[k].outcome == Retry.Verified {
      w := SucceedsOnce(x, w);
      return w, k + 1, Retry.Connected(w.sh.pools.created - 1);
    }
    w := FailsAndGoesOn(x, w, rounds[k].outcome);
    if k == x.cfg.retryMaxAttempts {
      return w, k + 1, Retry.Failed;
    }
    var m := w.sh.metrics;
    w, n, answer := Loops(x, w, rounds);
    OneRound(rounds, k, n, answer);
    CountsAdd(v.sh.metrics, m, w.sh.metrics, if k > 0 then 1 else 0, RetriesFrom(rounds, k + 1, n, answer), answer);
  }

  /** A round that fails, and the rest. */
  lemma OneRound(rounds: seq<Retry.Round>, k: nat, n: nat, answer: Retry.Answer)
    requires k + 1 <= n <= |rounds| && Lets(rounds, k) && rounds[k].outcome != Retry.Verified
    requires Ends(rounds, k + 1, n, answer)
    ensures Ends(rounds, k, n, answer)
    ensures RetriesFrom(rounds, k, n, answer) == (if k > 0 then 1 else 0) + RetriesFrom(rounds, k + 1, n, answer)
  {
  }

  lemma CountsAdd(a: Metrics, b: Metrics, c: Metrics, m: nat, n: nat, answer: Retry.Answer)
    requires b == a.(retries := a.retries + m) && Counted(b, c, n, answer)
    ensures Counted(a, c, m + n, answer)
  {
  }

  /** From the attempt on: the answer and the counts that ConnectWithRetry has for these rounds. */
  lemma RetriesAgree(x: Stretch, v: View, rounds: seq<Retry.Round>) returns (w: View, n: nat, answer: Retry.Answer)
    requires x.At(v) && x.cfg.retryEnabled && |rounds| == x.cfg.retryMaxAttempts + 1
    requires v.pc.Connecting? && v.pc.co.Begin?
    ensures x.At(w) && w.locks == v.locks && w.sh.pools.db == v.sh.pools.db
    ensures w.pc == Connecting(v.pc.o, if answer.Connected? then Succeeded(answer.pool) else GaveUp)
    // which answer after how many connects
    ensures n <= |rounds|
    ensures forall k :: 0 <= k < n ==> !rounds[k].doneAtHead && (k > 0 ==> !rounds[k].doneInWait)
    ensures forall k :: 0 <= k < n - 1 ==> rounds[k].outcome != Retry.Verified
    ensures answer.Connected? <==> n > 0 && rounds[n - 1].outcome == Retry.Verified
    ensures answer.Cancelled? <==>
              && n < |rounds| && (n > 0 ==> rounds[n - 1].outcome != Retry.Verified)
              && (rounds[n].doneAtHead || (n > 0 && rounds[n].doneInWait))
    ensures answer.Failed? <==> n == |rounds| && rounds[n - 1].outcome != Retry.Verified
    // what the recorder is told before the success is
    ensures var m, m' := v.sh.metrics, w.sh.metrics;
            && m'.attempts == m.attempts + 1 && m'.successes == m.successes
            && m'.failures == m.failures + (if answer.Failed? then 1 else 0)
            && m'.retries == m.retries +
               (if answer.Cancelled? && !rounds[n].doneAtHead then n else if n == 0 then 0 else n - 1)
  {
    var u := InConnect(x, v, Go);
    w, n, answer := Loops(x, u, rounds);
    forall k | 0 <= k < n ensures !rounds[k].doneAtHead && (k > 0 ==> !rounds[k].doneInWait) {
      assert Lets(rounds, k);
    }
  }
}
