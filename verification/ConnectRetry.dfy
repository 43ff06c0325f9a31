/**
 connectWithContext and the retry loop around it: which connects are made, how long each wait is, what
 the recorder counts, and that every pool but the returned one is closed.
 */
module ConnectRetry {

  /** What the driver does with one connect. */
  datatype Outcome = OpenFails | PingFails | VerifyFails | Verified

  /** What one round of the loop meets: is the context done at its head, is it done during the wait,
      and what does the driver do. */
  datatype Round = Round(doneAtHead: bool, doneInWait: bool, outcome: Outcome)

  datatype Answer = Connected(pool: nat) | Failed | Cancelled

  /** Delays are nanoseconds. */
  datatype RetryConfig = RetryConfig(maxAttempts: nat, initialDelay: int, maxDelay: int, multiplier: real)

  // ---------------------------------------------------------------- back-off

  /** Conversion of a float to an integer: toward zero. */
  function Truncate(x: real): int {
    if x >= 0.0 then x.Floor else -((-x).Floor)
  }

  function Min(a: int, b: int): int {
    if a <= b then a else b
  }

  /** One multiplication of the delay. */
  function Scale(cfg: RetryConfig, delay: int): int {
    Truncate(delay as real * cfg.multiplier)
  }

  /** The loop's `delay` after `k` failed connects. */
  function Delay(cfg: RetryConfig, k: nat): int {
    if k == 0 then cfg.initialDelay else Min(cfg.maxDelay, Scale(cfg, Delay(cfg, k - 1)))
  }

  function Power(m: nat, k: nat): nat {
    if k == 0 then 1 else m * Power(m, k - 1)
  }

  lemma ScaleWhole(cfg: RetryConfig, d: nat, m: nat)
    requires cfg.multiplier == m as real
    ensures Scale(cfg, d) == d * m
  {
    assert d as real * (m as real) == (d * m) as real;
  }

  lemma ScaleMonotone(c: nat, a: nat, b: nat)
    requires a <= b
    ensures c * a <= c * b
  {
  }

  /** Capping, scaling and capping again is scaling and capping once. */
  lemma CapThenScale(cap: nat, initial: nat, power: nat, m: nat)
    requires m >= 1
    ensures Min(cap, Min(cap, initial * power) * m) == Min(cap, initial * (m * power))
  {
    var x := initial * power;
    assert x * m == initial * (m * power);
    if x > cap {
      ScaleMonotone(cap, 1, m);
      ScaleMonotone(m, cap, x);
    }
  }

  /** `d` is `x` cut off toward zero, or the maximum if that is less. */
  predicate CutAndCapped(x: real, max: int, d: int) {
    && d <= max
    && (d < max ==> if x >= 0.0 then d as real <= x < d as real + 1.0 else d as real - 1.0 < x <= d as real)
    && (d == max ==> if x >= 0.0 then d as real <= x else d as real - 1.0 < x)
  }

  lemma Cuts(x: real, max: int)
    ensures CutAndCapped(x, max, Min(max, Truncate(x)))
  {
  }

  function Product(d: int, multiplier: real): real {
    d as real * multiplier
  }

  lemma ScaleCuts(cfg: RetryConfig, d: int)
    ensures CutAndCapped(Product(d, cfg.multiplier), cfg.maxDelay, Min(cfg.maxDelay, Scale(cfg, d)))
  {
    Cuts(Product(d, cfg.multiplier), cfg.maxDelay);
  }

  /** The loop's delay, step by step and for every multiplier. */
  lemma DelaySteps(cfg: RetryConfig, k: nat)
    ensures Delay(cfg, 0) == cfg.initialDelay
    ensures CutAndCapped(Product(Delay(cfg, k), cfg.multiplier), cfg.maxDelay, Delay(cfg, k + 1))
  {
    ScaleCuts(cfg, Delay(cfg, k));
  }

  /** For whole multipliers capping in every round is capping the power once. */
  lemma {:induction false} DelayIsCappedPower(cfg: RetryConfig, m: nat, k: nat)
    requires k >= 1 && m >= 1 && cfg.multiplier == m as real
    requires cfg.initialDelay >= 0 && cfg.maxDelay >= 0
    ensures Delay(cfg, k) == Min(cfg.maxDelay, cfg.initialDelay * Power(m, k))
  {
    if k == 1 {
      ScaleWhole(cfg, cfg.initialDelay, m);
      assert Power(m, 1) == m * Power(m, 0) == m;
    } else {
      DelayIsCappedPower(cfg, m, k - 1);
      CappedNonNegative(cfg.maxDelay, cfg.initialDelay, Power(m, k - 1));
      ScaleWhole(cfg, Delay(cfg, k - 1), m);
      CapThenScale(cfg.maxDelay, cfg.initialDelay, Power(m, k - 1), m);
    }
  }

  lemma CappedNonNegative(cap: nat, initial: nat, power: nat)
    ensures Min(cap, initial * power) >= 0
  {
  }

  lemma ScaleGrows(cfg: RetryConfig, d: int)
    requires cfg.multiplier >= 1.0 && d >= 0
    ensures Scale(cfg, d) >= d
  {
    var x := d as real * cfg.multiplier;
    assert x == d as real + d as real * (cfg.multiplier - 1.0);
    assert x >= d as real;
  }

  lemma {:induction false} DelayNotNegative(cfg: RetryConfig, k: nat)
    requires cfg.multiplier >= 1.0 && cfg.initialDelay >= 0 && cfg.maxDelay >= 0
    ensures Delay(cfg, k) >= 0
  {
    if k > 0 {
      DelayNotNegative(cfg, k - 1);
      ScaleGrows(cfg, Delay(cfg, k - 1));
    }
  }

  /** The documented growth: waits never shrink when the multiplier is at least one. */
  lemma {:induction false} DelaysGrow(cfg: RetryConfig, j: nat, k: nat)
    requires 1 <= j <= k && cfg.multiplier >= 1.0
    requires cfg.initialDelay >= 0 && cfg.maxDelay >= 0
    ensures Delay(cfg, j) <= Delay(cfg, k)
  {
    if j < k {
      DelaysGrow(cfg, j, k - 1);
      DelayNotNegative(cfg, k - 1);
      ScaleGrows(cfg, Delay(cfg, k - 1));
    }
  }

  // ---------------------------------------------------------------- the loop

  /** The waits before attempts 1..n. */
  function Waits(cfg: RetryConfig, n: nat): seq<int> {
    if n == 0 then [] else Waits(cfg, n - 1) + [Delay(cfg, n)]
  }

  /** The k-th wait is the delay after k failures and, whatever the multiplier, never above the maximum. */
  lemma {:induction false} WaitsCapped(cfg: RetryConfig, n: nat)
    ensures |Waits(cfg, n)| == n
    ensures forall i :: 0 <= i < n ==> Waits(cfg, n)[i] == Delay(cfg, i + 1) && Waits(cfg, n)[i] <= cfg.maxDelay
  {
    if n > 0 {
      WaitsCapped(cfg, n - 1);
    }
  }

  class Connector {
    const cfg: RetryConfig
    const retryEnabled: bool

    // the recorder
    var attempts: nat
    var retries: nat
    var successes: nat
    var failures: nat

    // the driver
    var created: nat           // pools opened: 0..created
    var open: set<nat>         // pools opened and not closed since
    var connects: nat          // calls of Open, successful or not
    var waits: seq<int>        // the delays the loop waited for, or began to wait for

    ghost predicate Valid()
      reads this
    {
      forall p :: p in open ==> p < created
    }

    constructor (cfg: RetryConfig, retryEnabled: bool)
      ensures Valid() && this.cfg == cfg && this.retryEnabled == retryEnabled
      ensures attempts == retries == successes == failures == created == connects == 0
      ensures open == {} && waits == []
    {
      this.cfg, this.retryEnabled := cfg, retryEnabled;
      attempts, retries, successes, failures := 0, 0, 0, 0;
      created, open, connects, waits := 0, {}, 0, [];
    }

    /** One connect. Retry mode leaves the counting to the loop. */
    method ConnectWithContext(outcome: Outcome) returns (answer: Answer)
      requires Valid()
      modifies this`attempts, this`successes, this`failures, this`created, this`open, this`connects
      ensures Valid()
      ensures answer == (if outcome == Verified then Connected(old(created)) else Failed)
      ensures connects == old(connects) + 1
      ensures created == old(created) + (if outcome == OpenFails then 0 else 1)
      ensures open == old(open) + (if answer.Connected? then {answer.pool} else {})
      ensures attempts == old(attempts) + (if retryEnabled then 0 else 1)
      ensures successes == old(successes) + (if !retryEnabled && answer.Connected? then 1 else 0)
      ensures failures == old(failures) + (if !retryEnabled && !answer.Connected? then 1 else 0)
    {
      if !retryEnabled {
        attempts := attempts + 1;
      }
      connects := connects + 1;
      if outcome == OpenFails {
        if !retryEnabled {
          failures := failures + 1;
        }
        return Failed;
      }
      var db := created;
      created, open := created + 1, open + {db};
      if outcome == PingFails {
        open := open - {db};
        if !retryEnabled {
          failures := failures + 1;
        }
        return Failed;
      }
      if outcome == VerifyFails {
        open := open - {db};
        if !retryEnabled {
          failures := failures + 1;
        }
        return Failed;
      }
      if !retryEnabled {
        successes := successes + 1;
      }
      return Connected(db);
    }

    /** The retry loop. `connects` counts from `old(connects)`: `n` of them were made. */
    method ConnectWithRetry(rounds: seq<Round>) returns (answer: Answer)
      requires Valid() && retryEnabled && |rounds| == cfg.maxAttempts + 1
      modifies this
      ensures Valid()
      ensures var n := connects - old(connects);
              && 0 <= n <= cfg.maxAttempts + 1
              // the context was not done before any connect, and every one but the last failed
              && (forall k :: 0 <= k < n ==> !rounds[k].doneAtHead && (k > 0 ==> !rounds[k].doneInWait))
              && (forall k :: 0 <= k < n - 1 ==> rounds[k].outcome != Verified)
              && (answer.Connected? <==> n > 0 && rounds[n - 1].outcome == Verified)
              && (answer.Cancelled? <==>
                    && n <= cfg.maxAttempts && (n > 0 ==> rounds[n - 1].outcome != Verified)
                    && (rounds[n].doneAtHead || (n > 0 && rounds[n].doneInWait)))
              && (answer.Failed? <==> n == cfg.maxAttempts + 1 && rounds[n - 1].outcome != Verified)
      // the waits, and the retries the recorder saw
      ensures var n := connects - old(connects);
              retries - old(retries) ==
              (if answer.Cancelled? && !rounds[n].doneAtHead then n else if n == 0 then 0 else n - 1)
      ensures waits == old(waits) + Waits(cfg, retries - old(retries))
      // every attempt is counted once, with its outcome
      ensures attempts == old(attempts) + 1
      ensures successes == old(successes) + (if answer.Connected? then 1 else 0)
      ensures failures == old(failures) + (if answer.Failed? then 1 else 0)
      // nothing opened on the way stays open
      ensures answer.Connected? ==> old(created) <= answer.pool == created - 1
      ensures open == old(open) + (if answer.Connected? then {answer.pool} else {})
    {
      var delay := cfg.initialDelay;
      attempts := attempts + 1;
      ghost var retried: nat := 0;
      for attempt := 0 to cfg.maxAttempts + 1
        invariant delay == Delay(cfg, attempt)
        invariant forall k :: 0 <= k < attempt ==> !rounds[k].doneAtHead && (k > 0 ==> !rounds[k].doneInWait)
        invariant forall k :: 0 <= k < attempt ==> rounds[k].outcome != Verified
        invariant connects == old(connects) + attempt
        invariant retried == (if attempt == 0 then 0 else attempt - 1)
        invariant retries == old(retries) + retried
        invariant waits == old(waits) + Waits(cfg, retried)
        invariant attempts == old(attempts) + 1 && successes == old(successes) && failures == old(failures)
        invariant Valid() && created >= old(created) && open == old(open)
      {
        if rounds[attempt].doneAtHead {
          return Cancelled;
        }
        if attempt > 0 {
          retries := retries + 1;
          waits := waits + [delay];
          retried := retried + 1;
          if rounds[attempt].doneInWait {
            return Cancelled;
          }
        }
        var a := ConnectWithContext(rounds[attempt].outcome);
        if a.Connected? {
          successes := successes + 1;
          return a;
        }
        delay := Scale(cfg, delay);
        if delay > cfg.maxDelay {
          delay := cfg.maxDelay;
        }
      }
      failures := failures + 1;
      return Failed;
    }
  }
}
