/**
 AutoReconnector: bounded attempts against a target that comes and goes.
 */
module AutoReconnector {

  /** What a tick finds: is the target connected, and would a Reconnect succeed. */
  datatype Tick = Tick(connected: bool, reconnects: bool)

  /** What a tick comes to. Failed and Succeeded are the two outcomes of a call of Reconnect. */
  datatype Event = Healthy | Succeeded | Failed | Skipped

  /** Failed Reconnects since the last successful one and the last healthy tick. */
  function FailuresSince(events: seq<Event>): nat {
    if events == [] then 0
    else
      match events[|events| - 1]
      case Healthy => 0
      case Succeeded => 0
      case Failed => FailuresSince(events[..|events| - 1]) + 1
      case Skipped => FailuresSince(events[..|events| - 1])
  }

  /** No further Reconnect is allowed; a limit of 0 means none. */
  predicate Exhausted(maxAttempts: int, events: seq<Event>) {
    maxAttempts > 0 && FailuresSince(events) >= maxAttempts
  }

  function Outcome(maxAttempts: int, events: seq<Event>, tick: Tick): Event {
    if tick.connected then Healthy
    else if Exhausted(maxAttempts, events) then Skipped
    else if tick.reconnects then Succeeded
    else Failed
  }

  function Events(maxAttempts: int, ticks: seq<Tick>): (events: seq<Event>)
    ensures |events| == |ticks|
  {
    if ticks == [] then []
    else
      var before := Events(maxAttempts, ticks[..|ticks| - 1]);
      before + [Outcome(maxAttempts, before, ticks[|ticks| - 1])]
  }

  class Reconnector {
    const maxAttempts: int
    var attempts: int
    var reconnecting: bool
    ghost var ticks: seq<Tick>

    ghost predicate Valid()
      reads this
    {
      attempts == FailuresSince(Events(maxAttempts, ticks))
    }

    constructor (maxAttempts: int)
      ensures Valid() && ticks == [] && this.maxAttempts == maxAttempts && !reconnecting
    {
      this.maxAttempts, attempts, reconnecting, ticks := maxAttempts, 0, false, [];
    }

    /** `event` is how the tick ended, and so tells whether Reconnect was called: not while one is under
        way, not when the target is connected, and not once a positive limit is reached. */
    method CheckAndReconnect(tick: Tick) returns (event: Event)
      requires Valid()
      modifies this
      ensures Valid() && reconnecting == old(reconnecting)
      ensures old(reconnecting) ==> event == Skipped && ticks == old(ticks) && attempts == old(attempts)
      ensures !old(reconnecting) ==>
                && ticks == old(ticks) + [tick]
                && event == Outcome(maxAttempts, Events(maxAttempts, old(ticks)), tick)
                && (event == Healthy <==> tick.connected)
                && (event == Skipped <==> !tick.connected && 0 < maxAttempts <= old(attempts))
                && (event == Succeeded ==> tick.reconnects) && (event == Failed ==> !tick.reconnects)
                && attempts == (match event
                                case Healthy => 0
                                case Succeeded => 0
                                case Failed => old(attempts) + 1
                                case Skipped => old(attempts))
    {
      if reconnecting {
        return Skipped;
      }
      ticks := ticks + [tick];
      assert ticks[..|ticks| - 1] == old(ticks);
      if tick.connected {
        attempts := 0;
        return Healthy;
      }
      var currentAttempts := attempts;
      if maxAttempts > 0 && currentAttempts >= maxAttempts {
        return Skipped;
      }
      reconnecting := true;
      if !tick.reconnects {
        attempts := attempts + 1;
        event := Failed;
      } else {
        attempts := 0;
        event := Succeeded;
      }
      reconnecting := false;
    }
  }

  lemma {:induction false} EventsPrefix(maxAttempts: int, ticks: seq<Tick>, n: nat)
    requires n <= |ticks|
    ensures Events(maxAttempts, ticks)[..n] == Events(maxAttempts, ticks[..n])
  {
    if n == |ticks| {
      assert ticks[..n] == ticks;
    } else {
      EventsPrefix(maxAttempts, ticks[..|ticks| - 1], n);
      assert ticks[..|ticks| - 1][..n] == ticks[..n];
    }
  }

  /** Tick by tick: an event is the outcome of its tick, given the events before it. */
  lemma EventAt(maxAttempts: int, ticks: seq<Tick>, k: nat)
    requires k < |ticks|
    ensures var events := Events(maxAttempts, ticks);
            events[k] == Outcome(maxAttempts, events[..k], ticks[k])
  {
    EventsPrefix(maxAttempts, ticks, k);
    EventsPrefix(maxAttempts, ticks, k + 1);
    assert ticks[..k + 1][..k] == ticks[..k];
    assert Events(maxAttempts, ticks)[k] == Events(maxAttempts, ticks[..k + 1])[k];
  }

  predicate Resets(e: Event) {
    e == Healthy || e == Succeeded
  }

  lemma FailedMore(events: seq<Event>, e: Event)
    ensures multiset(events + [e])[Failed] == multiset(events)[Failed] + (if e == Failed then 1 else 0)
  {
  }

  /** What is counted: the failed Reconnects after the last success or healthy tick. */
  lemma {:induction false} FailuresAfterReset(events: seq<Event>) returns (from: nat)
    ensures from <= |events| && (from > 0 ==> events[from - 1] in {Healthy, Succeeded})
    ensures forall k :: from <= k < |events| ==> events[k] in {Failed, Skipped}
    ensures FailuresSince(events) == multiset(events[from..])[Failed]
  {
    if events == [] || Resets(events[|events| - 1]) {
      from := |events|;
      assert events[from..] == [];
    } else {
      var before := events[..|events| - 1];
      from := FailuresAfterReset(before);
      assert events[from..] == before[from..] + [events[|events| - 1]];
      FailedMore(before[from..], events[|events| - 1]);
    }
  }

  /** The limit is never exceeded. */
  lemma {:induction false} NeverExceeds(maxAttempts: int, ticks: seq<Tick>)
    requires maxAttempts > 0
    ensures FailuresSince(Events(maxAttempts, ticks)) <= maxAttempts
  {
    if ticks != [] {
      NeverExceeds(maxAttempts, ticks[..|ticks| - 1]);
    }
  }

  /** Once exhausted after `i` ticks, the reconnector stays so exactly as long as no tick sees the target
      connected; meanwhile every tick is skipped. */
  lemma {:induction false} ExhaustedUntilHealthy(maxAttempts: int, ticks: seq<Tick>, i: nat, j: nat)
    requires i <= j <= |ticks| && Exhausted(maxAttempts, Events(maxAttempts, ticks)[..i])
    ensures var events := Events(maxAttempts, ticks);
            && ((forall k :: i <= k <= j ==> Exhausted(maxAttempts, events[..k])) <==>
                (forall k :: i <= k < j ==> !ticks[k].connected))
            && ((forall k :: i <= k < j ==> !ticks[k].connected) ==> forall k :: i <= k < j ==> events[k] == Skipped)
  {
    if i < j {
      var events := Events(maxAttempts, ticks);
      ExhaustedUntilHealthy(maxAttempts, ticks, i, j - 1);
      EventAt(maxAttempts, ticks, j - 1);
      assert events[..j][..j - 1] == events[..j - 1];
      assert Exhausted(maxAttempts, events[..j - 1]) ==>
          (Exhausted(maxAttempts, events[..j]) <==> !ticks[j - 1].connected);
    }
  }

  predicate WithinBudget(limit: nat, events: seq<Event>, since: nat) {
    multiset(events)[Failed] <= limit * (multiset(events)[Healthy] + multiset(events)[Succeeded]) + since
  }

  lemma ResetPays(limit: nat, before: seq<Event>, e: Event, since: nat)
    requires WithinBudget(limit, before, since) && since <= limit && Resets(e)
    ensures WithinBudget(limit, before + [e], 0)
  {
    var resets := multiset(before)[Healthy] + multiset(before)[Succeeded];
    assert multiset(before + [e])[Healthy] + multiset(before + [e])[Succeeded] == resets + 1;
    assert limit * (resets + 1) == limit * resets + limit;
  }

  lemma OneMoreFailed(limit: nat, before: seq<Event>, e: Event, since: nat)
    requires WithinBudget(limit, before, since) && !Resets(e)
    ensures WithinBudget(limit, before + [e], if e == Failed then since + 1 else since)
  {
    assert multiset(before + [e])[Healthy] + multiset(before + [e])[Succeeded] ==
           multiset(before)[Healthy] + multiset(before)[Succeeded];
  }

  lemma {:induction false} BudgetKept(maxAttempts: int, ticks: seq<Tick>)
    requires maxAttempts > 0
    ensures var events := Events(maxAttempts, ticks); WithinBudget(maxAttempts, events, FailuresSince(events))
  {
    if ticks != [] {
      var events := Events(maxAttempts, ticks);
      var before := events[..|events| - 1];
      assert before == Events(maxAttempts, ticks[..|ticks| - 1]);
      assert events == before + [events[|events| - 1]];
      BudgetKept(maxAttempts, ticks[..|ticks| - 1]);
      NeverExceeds(maxAttempts, ticks[..|ticks| - 1]);
      if Resets(events[|events| - 1]) {
        ResetPays(maxAttempts, before, events[|events| - 1], FailuresSince(before));
      } else {
        OneMoreFailed(maxAttempts, before, events[|events| - 1], FailuresSince(before));
      }
    }
  }

  /** However long the outage, the failed Reconnects of a run are paid for by its successes and healthy
      ticks: at most `maxAttempts` for each, and as many again. */
  lemma FailureBudget(maxAttempts: int, ticks: seq<Tick>)
    requires maxAttempts > 0
    ensures var events := Events(maxAttempts, ticks);
            multiset(events)[Failed] <=
            maxAttempts * (multiset(events)[Healthy] + multiset(events)[Succeeded]) + FailuresSince(events)
  {
    BudgetKept(maxAttempts, ticks);
  }
}
