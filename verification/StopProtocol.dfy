/**
 The Start/Stop protocol shared by HealthChecker, PoolMonitor, AutoReconnector and LeakDetector, as a
 step machine: one Start, one worker goroutine, any number of Stop calls, concurrent or repeated.
 */
module StopProtocol {
  import opened Wrappers

  /** One call of Stop. */
  type CallId = nat

  datatype WorkerAt = Unstarted | Selecting | Ticking | Gone

  /** sync.Once. */
  datatype OnceState = Unused | Running(call: CallId) | Done

  /** Where a call of Stop is. `sawWorker`: Start had been called when wg.Wait let it through. */
  datatype StopAt = CheckStopped | EnterOnce | CloseChan | SetStopped | LeaveOnce | Await | Returned(sawWorker: bool)

  datatype State = State(
    stopped: bool,
    closes: nat,                    // calls of close(stopChan); a second one panics
    once: OnceState,
    cancelled: bool,                // the context given to Start
    worker: WorkerAt,
    calls: map<CallId, StopAt>)

  const INIT := State(false, 0, Unused, false, Unstarted, map[])

  datatype Action = Begin | Tick | TickEnds | Panics | Quit | Cancel | Call(c: CallId) | Continue(c: CallId)

  function NextStop(s: State, c: CallId, at: StopAt): Option<State> {
    match at
    case CheckStopped => Some(s.(calls := s.calls[c := if s.stopped then Await else EnterOnce]))
    case EnterOnce =>
      if s.once.Unused? then Some(s.(once := Running(c), calls := s.calls[c := CloseChan]))
      else if s.once.Done? then Some(s.(calls := s.calls[c := Await]))
      else None
    case CloseChan => Some(s.(closes := s.closes + 1, calls := s.calls[c := SetStopped]))
    case SetStopped => Some(s.(stopped := true, calls := s.calls[c := LeaveOnce]))
    case LeaveOnce => Some(s.(once := Done, calls := s.calls[c := Await]))
    case Await =>
      if s.worker.Unstarted? || s.worker.Gone? then Some(s.(calls := s.calls[c := Returned(s.worker.Gone?)])) else None
    case Returned(_) => None
  }

  function Next(s: State, a: Action): Option<State> {
    match a
    case Begin => if s.worker.Unstarted? then Some(s.(worker := Selecting)) else None
    // with several cases ready, select picks any of them
    case Tick => if s.worker.Selecting? then Some(s.(worker := Ticking)) else None
    case TickEnds => if s.worker.Ticking? then Some(s.(worker := Selecting)) else None
    case Panics => if s.worker.Ticking? then Some(s.(worker := Gone)) else None
    case Quit => if s.worker.Selecting? && (s.closes > 0 || s.cancelled) then Some(s.(worker := Gone)) else None
    case Cancel => Some(s.(cancelled := true))
    case Call(c) => if c in s.calls then None else Some(s.(calls := s.calls[c := CheckStopped]))
    case Continue(c) => if c in s.calls then NextStop(s, c, s.calls[c]) else None
  }

  ghost predicate IsRun(states: seq<State>, actions: seq<Action>) {
    && |states| == |actions| + 1
    && states[0] == INIT
    && forall i {:trigger Next(states[i], actions[i])} ::
         0 <= i < |actions| ==> Next(states[i], actions[i]) == Some(states[i + 1])
  }

  // ---------------------------------------------------------------- the invariant

  predicate InOnce(at: StopAt) {
    at.CloseChan? || at.SetStopped? || at.LeaveOnce?
  }

  ghost predicate CallOk(s: State, c: CallId, at: StopAt) {
    && (InOnce(at) <==> s.once == Running(c))
    && (at.Await? || at.Returned? ==> s.stopped)
    && (at.Returned? && at.sawWorker ==> s.worker.Gone?)
  }

  /** How far the function given to Once has got. */
  ghost predicate OnceOk(s: State) {
    && s.closes <= 1
    && match s.once
       case Unused => s.closes == 0 && !s.stopped
       case Running(c) =>
         && c in s.calls
         && (s.calls[c].CloseChan? <==> s.closes == 0)
         && (s.calls[c].LeaveOnce? <==> s.stopped)
       case Done => s.closes == 1 && s.stopped
  }

  ghost predicate Inv(s: State) {
    OnceOk(s) && forall c :: c in s.calls ==> CallOk(s, c, s.calls[c])
  }

  lemma StepInv(s: State, a: Action)
    requires Inv(s) && Next(s, a).Some?
    ensures Inv(Next(s, a).value)
  {
    var s' := Next(s, a).value;
    forall c | c in s'.calls ensures CallOk(s', c, s'.calls[c]) {
      if c in s.calls {
        assert CallOk(s, c, s.calls[c]);
      }
    }
    if a.Continue? {
      assert CallOk(s, a.c, s.calls[a.c]);
    }
  }

  lemma {:induction false} RunInv(states: seq<State>, actions: seq<Action>, i: nat)
    requires IsRun(states, actions) && i < |states|
    ensures Inv(states[i])
  {
    if i > 0 {
      RunInv(states, actions, i - 1);
      assert Next(states[i - 1], actions[i - 1]) == Some(states[i - 1 + 1]);
      StepInv(states[i - 1], actions[i - 1]);
    }
  }

  // ---------------------------------------------------------------- what Stop promises

  predicate HasReturned(s: State, c: CallId) {
    c in s.calls && s.calls[c].Returned?
  }

  /** However many Stops there are, the channel is closed at most once, and has been when one returns. */
  lemma ClosedOnce(states: seq<State>, actions: seq<Action>, i: nat, c: CallId)
    requires IsRun(states, actions) && i < |states|
    ensures states[i].closes <= 1
    ensures HasReturned(states[i], c) ==> states[i].closes == 1
  {
    RunInv(states, actions, i);
    if HasReturned(states[i], c) {
      assert CallOk(states[i], c, states[i].calls[c]);
    }
  }

  lemma {:induction false} ReturnedStays(states: seq<State>, actions: seq<Action>, i: nat, j: nat, c: CallId)
    requires IsRun(states, actions) && i <= j < |states| && HasReturned(states[i], c)
    ensures HasReturned(states[j], c) && states[j].calls[c] == states[i].calls[c]
  {
    if i < j {
      ReturnedStays(states, actions, i, j - 1, c);
      assert Next(states[j - 1], actions[j - 1]) == Some(states[j - 1 + 1]);
    }
  }

  lemma {:induction false} StartedStays(states: seq<State>, actions: seq<Action>, i: nat, j: nat)
    requires IsRun(states, actions) && i <= j < |states| && !states[i].worker.Unstarted?
    ensures !states[j].worker.Unstarted?
  {
    if i < j {
      StartedStays(states, actions, i, j - 1);
      assert Next(states[j - 1], actions[j - 1]) == Some(states[j - 1 + 1]);
    }
  }

  /** A call that returned without seeing a worker returned before Start. */
  lemma {:induction false} UnseenReturn(states: seq<State>, actions: seq<Action>, i: nat, c: CallId) returns (k: nat)
    requires IsRun(states, actions) && i < |states| && HasReturned(states[i], c) && !states[i].calls[c].sawWorker
    ensures k <= i && HasReturned(states[k], c) && states[k].worker.Unstarted?
  {
    assert i > 0;
    assert Next(states[i - 1], actions[i - 1]) == Some(states[i - 1 + 1]);
    if HasReturned(states[i - 1], c) {
      k := UnseenReturn(states, actions, i - 1, c);
    } else {
      k := i;
    }
  }

  /** A Stop that had not returned when Start was called returns only after the worker has exited for
      good: nothing ticks any more, then or later. */
  lemma NoTickAfterStop(states: seq<State>, actions: seq<Action>, b: nat, i: nat, j: nat, c: CallId)
    requires IsRun(states, actions) && b <= i <= j < |states|
    requires !states[b].worker.Unstarted? && !HasReturned(states[b], c) && HasReturned(states[i], c)
    ensures states[j].worker.Gone?
  {
    RunInv(states, actions, j);
    ReturnedStays(states, actions, i, j, c);
    if !states[i].calls[c].sawWorker {
      var k := UnseenReturn(states, actions, i, c);
      if k <= b {
        ReturnedStays(states, actions, k, b, c);
      } else {
        StartedStays(states, actions, b, k);
      }
      assert false;
    }
    assert CallOk(states[j], c, states[j].calls[c]);
  }

  /** A Stop that overtakes Start promises nothing: the worker ticks after it has returned. */
  lemma StopBeforeStart() returns (states: seq<State>, actions: seq<Action>)
    ensures IsRun(states, actions) && |states| > 0
    ensures HasReturned(states[|states| - 1], 0) && states[|states| - 1].worker.Ticking?
  {
    actions := [Call(0), Continue(0), Continue(0), Continue(0), Continue(0), Continue(0), Continue(0), Begin, Tick];
    var s0 := INIT;
    var s1 := s0.(calls := map[0 := CheckStopped]);
    var s2 := s1.(calls := s1.calls[0 := EnterOnce]);
    var s3 := s2.(once := Running(0), calls := s2.calls[0 := CloseChan]);
    var s4 := s3.(closes := 1, calls := s3.calls[0 := SetStopped]);
    var s5 := s4.(stopped := true, calls := s4.calls[0 := LeaveOnce]);
    var s6 := s5.(once := Done, calls := s5.calls[0 := Await]);
    var s7 := s6.(calls := s6.calls[0 := Returned(false)]);
    var s8 := s7.(worker := Selecting);
    var s9 := s8.(worker := Ticking);
    states := [s0, s1, s2, s3, s4, s5, s6, s7, s8, s9];
    assert Next(s0, actions[0]) == Some(s1) && Next(s1, actions[1]) == Some(s2) && Next(s2, actions[2]) == Some(s3);
    assert Next(s3, actions[3]) == Some(s4) && Next(s4, actions[4]) == Some(s5) && Next(s5, actions[5]) == Some(s6);
    assert Next(s6, actions[6]) == Some(s7) && Next(s7, actions[7]) == Some(s8) && Next(s8, actions[8]) == Some(s9);
  }

  /** However the run goes on, no tick is under way any more. */
  ghost predicate AlwaysQuiet(states: seq<State>, actions: seq<Action>) {
    forall states': seq<State>, actions': seq<Action>, j: nat ::
      (IsRun(states', actions') && states <= states' && actions <= actions' && |actions| <= j < |states'|) ==>
        !states'[j].worker.Ticking?
  }

  lemma StartsNow(states: seq<State>, actions: seq<Action>) returns (states': seq<State>, actions': seq<Action>)
    requires IsRun(states, actions) && states[|actions|].worker.Unstarted?
    ensures IsRun(states', actions') && states <= states' && actions <= actions'
    ensures |actions| < |actions'| && states'[|actions'|].worker.Ticking?
  {
    var s := states[|actions|];
    actions' := actions + [Begin, Tick];
    states' := states + [s.(worker := Selecting), s.(worker := Ticking)];
    forall i | 0 <= i < |actions'| ensures Next(states'[i], actions'[i]) == Some(states'[i + 1]) {
      if i < |actions| {
        assert Next(states[i], actions[i]) == Some(states[i + 1]);
      }
    }
  }

  lemma ReturnKeepsWorker(states: seq<State>, actions: seq<Action>, i: nat, c: CallId)
    requires IsRun(states, actions) && i < |actions| && !HasReturned(states[i], c) && HasReturned(states[i + 1], c)
    ensures states[i].worker == states[i + 1].worker
  {
    assert Next(states[i], actions[i]) == Some(states[i + 1]);
  }

  /** When a Stop returns, the component is quiet for good if and only if Start has been called. */
  lemma QuietExactly(states: seq<State>, actions: seq<Action>, c: CallId)
    requires IsRun(states, actions) && actions != []
    requires !HasReturned(states[|actions| - 1], c) && HasReturned(states[|actions|], c)
    ensures AlwaysQuiet(states, actions) <==> !states[|actions|].worker.Unstarted?
  {
    var n := |actions|;
    ReturnKeepsWorker(states, actions, n - 1, c);
    if states[n].worker.Unstarted? {
      var states', actions' := StartsNow(states, actions);
      assert |actions| <= |actions'| < |states'|;
    } else {
      forall states': seq<State>, actions': seq<Action>, j: nat |
          IsRun(states', actions') && states <= states' && actions <= actions' && |actions| <= j < |states'|
        ensures !states'[j].worker.Ticking? {
        NoTickAfterStop(states', actions', n - 1, n, j, c);
      }
    }
  }

  /** The worker exits only because a Stop has closed the channel, its context was cancelled, or a tick
      panicked. */
  lemma {:induction false} ExitsForAReason(states: seq<State>, actions: seq<Action>, i: nat)
    requires IsRun(states, actions) && i < |states| && states[i].worker.Gone?
    ensures states[i].closes > 0 || states[i].cancelled || exists k :: 0 <= k < i && actions[k] == Panics
  {
    assert i > 0;
    assert Next(states[i - 1], actions[i - 1]) == Some(states[i - 1 + 1]);
    if states[i - 1].worker.Gone? {
      ExitsForAReason(states, actions, i - 1);
    }
  }

  // ---------------------------------------------------------------- Stop returns

  /** Steps the calls and the worker still have to make before `c` returns, if no further tick begins. */
  function Remaining(s: State, c: CallId): nat
    requires c in s.calls
  {
    Own(s.calls[c]) + (if s.once.Running? && s.once.call in s.calls && s.once.call != c then Own(s.calls[s.once.call])
        else 0) +
    (match s.worker case Ticking => 2 case Selecting => 1 case _ => 0)
  }

  function Own(at: StopAt): nat {
    match at
    case CheckStopped => 6
    case EnterOnce => 5
    case CloseChan => 4
    case SetStopped => 3
    case LeaveOnce => 2
    case Await => 1
    case Returned(_) => 0
  }

  /** The step that brings call `c` nearer to its return. */
  function Helping(s: State, c: CallId): Action
    requires c in s.calls
  {
    match s.calls[c]
    case EnterOnce => Continue(if s.once.Running? then s.once.call else c)
    case Await => if s.worker.Ticking? then TickEnds else if s.worker.Selecting? then Quit else Continue(c)
    case _ => Continue(c)
  }

  /** No call of Stop is ever stuck: there is always a step that brings it nearer to its return. */
  lemma StopReturns(states: seq<State>, actions: seq<Action>, i: nat, c: CallId)
    requires IsRun(states, actions) && i < |states| && c in states[i].calls && !HasReturned(states[i], c)
    ensures var s := states[i]; var n := Next(s, Helping(s, c));
            n.Some? && c in n.value.calls && Remaining(n.value, c) < Remaining(s, c)
  {
    RunInv(states, actions, i);
    var s := states[i];
    assert CallOk(s, c, s.calls[c]);
    if s.once.Running? {
      assert CallOk(s, s.once.call, s.calls[s.once.call]);
    }
  }
}
