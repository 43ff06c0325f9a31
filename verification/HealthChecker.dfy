/**
 HealthChecker: the verdict, the count of consecutive failures, and one log line per change.
 */
module HealthChecker {

  datatype Line = CheckFailed | CheckRecovered

  /** Checks that failed since the last one that passed. */
  function Consecutive(checks: seq<bool>): nat {
    if checks == [] || checks[|checks| - 1] then 0 else Consecutive(checks[..|checks| - 1]) + 1
  }

  /** The verdict after the checks so far; healthy before the first. */
  predicate Healthy(checks: seq<bool>) {
    checks == [] || checks[|checks| - 1]
  }

  /** A line for every check whose verdict differs from the one before. */
  function Lines(checks: seq<bool>): seq<Line> {
    if checks == [] then []
    else
      var before := checks[..|checks| - 1];
      if Healthy(before) == Healthy(checks) then Lines(before)
      else Lines(before) + [if Healthy(checks) then CheckRecovered else CheckFailed]
  }

  class Checker {
    var lastCheck: int
    var isHealthy: bool
    var failureCount: int
    var logged: seq<Line>
    ghost var checks: seq<bool>

    ghost predicate Valid()
      reads this
    {
      isHealthy == Healthy(checks) && failureCount == Consecutive(checks) && logged == Lines(checks)
    }

    constructor ()
      ensures Valid() && checks == []
    {
      lastCheck, isHealthy, failureCount, logged, checks := 0, true, 0, [], [];
    }

    /** `passed` is the outcome of ReportHealth. */
    method PerformHealthCheck(passed: bool, now: int)
      requires Valid()
      modifies this
      ensures Valid() && checks == old(checks) + [passed] && lastCheck == now
      ensures isHealthy == passed && failureCount == (if passed then 0 else old(failureCount) + 1)
      ensures logged == old(logged) + (if passed == old(isHealthy) then []
                                       else if passed then [CheckRecovered] else [CheckFailed])
    {
      checks := checks + [passed];
      assert checks[..|checks| - 1] == old(checks);
      lastCheck := now;
      if !passed {
        failureCount := failureCount + 1;
        if isHealthy {
          logged := logged + [CheckFailed];
        }
        isHealthy := false;
        return;
      }
      failureCount := 0;
      if !isHealthy {
        logged := logged + [CheckRecovered];
      }
      isHealthy := true;
    }
  }

  /** What is counted: the checks that failed since the last one that passed, all of them. */
  lemma {:induction false} ConsecutiveAtEnd(checks: seq<bool>)
    ensures var n := Consecutive(checks);
            && n <= |checks| && (forall k :: |checks| - n <= k < |checks| ==> !checks[k])
            && (n < |checks| ==> checks[|checks| - n - 1])
  {
    if checks != [] && !checks[|checks| - 1] {
      ConsecutiveAtEnd(checks[..|checks| - 1]);
    }
  }

  /** The log alternates, starting with a failure; its last line is the present verdict, and that is
      healthy exactly when no failures are counted. */
  lemma {:induction false} LinesAlternate(checks: seq<bool>)
    ensures forall i :: 0 <= i < |Lines(checks)| ==>
        Lines(checks)[i] == if i % 2 == 0 then CheckFailed else CheckRecovered
    ensures Healthy(checks) <==> |Lines(checks)| % 2 == 0
    ensures Healthy(checks) <==> Consecutive(checks) == 0
  {
    if checks != [] {
      LinesAlternate(checks[..|checks| - 1]);
    }
  }
}
