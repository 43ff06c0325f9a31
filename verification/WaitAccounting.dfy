/**
 Reconstructing per-interval waiting from counters that are lifetime totals of a pool and start again
 from zero whenever the pool is replaced.
 */
module WaitAccounting {
  import opened Wrappers

  /** A pair of wait counters: how many waits, how long (nanoseconds). */
  datatype Waiting = Waiting(count: int, duration: int) {
    function Plus(o: Waiting): Waiting {
      Waiting(count + o.count, duration + o.duration)
    }

    predicate AtMost(o: Waiting) {
      count <= o.count && duration <= o.duration
    }
  }

  const ZERO := Waiting(0, 0)

  /** One of the totals is smaller than at the previous sample. */
  predicate Drops(last: Waiting, now: Waiting) {
    now.count < last.count || now.duration < last.duration
  }

  /** What PoolMonitor takes for the waiting of the interval. */
  function Delta(last: Waiting, now: Waiting): Waiting {
    if Drops(last, now) then now else Waiting(now.count - last.count, now.duration - last.duration)
  }

  /** What LeakDetector takes for it: it looks at the duration only. */
  function LeakDelta(last: int, now: int): int {
    if now - last < 0 then now else now - last
  }

  // ---------------------------------------------------------------- samples

  /** A sample of the pool that was current: its generation and its totals so far. */
  datatype Sample = Sample(generation: nat, totals: Waiting)

  /** What GetStats returns; the usage checks look at the first three. */
  datatype PoolStats = PoolStats(maxOpen: int, open: int, inUse: int, sample: Sample)

  /** A later sample: of a later pool, or of the same one with totals that have not shrunk. */
  predicate Follows(a: Sample, b: Sample) {
    a.generation <= b.generation && (a.generation == b.generation ==> a.totals.AtMost(b.totals))
  }

  /** The last sample that was not nil. */
  function Last(samples: seq<Option<Sample>>): Option<Sample> {
    if samples == [] then None
    else if samples[|samples| - 1].Some? then samples[|samples| - 1]
    else Last(samples[..|samples| - 1])
  }

  /** The baseline the monitor keeps: the totals of the last sample. */
  function Baseline(samples: seq<Option<Sample>>): Waiting {
    match Last(samples)
    case None => ZERO
    case Some(s) => s.totals
  }

  /** Samples as pools produce them; None when GetStats had nothing to report. */
  predicate Plausible(samples: seq<Option<Sample>>) {
    samples == [] ||
    var before, s := samples[..|samples| - 1], samples[|samples| - 1];
    && Plausible(before)
    && (s.Some? ==> ZERO.AtMost(s.value.totals) && (Last(before).Some? ==> Follows(Last(before).value, s.value)))
  }

  /** The sum of everything reported. */
  function Reported(samples: seq<Option<Sample>>): Waiting {
    if samples == [] then ZERO
    else
      var before, s := samples[..|samples| - 1], samples[|samples| - 1];
      if s.None? then Reported(before) else Reported(before).Plus(Delta(Baseline(before), s.value.totals))
  }

  /** A sample of a new pool. */
  predicate Replaced(before: seq<Option<Sample>>, s: Sample) {
    Last(before).Some? && Last(before).value.generation != s.generation
  }

  /** The growth from sample to sample, with every replacement known. */
  function Grown(samples: seq<Option<Sample>>): Waiting {
    if samples == [] then ZERO
    else
      var before, s := samples[..|samples| - 1], samples[|samples| - 1];
      if s.None? then Grown(before)
      else if Replaced(before, s.value) then Grown(before).Plus(s.value.totals)
      else
        var grown := Waiting(s.value.totals.count - Baseline(before).count,
            s.value.totals.duration - Baseline(before).duration);
        Grown(before).Plus(grown)
  }

  /** The waiting lost: the last totals of every pool whose replacement had reached both of them
      before it was sampled. */
  function Missed(samples: seq<Option<Sample>>): Waiting {
    if samples == [] then ZERO
    else
      var before, s := samples[..|samples| - 1], samples[|samples| - 1];
      if s.Some? && Replaced(before, s.value) && !Drops(Baseline(before), s.value.totals)
      then Missed(before).Plus(Baseline(before))
      else Missed(before)
  }

  // ---------------------------------------------------------------- generation by generation

  /** The last sampled totals of a pool. */
  function LastOf(samples: seq<Option<Sample>>, generation: nat): Waiting {
    if samples == [] then ZERO
    else
      var s := samples[|samples| - 1];
      if s.Some? && s.value.generation == generation then s.value.totals
          else LastOf(samples[..|samples| - 1], generation)
  }

  /** The last sampled totals of the first `n` pools, added up. */
  function SumOfLasts(samples: seq<Option<Sample>>, n: nat): Waiting {
    if n == 0 then ZERO else SumOfLasts(samples, n - 1).Plus(LastOf(samples, n - 1))
  }

  function Sum(ws: seq<Waiting>): Waiting {
    if ws == [] then ZERO else Sum(ws[..|ws| - 1]).Plus(ws[|ws| - 1])
  }

  /** All samples are of the first `n` pools. */
  predicate Among(samples: seq<Option<Sample>>, n: nat) {
    Last(samples).Some? ==> Last(samples).value.generation < n
  }

  /** Only the pool of the last sample counts differently than before it. */
  lemma {:induction false} SumChanges(samples: seq<Option<Sample>>, n: nat)
    requires samples != [] && samples[|samples| - 1].Some?
    ensures var before, g := samples[..|samples| - 1], samples[|samples| - 1].value.generation;
            if n <= g then SumOfLasts(samples, n) == SumOfLasts(before, n)
            else SumOfLasts(samples, n).Plus(LastOf(before, g)) == SumOfLasts(before, n).Plus(LastOf(samples, g))
  {
    if n > 0 {
      SumChanges(samples, n - 1);
    }
  }

  lemma {:induction false} SumStays(samples: seq<Option<Sample>>, n: nat)
    requires samples != [] && samples[|samples| - 1].None?
    ensures SumOfLasts(samples, n) == SumOfLasts(samples[..|samples| - 1], n)
  {
    if n > 0 {
      SumStays(samples, n - 1);
    }
  }

  lemma {:induction false} SumAtMost(samples: seq<Option<Sample>>, totals: seq<Waiting>)
    requires forall g :: 0 <= g < |totals| ==> LastOf(samples, g).AtMost(totals[g])
    ensures SumOfLasts(samples, |totals|).AtMost(Sum(totals))
  {
    if totals != [] {
      SumAtMost(samples, totals[..|totals| - 1]);
    }
  }

  lemma {:induction false} NotSampledYet(samples: seq<Option<Sample>>, g: nat)
    requires Plausible(samples) && Among(samples, g)
    ensures LastOf(samples, g) == ZERO
  {
    if samples != [] {
      var before, s := samples[..|samples| - 1], samples[|samples| - 1];
      if s.Some? && Last(before).Some? {
        assert Follows(Last(before).value, s.value);
      }
      NotSampledYet(before, g);
    }
  }

  lemma {:induction false} LastOfCurrent(samples: seq<Option<Sample>>)
    requires Last(samples).Some?
    ensures LastOf(samples, Last(samples).value.generation) == Last(samples).value.totals
  {
    if samples[|samples| - 1].None? {
      LastOfCurrent(samples[..|samples| - 1]);
    }
  }

  lemma {:induction false} NothingSampled(n: nat)
    ensures SumOfLasts([], n) == ZERO
  {
    if n > 0 {
      NothingSampled(n - 1);
    }
  }

  /** The growth is the last sampled totals of every pool, added up. */
  lemma {:induction false} GrownIsSumOfLasts(samples: seq<Option<Sample>>, n: nat)
    requires Plausible(samples) && Among(samples, n)
    ensures Grown(samples) == SumOfLasts(samples, n)
  {
    if samples == [] {
      NothingSampled(n);
    } else {
      var before, s := samples[..|samples| - 1], samples[|samples| - 1];
      if s.None? {
        GrownIsSumOfLasts(before, n);
        SumStays(samples, n);
      } else {
        if Last(before).Some? {
          assert Follows(Last(before).value, s.value);
        }
        GrownIsSumOfLasts(before, n);
        SumChanges(samples, n);
        if Last(before).Some? && Last(before).value.generation == s.value.generation {
          LastOfCurrent(before);
        } else {
          NotSampledYet(before, s.value.generation);
        }
      }
    }
  }

  lemma {:induction false} BaselineNotNegative(samples: seq<Option<Sample>>)
    requires Plausible(samples)
    ensures ZERO.AtMost(Baseline(samples))
  {
    if samples != [] && samples[|samples| - 1].None? {
      BaselineNotNegative(samples[..|samples| - 1]);
    }
  }

  lemma DeltaNotNegative(last: Waiting, now: Waiting)
    requires ZERO.AtMost(now)
    ensures ZERO.AtMost(Delta(last, now))
    ensures ZERO.AtMost(last) ==> Delta(last, now).AtMost(now)
  {
  }

  lemma {:induction false} ReportedPlusMissedIsGrown(samples: seq<Option<Sample>>)
    requires Plausible(samples)
    ensures Reported(samples).Plus(Missed(samples)) == Grown(samples)
  {
    if samples != [] {
      ReportedPlusMissedIsGrown(samples[..|samples| - 1]);
    }
  }

  /** Reports and losses together are exactly the last sampled totals of every pool, added up. */
  lemma ReportedPlusMissed(samples: seq<Option<Sample>>, n: nat)
    requires Plausible(samples) && Among(samples, n)
    ensures Reported(samples).Plus(Missed(samples)) == SumOfLasts(samples, n)
  {
    ReportedPlusMissedIsGrown(samples);
    GrownIsSumOfLasts(samples, n);
  }

  /** No report is negative: what is reported only grows, from sample to sample. */
  lemma {:induction false} ReportsOnlyGrow(samples: seq<Option<Sample>>, n: nat)
    requires Plausible(samples) && n <= |samples|
    ensures ZERO.AtMost(Reported(samples[..n])) && Reported(samples[..n]).AtMost(Reported(samples))
  {
    if n == |samples| {
      assert samples[..n] == samples;
      if n > 0 {
        ReportsOnlyGrow(samples[..n - 1], n - 1);
        DeltaIsReported(samples);
      }
    } else {
      assert samples[..|samples| - 1][..n] == samples[..n];
      ReportsOnlyGrow(samples[..|samples| - 1], n);
      DeltaIsReported(samples);
    }
  }

  lemma DeltaIsReported(samples: seq<Option<Sample>>)
    requires Plausible(samples) && samples != []
    ensures Reported(samples[..|samples| - 1]).AtMost(Reported(samples))
  {
    var s := samples[|samples| - 1];
    if s.Some? {
      DeltaNotNegative(Baseline(samples[..|samples| - 1]), s.value.totals);
    }
  }

  lemma {:induction false} MissedNotNegative(samples: seq<Option<Sample>>)
    requires Plausible(samples)
    ensures ZERO.AtMost(Missed(samples))
  {
    if samples != [] {
      MissedNotNegative(samples[..|samples| - 1]);
      BaselineNotNegative(samples[..|samples| - 1]);
    }
  }

  /** Never more is reported than was waited: not more than the totals every pool had in the end, added
      up, and those are at least the totals last sampled of it. */
  lemma NeverTooMuch(samples: seq<Option<Sample>>, totals: seq<Waiting>)
    requires Plausible(samples) && Among(samples, |totals|)
    requires forall g :: 0 <= g < |totals| ==> LastOf(samples, g).AtMost(totals[g])
    ensures Reported(samples).AtMost(Sum(totals))
  {
    ReportedPlusMissed(samples, |totals|);
    MissedNotNegative(samples);
    SumAtMost(samples, totals);
  }

  /** Every replacement shows: some counter is smaller than before, or there was nothing to lose. */
  predicate ReplacementsShow(samples: seq<Option<Sample>>) {
    samples == [] ||
    var before, s := samples[..|samples| - 1], samples[|samples| - 1];
    && ReplacementsShow(before)
    && (s.Some? && Replaced(before, s.value) ==> Drops(Baseline(before), s.value.totals) || Baseline(before) == ZERO)
  }

  lemma PlusIsZero(a: Waiting, b: Waiting)
    requires ZERO.AtMost(a) && ZERO.AtMost(b)
    ensures a.Plus(b) == ZERO <==> a == ZERO && b == ZERO
  {
  }

  lemma {:induction false} MissedNothing(samples: seq<Option<Sample>>)
    requires Plausible(samples)
    ensures Missed(samples) == ZERO <==> ReplacementsShow(samples)
  {
    if samples != [] {
      var before := samples[..|samples| - 1];
      MissedNothing(before);
      MissedNotNegative(before);
      BaselineNotNegative(before);
      PlusIsZero(Missed(before), Baseline(before));
    }
  }

  /** The reports add up to the last sampled totals of every pool exactly when every replacement shows. */
  lemma ExactWhenReplacementsShow(samples: seq<Option<Sample>>, n: nat)
    requires Plausible(samples) && Among(samples, n)
    ensures Reported(samples) == SumOfLasts(samples, n) <==> ReplacementsShow(samples)
  {
    ReportedPlusMissed(samples, n);
    MissedNothing(samples);
    PlusIsLeft(Reported(samples), Missed(samples));
  }

  lemma PlusIsLeft(a: Waiting, b: Waiting)
    ensures a == a.Plus(b) <==> b == ZERO
  {
  }

  /** No sample is of a new pool. */
  predicate NeverReplaced(samples: seq<Option<Sample>>) {
    samples == [] ||
    var before, s := samples[..|samples| - 1], samples[|samples| - 1];
    NeverReplaced(before) && (s.Some? ==> !Replaced(before, s.value))
  }

  /** Without replacement the reports telescope to the last total. */
  lemma {:induction false} Telescopes(samples: seq<Option<Sample>>)
    requires Plausible(samples)
    requires NeverReplaced(samples)
    ensures Reported(samples) == Baseline(samples)
  {
    if samples != [] {
      Telescopes(samples[..|samples| - 1]);
    }
  }

  /** Nil samples change nothing. */
  lemma {:induction false} NilSamplesChangeNothing(samples: seq<Option<Sample>>, nils: nat)
    ensures var more := samples + seq(nils, _ => None);
            Reported(more) == Reported(samples) && Baseline(more) == Baseline(samples)
  {
    var more := samples + seq(nils, _ => None);
    if nils == 0 {
      assert more == samples;
    } else {
      NilSamplesChangeNothing(samples, nils - 1);
      assert more[..|more| - 1] == samples + seq(nils - 1, _ => None);
    }
  }

  // ---------------------------------------------------------------- the two monitors compared

  /** The duration baseline LeakDetector keeps after the same samples. */
  function LeakBaseline(samples: seq<Option<Sample>>): int {
    if samples == [] then 0
    else
      var s := samples[|samples| - 1];
      if s.Some? then s.value.totals.duration else LeakBaseline(samples[..|samples| - 1])
  }

  lemma {:induction false} SameBaseline(samples: seq<Option<Sample>>)
    ensures LeakBaseline(samples) == Baseline(samples).duration
  {
    if samples != [] && samples[|samples| - 1].None? {
      SameBaseline(samples[..|samples| - 1]);
    }
  }

  /** After the same samples LeakDetector reports at most what PoolMonitor does, and less exactly when
      a replacement is visible in the wait count alone. */
  lemma LeakDetectorReportsNoMore(samples: seq<Option<Sample>>, now: Waiting)
    requires Plausible(samples) && ZERO.AtMost(now)
    ensures var last := Baseline(samples); var leak := LeakDelta(LeakBaseline(samples), now.duration);
            && 0 <= leak <= Delta(last, now).duration
            && (leak < Delta(last, now).duration <==>
                now.count < last.count && now.duration >= last.duration && last.duration > 0)
  {
    SameBaseline(samples);
    BaselineNotNegative(samples);
  }
}
