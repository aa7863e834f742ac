/**
 Whole runs of the RollingUpdate policy: passes interleaved with arbitrary status writes end, and end
 settled once the new Pods become available.
 */
module RolloutRuns {
  import opened Arith
  import opened Rollout

  /** Only reported status changed. */
  ghost predicate StatusWrite(vs: seq<View>, ws: seq<View>) {
    && |ws| == |vs|
    && forall i :: 0 <= i < |vs| ==> ws[i].uid == vs[i].uid && ws[i].replicas == vs[i].replicas
  }

  /** One step of a run: a RollingUpdate pass or any status write. */
  ghost predicate Step(vs: seq<View>, ws: seq<View>, c: nat, lim: Limits) {
    c < |vs| && (ws == RollingStep(vs, c, lim) || StatusWrite(vs, ws))
  }

  ghost predicate Run(run: seq<seq<View>>, c: nat, lim: Limits) {
    && |run| > 0 && c < |run[0]| && DistinctUids(run[0])
    && (forall t :: 0 <= t < |run| ==> NonNegative(run[t]))
    && forall t :: 0 <= t < |run| - 1 ==> Step(run[t], run[t + 1], c, lim)
  }

  /** The number of steps of a run that changed some spec.replicas. */
  ghost function Changes(run: seq<seq<View>>): nat {
    if |run| < 2 then 0
    else Changes(run[..|run| - 1]) + if StatusWrite(run[|run| - 2], run[|run| - 1]) then 0 else 1
  }

  lemma {:induction false} SumSame(vs: seq<View>, ws: seq<View>, f: View -> int)
    requires |vs| == |ws|
    requires forall i :: 0 <= i < |vs| ==> f(vs[i]) == f(ws[i])
    ensures Sum(vs, f) == Sum(ws, f)
  {
    SumMonotone(vs, f, ws, f);
    SumMonotone(ws, f, vs, f);
  }

  lemma {:induction false} StatusWriteKeepsRemaining(vs: seq<View>, ws: seq<View>, c: nat, desired: int)
    requires c < |vs| && StatusWrite(vs, ws)
    ensures Remaining(ws, c, desired) == Remaining(vs, c, desired)
    ensures Total(ws) == Total(vs)
    ensures DistinctUids(vs) ==> DistinctUids(ws)
  {
    SumSame(vs, ws, Spec);
    var f := OldOnly(Spec, vs[c].uid);
    forall i | 0 <= i < |vs|
      ensures f(vs[i]) == f(ws[i])
    {
      assert Spec(vs[i]) == Spec(ws[i]);
    }
    SumSame(vs, ws, f);
  }

  /** One step of a run lowers the remaining work unless it only wrote status. */
  lemma {:induction false} StepLowersRemaining(vs: seq<View>, ws: seq<View>, c: nat, lim: Limits)
    requires c < |vs| && DistinctUids(vs) && Step(vs, ws, c, lim)
    ensures c < |ws| && DistinctUids(ws)
    ensures Remaining(ws, c, lim.desired) + (if StatusWrite(vs, ws) then 0 else 1) <= Remaining(vs, c, lim.desired)
  {
    if StatusWrite(vs, ws) {
      StatusWriteKeepsRemaining(vs, ws, c, lim.desired);
    } else {
      StepMakesProgress(vs, c, lim);
    }
  }

  /** Any run, with any status written at any time, changes spec.replicas at most as often as there was
      work remaining at its start. */
  lemma {:induction false} ChangesAreBounded(run: seq<seq<View>>, c: nat, lim: Limits)
    requires Run(run, c, lim)
    ensures c < |run[|run| - 1]| && DistinctUids(run[|run| - 1])
    ensures Changes(run) + Remaining(run[|run| - 1], c, lim.desired) <= Remaining(run[0], c, lim.desired)
    ensures Changes(run) <= Remaining(run[0], c, lim.desired)
  {
    var n := |run| - 1;
    if n > 0 {
      ChangesAreBounded(run[..n], c, lim);
      assert Step(run[n - 1], run[n - 1 + 1], c, lim);
      StepLowersRemaining(run[n - 1], run[n], c, lim);
    }
    RemainingNonNegative(run[n], c, lim.desired);
  }

  /** Any number of fast passes without a status refresh spend each reported available replica at most
      once, and never sum to more than the surge allows. */
  lemma {:induction false} FastPassesKeepBudgets(vs: seq<View>, c: nat, lim: Limits, passes: nat)
    requires c < |vs| && DistinctUids(vs) && NonNegative(vs) && ValidLimits(lim)
    ensures var ws := Passes(vs, c, lim, passes);
            && Total(ws) <= Max(Total(vs), lim.desired + lim.maxSurge)
            && TotalAvailable(ws) >= Min(TotalAvailable(vs), MinAvailable(lim))
    decreases passes
  {
    if passes > 0 {
      StepShape(vs, c, lim);
      StepKeepsBudgets(vs, c, lim);
      FastPassesKeepBudgets(RollingStep(vs, c, lim), c, lim, passes - 1);
    }
  }

  function Passes(vs: seq<View>, c: nat, lim: Limits, passes: nat): seq<View>
    requires c < |vs|
    decreases passes
  {
    if passes == 0 then vs else Passes(RollingStep(vs, c, lim), c, lim, passes - 1)
  }

  /** A round refreshes the status and then runs one pass. */
  function Refresh(vs: seq<View>, available: seq<int>): (ws: seq<View>)
    requires |available| == |vs|
    ensures |ws| == |vs|
  {
    seq(|vs|, i requires 0 <= i < |vs| => vs[i].(available := available[i]))
  }

  /** The environment is fair to the current ReplicaSet: by each refresh its Pods have become available.
      Nothing is asked of the old ones. */
  ghost predicate FairRounds(vs: seq<View>, c: nat, lim: Limits, rounds: seq<seq<int>>)
    requires c < |vs|
    decreases |rounds|
  {
    rounds == [] ||
    (&& |rounds[0]| == |vs|
     && (forall i :: 0 <= i < |vs| ==> rounds[0][i] >= 0)
     && rounds[0][c] >= vs[c].replicas
     && FairRounds(RollingStep(Refresh(vs, rounds[0]), c, lim), c, lim, rounds[1..]))
  }

  ghost function AfterRounds(vs: seq<View>, c: nat, lim: Limits, rounds: seq<seq<int>>): (ws: seq<View>)
    requires c < |vs| && FairRounds(vs, c, lim, rounds)
    ensures |ws| == |vs|
    decreases |rounds|
  {
    if rounds == [] then vs
    else AfterRounds(RollingStep(Refresh(vs, rounds[0]), c, lim), c, lim, rounds[1..])
  }

  /** RollingUpdate converges: after as many fair rounds as there was work remaining, and after any more,
      the current ReplicaSet asks for exactly desired and every old one for zero. */
  lemma {:induction false} FairRoundsConverge(vs: seq<View>, c: nat, lim: Limits, rounds: seq<seq<int>>)
    requires c < |vs| && DistinctUids(vs) && NonNegative(vs) && ValidLimits(lim)
    requires FairRounds(vs, c, lim, rounds)
    requires |rounds| >= Remaining(vs, c, lim.desired)
    ensures Settled(AfterRounds(vs, c, lim, rounds), c, lim)
    decreases |rounds|
  {
    SettledMeansNothingRemains(vs, c, lim);
    RemainingNonNegative(vs, c, lim.desired);
    if rounds != [] {
      var seen := Refresh(vs, rounds[0]);
      StatusWriteKeepsRemaining(vs, seen, c, lim.desired);
      SettledMeansNothingRemains(seen, c, lim);
      NoDeadlock(seen, c, lim);
      StepShape(seen, c, lim);
      if RollingDecision(seen, c, lim) != Keep {
        StepMakesProgress(seen, c, lim);
      }
      FairRoundsConverge(RollingStep(seen, c, lim), c, lim, rounds[1..]);
    }
  }
}
