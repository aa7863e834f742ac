/**
 The RollingUpdate policy of the Deployment controller: how one pass picks at most one
 ReplicaSet to scale, and what that choice keeps whatever the reported status says.
 */
module Rollout {
  import opened Arith

  /** What the Deployment controller reads of one ReplicaSet. */
  datatype View = View(uid: nat, replicas: int, available: int, observed: int, terminating: int)

  /** The desired count and the two resolved fenceposts (maxUnavailable already capped at desired). */
  datatype Limits = Limits(desired: int, maxSurge: int, maxUnavailable: int)

  /** The outcome of one pass: leave every ReplicaSet alone, or scale exactly one. */
  datatype Decision = Keep | Scale(index: nat, replicas: int)

  /* ----- Views and their totals ----- */

  function Spec(v: View): int { v.replicas }

  function Clamped(v: View): int { Min(v.available, v.replicas) }

  function Observed(v: View): int { v.observed + v.terminating }

  function OldOnly(f: View -> int, uid: nat): View -> int {
    (v: View) => if v.uid == uid then 0 else f(v)
  }

  function Sum(vs: seq<View>, f: View -> int): int {
    if vs == [] then 0 else Sum(vs[..|vs| - 1], f) + f(vs[|vs| - 1])
  }

  function Total(vs: seq<View>): int { Sum(vs, Spec) }

  function TotalAvailable(vs: seq<View>): int { Sum(vs, Clamped) }

  function TotalOld(vs: seq<View>, uid: nat): int { Sum(vs, OldOnly(Spec, uid)) }

  function TotalOldObserved(vs: seq<View>, uid: nat): int { Sum(vs, OldOnly(Observed, uid)) }

  ghost predicate DistinctUids(vs: seq<View>) {
    forall i, j :: 0 <= i < j < |vs| ==> vs[i].uid != vs[j].uid
  }

  /** Specs and reported counts are non-negative, as admission and the status writer leave them. */
  ghost predicate NonNegative(vs: seq<View>) {
    forall i :: 0 <= i < |vs| ==> vs[i].replicas >= 0 && vs[i].available >= 0
  }

  /** What the upstream fencepost resolution promises, after the cap at desired. */
  ghost predicate ValidLimits(lim: Limits) {
    && 0 <= lim.desired && 0 <= lim.maxSurge && 0 <= lim.maxUnavailable <= lim.desired
    && (lim.desired > 0 ==> lim.maxSurge + lim.maxUnavailable > 0)
  }

  function MinAvailable(lim: Limits): int { Max(lim.desired - lim.maxUnavailable, 0) }

  lemma {:induction false} SumUpdate(vs: seq<View>, f: View -> int, i: nat, v: View)
    requires i < |vs|
    ensures Sum(vs[i := v], f) == Sum(vs, f) - f(vs[i]) + f(v)
  {
    var n := |vs| - 1;
    if i == n {
      assert vs[i := v][..n] == vs[..n];
    } else {
      assert vs[i := v][..n] == vs[..n][i := v];
      SumUpdate(vs[..n], f, i, v);
    }
  }

  lemma {:induction false} SumMonotone(vs: seq<View>, f: View -> int, ws: seq<View>, g: View -> int)
    requires |vs| == |ws|
    requires forall i :: 0 <= i < |vs| ==> f(vs[i]) <= g(ws[i])
    ensures Sum(vs, f) <= Sum(ws, g)
  {
    if vs != [] {
      SumMonotone(vs[..|vs| - 1], f, ws[..|vs| - 1], g);
    }
  }

  /** A total of non-negative terms is at least each term. */
  lemma {:induction false} SumAtLeastTerm(vs: seq<View>, f: View -> int, i: nat)
    requires i < |vs|
    requires forall k :: 0 <= k < |vs| ==> f(vs[k]) >= 0
    ensures Sum(vs, f) >= f(vs[i])
  {
    var n := |vs| - 1;
    if i < n {
      SumAtLeastTerm(vs[..n], f, i);
    } else {
      SumNonNegative(vs[..n], f);
    }
  }

  lemma {:induction false} SumNonNegative(vs: seq<View>, f: View -> int)
    requires forall k :: 0 <= k < |vs| ==> f(vs[k]) >= 0
    ensures Sum(vs, f) >= 0
  {
    if vs != [] {
      SumNonNegative(vs[..|vs| - 1], f);
    }
  }

  /** The old replicas asked for are a sum of non-negative terms. */
  lemma {:induction false} OldSpecNonNegative(vs: seq<View>, uid: nat)
    requires NonNegative(vs)
    ensures forall k :: 0 <= k < |vs| ==> OldOnly(Spec, uid)(vs[k]) >= 0
    ensures TotalOld(vs, uid) >= 0
  {
    forall k | 0 <= k < |vs|
      ensures OldOnly(Spec, uid)(vs[k]) >= 0
    {
      assert vs[k].replicas >= 0 && Spec(vs[k]) >= 0;
    }
    SumNonNegative(vs, OldOnly(Spec, uid));
  }

  /** The whole is the part of the current ReplicaSet plus the part of the old ones. */
  lemma {:induction false} SumSplit(vs: seq<View>, f: View -> int, c: nat)
    requires c < |vs| && DistinctUids(vs)
    ensures Sum(vs, f) == f(vs[c]) + Sum(vs, OldOnly(f, vs[c].uid))
  {
    var n := |vs| - 1;
    if c == n {
      SumAllOld(vs[..n], f, vs[c].uid);
    } else {
      SumSplit(vs[..n], f, c);
    }
  }

  lemma {:induction false} SumAllOld(vs: seq<View>, f: View -> int, uid: nat)
    requires forall i :: 0 <= i < |vs| ==> vs[i].uid != uid
    ensures Sum(vs, f) == Sum(vs, OldOnly(f, uid))
  {
    if vs != [] {
      SumAllOld(vs[..|vs| - 1], f, uid);
    }
  }

  /* ----- One pass ----- */

  /** How many replicas an old ReplicaSet may give up in this pass. */
  function Decrease(v: View, total: int, totalAvailable: int, current: int, lim: Limits): int {
    var unavailableOld := Max(v.replicas - v.available, 0);
    var availableBudget := Max(totalAvailable - MinAvailable(lim), 0);
    var excess := Max(total - lim.desired, 0);
    var needed := Max(lim.desired - current, 0);
    var decrease := Min(v.replicas, unavailableOld + availableBudget);
    if excess > 0 then Min(decrease, excess) else Min(decrease, needed)
  }

  /** The ReplicaSet at i may be scaled down in this pass. */
  predicate Shrinks(vs: seq<View>, c: nat, lim: Limits, i: nat)
    requires c < |vs| && i < |vs|
  {
    && vs[i].uid != vs[c].uid && vs[i].replicas != 0
    && Decrease(vs[i], Total(vs), TotalAvailable(vs), vs[c].replicas, lim) > 0
  }

  /** The first old ReplicaSet from position i on that may be scaled down, or |vs|. */
  function FirstShrinking(vs: seq<View>, c: nat, lim: Limits, i: nat): (r: nat)
    requires c < |vs| && i <= |vs|
    ensures i <= r <= |vs|
    ensures r < |vs| ==> Shrinks(vs, c, lim, r)
    ensures forall k :: i <= k < r ==> !Shrinks(vs, c, lim, k)
    decreases |vs| - i
  {
    if i == |vs| then i
    else if Shrinks(vs, c, lim, i) then i
    else FirstShrinking(vs, c, lim, i + 1)
  }

  /** The decision of one RollingUpdate pass with the ReplicaSet at c current. */
  function RollingDecision(vs: seq<View>, c: nat, lim: Limits): Decision
    requires c < |vs|
  {
    var total := Total(vs);
    var current := vs[c].replicas;
    if current < lim.desired && total < lim.desired + lim.maxSurge then
      Scale(c, current + Min(lim.desired - current, lim.desired + lim.maxSurge - total))
    else
      var i := FirstShrinking(vs, c, lim, 0);
      if i < |vs| then
        Scale(i, vs[i].replicas - Decrease(vs[i], total, TotalAvailable(vs), current, lim))
      else if current != lim.desired && TotalOld(vs, vs[c].uid) == 0 then
        Scale(c, lim.desired)
      else
        Keep
  }

  /** The views after a decision has been patched. */
  function Apply(vs: seq<View>, d: Decision): seq<View>
    requires d.Scale? ==> d.index < |vs|
  {
    match d
    case Keep => vs
    case Scale(i, n) => vs[i := vs[i].(replicas := n)]
  }

  function RollingStep(vs: seq<View>, c: nat, lim: Limits): seq<View>
    requires c < |vs|
  {
    Apply(vs, RollingDecision(vs, c, lim))
  }

  /* ----- Invariants of one pass ----- */

  /** The current ReplicaSet grows towards desired, an old one only shrinks, nothing goes negative,
      and every other field stays. */
  lemma {:induction false} StepShape(vs: seq<View>, c: nat, lim: Limits)
    requires c < |vs| && DistinctUids(vs) && NonNegative(vs) && ValidLimits(lim)
    ensures var ws := RollingStep(vs, c, lim);
            && |ws| == |vs| && DistinctUids(ws) && NonNegative(ws)
            && (forall i :: 0 <= i < |vs| ==> ws[i] == vs[i].(replicas := ws[i].replicas))
            && (forall i :: 0 <= i < |vs| && i != c ==> ws[i].replicas <= vs[i].replicas)
            && (vs[c].replicas <= lim.desired ==> vs[c].replicas <= ws[c].replicas <= lim.desired)
            && (vs[c].replicas > lim.desired ==> lim.desired <= ws[c].replicas <= vs[c].replicas)
  {
  }

  /** Surge and availability arithmetic of one pass: the specs never sum to more than before or than
      desired plus surge, and the availability that is both reported and still asked for never falls
      below what it was or below the floor. Holds for any reported status. */
  lemma {:induction false} StepKeepsBudgets(vs: seq<View>, c: nat, lim: Limits)
    requires c < |vs| && DistinctUids(vs) && NonNegative(vs) && ValidLimits(lim)
    ensures Total(RollingStep(vs, c, lim)) <= Max(Total(vs), lim.desired + lim.maxSurge)
    ensures TotalAvailable(RollingStep(vs, c, lim)) >= Min(TotalAvailable(vs), MinAvailable(lim))
  {
    var d := RollingDecision(vs, c, lim);
    if d.Scale? {
      var w := vs[d.index].(replicas := d.replicas);
      SumUpdate(vs, Spec, d.index, w);
      SumUpdate(vs, Clamped, d.index, w);
      SumSplit(vs, Spec, c);
      if d.index == c && vs[c].replicas > lim.desired {
        SettlingKeepsAvailability(vs, c, lim);
      }
    }
  }

  /** A pass never stops short: growing the current ReplicaSet fills desired or the whole surge, and
      shrinking an old one empties it, removes the whole excess (or makes the whole room needed), or
      spends the whole availability budget. */
  lemma {:induction false} StepIsMaximal(vs: seq<View>, c: nat, lim: Limits)
    requires c < |vs| && DistinctUids(vs) && NonNegative(vs) && ValidLimits(lim)
    requires RollingDecision(vs, c, lim) != Keep
    ensures var ws, i := RollingStep(vs, c, lim), RollingDecision(vs, c, lim).index;
            if i == c then
              || ws[c].replicas == lim.desired
              || Total(ws) == lim.desired + lim.maxSurge
            else
              || ws[i].replicas == 0
              || (Total(vs) > lim.desired && Total(ws) == lim.desired)
              || (Total(vs) <= lim.desired && Total(vs) - Total(ws) == lim.desired - vs[c].replicas)
              || TotalAvailable(ws) <= MinAvailable(lim)
  {
    var d := RollingDecision(vs, c, lim);
    var w := vs[d.index].(replicas := d.replicas);
    SumUpdate(vs, Spec, d.index, w);
    SumUpdate(vs, Clamped, d.index, w);
  }

  /* ----- The decision, exactly ----- */

  /** The old ReplicaSet at i may give up k replicas: the specs do not fall below desired, or, when they do not
      exceed it, no more goes than the current one still needs; and the availability that is both reported and
      asked for falls neither below the floor nor below what it was. */
  predicate MayGive(vs: seq<View>, c: nat, lim: Limits, i: nat, k: int)
    requires c < |vs| && i < |vs|
  {
    && (Total(vs) > lim.desired ==> Total(vs) - k >= lim.desired)
    && (Total(vs) <= lim.desired ==> k <= Max(lim.desired - vs[c].replicas, 0))
    && TotalAvailable(vs[i := vs[i].(replicas := vs[i].replicas - k)])
       >= Min(TotalAvailable(vs), Max(lim.desired - lim.maxUnavailable, 0))
  }

  /** What a pass takes from an old ReplicaSet is the most it may give. */
  lemma {:induction false} DecreaseIsTheMost(vs: seq<View>, c: nat, lim: Limits, i: nat, k: int)
    requires c < |vs| && i < |vs| && NonNegative(vs) && 1 <= k <= vs[i].replicas
    ensures MayGive(vs, c, lim, i, k) <==> k <= Decrease(vs[i], Total(vs), TotalAvailable(vs), vs[c].replicas, lim)
  {
    SumUpdate(vs, Clamped, i, vs[i].(replicas := vs[i].replicas - k));
  }

  /** An old ReplicaSet that may give up at least one replica. */
  predicate CanGive(vs: seq<View>, c: nat, lim: Limits, i: nat)
    requires c < |vs| && i < |vs|
  {
    vs[i].uid != vs[c].uid && vs[i].replicas > 0 && MayGive(vs, c, lim, i, 1)
  }

  lemma {:induction false} ShrinksMeans(vs: seq<View>, c: nat, lim: Limits, i: nat)
    requires c < |vs| && i < |vs| && NonNegative(vs)
    ensures Shrinks(vs, c, lim, i) <==> CanGive(vs, c, lim, i)
  {
    if vs[i].replicas > 0 {
      DecreaseIsTheMost(vs, c, lim, i, 1);
    }
  }

  /** It is the first such one in listed order. */
  ghost predicate FirstToGive(vs: seq<View>, c: nat, lim: Limits, i: nat)
    requires c < |vs| && i < |vs|
  {
    CanGive(vs, c, lim, i) && forall j :: 0 <= j < i ==> !CanGive(vs, c, lim, j)
  }

  /** The pass grows the current ReplicaSet, to desired or to the whole surge, whichever comes first. */
  predicate Grows(vs: seq<View>, ws: seq<View>, c: nat, lim: Limits)
    requires c < |vs|
  {
    && |ws| == |vs| && ws == vs[c := vs[c].(replicas := ws[c].replicas)] && vs[c].replicas < ws[c].replicas <= lim.desired
    && Total(ws) <= lim.desired + lim.maxSurge
    && (ws[c].replicas == lim.desired || Total(ws) == lim.desired + lim.maxSurge)
  }

  /** The pass takes from the old ReplicaSet at i all that it may give, and from no other. */
  ghost predicate Gives(vs: seq<View>, ws: seq<View>, c: nat, lim: Limits, i: nat)
    requires c < |vs|
  {
    && i < |vs| == |ws| && ws == vs[i := vs[i].(replicas := ws[i].replicas)] && 0 <= ws[i].replicas < vs[i].replicas
    && MayGive(vs, c, lim, i, vs[i].replicas - ws[i].replicas)
    && forall k :: vs[i].replicas - ws[i].replicas < k <= vs[i].replicas ==> !MayGive(vs, c, lim, i, k)
  }

  lemma {:induction false} GrowingIsExact(vs: seq<View>, c: nat, lim: Limits)
    requires c < |vs| && vs[c].replicas < lim.desired && Total(vs) < lim.desired + lim.maxSurge
    ensures Grows(vs, RollingStep(vs, c, lim), c, lim)
  {
    SumUpdate(vs, Spec, c, vs[c].(replicas := RollingDecision(vs, c, lim).replicas));
  }

  lemma {:induction false} GivingIsExact(vs: seq<View>, c: nat, lim: Limits, i: nat)
    requires c < |vs| && NonNegative(vs) && !(vs[c].replicas < lim.desired && Total(vs) < lim.desired + lim.maxSurge)
    requires i < |vs| && FirstToGive(vs, c, lim, i)
    ensures Gives(vs, RollingStep(vs, c, lim), c, lim, i)
  {
    forall j | 0 <= j <= i
      ensures Shrinks(vs, c, lim, j) <==> CanGive(vs, c, lim, j)
    {
      ShrinksMeans(vs, c, lim, j);
    }
    var ws := RollingStep(vs, c, lim);
    assert FirstShrinking(vs, c, lim, 0) == i;
    forall k | 1 <= k <= vs[i].replicas
      ensures MayGive(vs, c, lim, i, k) <==> k <= vs[i].replicas - ws[i].replicas
    {
      DecreaseIsTheMost(vs, c, lim, i, k);
    }
  }

  /** Every case of one pass: it grows the current ReplicaSet when there is room; otherwise the first old one, in
      listed order, that may give anything gives all that it may; otherwise the current one goes to desired once
      every old one is at zero; and otherwise nothing changes. */
  lemma {:induction false} DecisionIsExact(vs: seq<View>, c: nat, lim: Limits)
    requires c < |vs| && DistinctUids(vs) && NonNegative(vs)
    ensures var ws, room := RollingStep(vs, c, lim), vs[c].replicas < lim.desired && Total(vs) < lim.desired + lim.maxSurge;
      && (room ==> Grows(vs, ws, c, lim))
      && (!room ==> forall i :: 0 <= i < |vs| && FirstToGive(vs, c, lim, i) ==>
            Gives(vs, ws, c, lim, i))
      && (!room && (forall i :: 0 <= i < |vs| ==> !CanGive(vs, c, lim, i)) ==>
            ws == if forall i :: 0 <= i < |vs| && i != c ==> vs[i].replicas == 0 then vs[c := vs[c].(replicas := lim.desired)]
                  else vs)
  {
    var room := vs[c].replicas < lim.desired && Total(vs) < lim.desired + lim.maxSurge;
    if room {
      GrowingIsExact(vs, c, lim);
    } else {
      forall i: nat | i < |vs| && FirstToGive(vs, c, lim, i)
        ensures Gives(vs, RollingStep(vs, c, lim), c, lim, i)
      {
        GivingIsExact(vs, c, lim, i);
      }
      if forall i :: 0 <= i < |vs| ==> !CanGive(vs, c, lim, i) {
        NothingToGive(vs, c, lim);
      }
    }
  }

  lemma {:induction false} NothingToGive(vs: seq<View>, c: nat, lim: Limits)
    requires c < |vs| && DistinctUids(vs) && NonNegative(vs)
    requires !(vs[c].replicas < lim.desired && Total(vs) < lim.desired + lim.maxSurge)
    requires forall i :: 0 <= i < |vs| ==> !CanGive(vs, c, lim, i)
    ensures RollingStep(vs, c, lim) ==
            if forall i :: 0 <= i < |vs| && i != c ==> vs[i].replicas == 0 then vs[c := vs[c].(replicas := lim.desired)] else vs
  {
    forall i | 0 <= i < |vs|
      ensures !Shrinks(vs, c, lim, i)
    {
      assert !CanGive(vs, c, lim, i);
      ShrinksMeans(vs, c, lim, i);
    }
    OldAtZeroExactly(vs, c);
  }

  /** The old specs sum to zero exactly when each is zero. */
  lemma {:induction false} OldAtZeroExactly(vs: seq<View>, c: nat)
    requires c < |vs| && DistinctUids(vs) && NonNegative(vs)
    ensures TotalOld(vs, vs[c].uid) == 0 <==> forall i :: 0 <= i < |vs| && i != c ==> vs[i].replicas == 0
  {
    SettledMeansNothingRemains(vs, c, Limits(vs[c].replicas, 0, 0));
  }

  /** Scaling a current ReplicaSet down to desired once every old one is at zero. */
  lemma {:induction false} SettlingKeepsAvailability(vs: seq<View>, c: nat, lim: Limits)
    requires c < |vs| && DistinctUids(vs) && NonNegative(vs) && ValidLimits(lim)
    requires vs[c].replicas > lim.desired && TotalOld(vs, vs[c].uid) == 0
    ensures TotalAvailable(vs[c := vs[c].(replicas := lim.desired)]) >= Min(TotalAvailable(vs), MinAvailable(lim))
  {
    var uid := vs[c].uid;
    SumUpdate(vs, Clamped, c, vs[c].(replicas := lim.desired));
    SumSplit(vs, Clamped, c);
    SumNonNegative(vs, OldOnly(Clamped, uid));
  }

  /* ----- Termination ----- */

  /** What is left to do: old replicas still asked for, and the distance of the current from desired. */
  function Remaining(vs: seq<View>, c: nat, desired: int): int
    requires c < |vs|
  {
    TotalOld(vs, vs[c].uid) + Abs(desired - vs[c].replicas)
  }

  /** Every changing pass strictly lowers what remains, for any status, any limits and any number of
      old ReplicaSets, so no sequence of passes oscillates. */
  lemma {:induction false} StepMakesProgress(vs: seq<View>, c: nat, lim: Limits)
    requires c < |vs| && DistinctUids(vs)
    requires RollingDecision(vs, c, lim) != Keep
    ensures Remaining(RollingStep(vs, c, lim), c, lim.desired) < Remaining(vs, c, lim.desired)
  {
    var d := RollingDecision(vs, c, lim);
    var w := vs[d.index].(replicas := d.replicas);
    SumUpdate(vs, OldOnly(Spec, vs[c].uid), d.index, w);
  }

  lemma {:induction false} RemainingNonNegative(vs: seq<View>, c: nat, desired: int)
    requires c < |vs| && NonNegative(vs)
    ensures Remaining(vs, c, desired) >= 0
  {
    OldSpecNonNegative(vs, vs[c].uid);
  }

  /* ----- Deadlock freedom ----- */

  /** The rollout has nothing left to do. */
  ghost predicate Settled(vs: seq<View>, c: nat, lim: Limits)
    requires c < |vs|
  {
    && vs[c].replicas == lim.desired
    && forall i :: 0 <= i < |vs| && i != c ==> vs[i].replicas == 0
  }

  lemma {:induction false} SettledMeansNothingRemains(vs: seq<View>, c: nat, lim: Limits)
    requires c < |vs| && DistinctUids(vs) && NonNegative(vs)
    ensures Settled(vs, c, lim) <==> Remaining(vs, c, lim.desired) == 0
  {
    var f := OldOnly(Spec, vs[c].uid);
    OldSpecNonNegative(vs, vs[c].uid);
    if Settled(vs, c, lim) {
      OldAtZero(vs, c);
    } else if Remaining(vs, c, lim.desired) == 0 {
      forall i | 0 <= i < |vs| && i != c
        ensures vs[i].replicas == 0
      {
        SumAtLeastTerm(vs, f, i);
        assert f(vs[i]) == Spec(vs[i]) == vs[i].replicas;
      }
      assert false;
    }
  }

  lemma {:induction false} SumOfZero(vs: seq<View>, f: View -> int)
    requires forall i :: 0 <= i < |vs| ==> f(vs[i]) == 0
    ensures Sum(vs, f) == 0
  {
    if vs != [] {
      SumOfZero(vs[..|vs| - 1], f);
    }
  }

  /** When all replicas of the current ReplicaSet are available, whatever the health of the old ones,
      a pass changes nothing exactly when the rollout is settled: there is no deadlock. */
  lemma {:induction false} NoDeadlock(vs: seq<View>, c: nat, lim: Limits)
    requires c < |vs| && DistinctUids(vs) && NonNegative(vs) && ValidLimits(lim)
    requires vs[c].available >= vs[c].replicas
    ensures RollingDecision(vs, c, lim) == Keep <==> Settled(vs, c, lim)
  {
    SettledMeansNothingRemains(vs, c, lim);
    var uid := vs[c].uid;
    if Settled(vs, c, lim) {
      forall i | 0 <= i < |vs| ensures !Shrinks(vs, c, lim, i) {}
    } else if RollingDecision(vs, c, lim) == Keep {
      StuckHasOld(vs, c, lim);
      StuckIsAllAvailable(vs, c, lim);
      var i :| 0 <= i < |vs| && i != c && vs[i].replicas > 0;
      StuckOldCannotBe(vs, c, lim, i);
    }
  }

  /** An old ReplicaSet with replicas can always be shrunk once all of them are reported available. */
  lemma {:induction false} StuckOldCannotBe(vs: seq<View>, c: nat, lim: Limits, i: nat)
    requires c < |vs| && DistinctUids(vs) && NonNegative(vs) && ValidLimits(lim)
    requires i < |vs| && i != c && vs[i].replicas > 0
    requires TotalAvailable(vs) >= Total(vs) == vs[c].replicas + TotalOld(vs, vs[c].uid)
    requires TotalOld(vs, vs[c].uid) > 0
    ensures RollingDecision(vs, c, lim) != Keep
  {
    if vs[c].replicas >= lim.desired || Total(vs) >= lim.desired + lim.maxSurge {
      assert Shrinks(vs, c, lim, i);
    }
  }

  lemma {:induction false} OldAtZero(vs: seq<View>, c: nat)
    requires c < |vs| && forall i :: 0 <= i < |vs| && i != c ==> vs[i].replicas == 0
    ensures TotalOld(vs, vs[c].uid) == 0
  {
    var f := OldOnly(Spec, vs[c].uid);
    forall i | 0 <= i < |vs|
      ensures f(vs[i]) == 0
    {
      assert i != c ==> Spec(vs[i]) == 0;
    }
    SumOfZero(vs, f);
  }

  /** A stuck pass leaves some old ReplicaSet with replicas. */
  lemma {:induction false} StuckHasOld(vs: seq<View>, c: nat, lim: Limits)
    requires c < |vs| && DistinctUids(vs) && NonNegative(vs) && ValidLimits(lim)
    requires RollingDecision(vs, c, lim) == Keep && !Settled(vs, c, lim)
    ensures exists i :: 0 <= i < |vs| && i != c && vs[i].replicas > 0
    ensures Total(vs) == vs[c].replicas + TotalOld(vs, vs[c].uid)
    ensures TotalOld(vs, vs[c].uid) > 0
  {
    SumSplit(vs, Spec, c);
    OldSpecNonNegative(vs, vs[c].uid);
    SettledMeansNothingRemains(vs, c, lim);
    if forall i :: 0 <= i < |vs| && i != c ==> vs[i].replicas == 0 {
      OldAtZero(vs, c);
    }
  }

  /** With the current available, a stuck pass means every replica asked for is reported available:
      an old ReplicaSet with an unavailable replica could be shrunk. */
  lemma {:induction false} StuckIsAllAvailable(vs: seq<View>, c: nat, lim: Limits)
    requires c < |vs| && DistinctUids(vs) && NonNegative(vs) && ValidLimits(lim)
    requires vs[c].available >= vs[c].replicas
    requires RollingDecision(vs, c, lim) == Keep && !Settled(vs, c, lim)
    ensures TotalAvailable(vs) >= Total(vs)
  {
    StuckHasOld(vs, c, lim);
    forall i | 0 <= i < |vs|
      ensures Spec(vs[i]) <= Clamped(vs[i])
    {
      if i != c && vs[i].replicas > 0 {
        assert !Shrinks(vs, c, lim, i);
      }
    }
    SumMonotone(vs, Spec, vs, Clamped);
  }
}
