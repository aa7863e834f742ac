/**
 The Deployment controller's pass over its ReplicaSet objects: the accumulating loops, the live-Pod check
 and the one patch, proved to carry out the decisions of Rollout and Recreate.
 */
module DeploymentController {
  import opened Arith
  import opened Results
  import opened Revision
  import opened Rollout
  import R = Recreate
  import W = Workload

  /** A ReplicaSet as the controller holds it in memory. revision stands for the structural key whose hash it
      is labelled with; policy and parallelism are its two annotations. */
  class ReplicaSet {
    const uid: nat
    const revision: StructuralKey
    const created: int
    const selector: W.StringMap
    var specReplicas: Option<int>
    var template: W.Template
    var minReadySeconds: int
    var policy: W.Policy
    var parallelism: int
    var availableReplicas: int
    var statusReplicas: int
    var terminatingReplicas: Option<int>

    constructor (uid: nat, revision: StructuralKey, created: int, selector: W.StringMap, template: W.Template,
                 minReadySeconds: int, policy: W.Policy)
      ensures this.uid == uid && this.revision == revision && this.created == created && this.selector == selector
      ensures this.template == template && this.minReadySeconds == minReadySeconds
      ensures this.policy == policy && parallelism == 0 && AsView() == View(uid, 0, 0, 0, 0)
    {
      this.uid, this.revision, this.created, this.selector := uid, revision, created, selector;
      this.template, this.minReadySeconds, this.policy, parallelism := template, minReadySeconds, policy, 0;
      specReplicas, availableReplicas, statusReplicas, terminatingReplicas := Some(0), 0, 0, None;
    }

    function AsView(): View
      reads this
    {
      View(uid, DesiredReplicas(specReplicas), availableReplicas, statusReplicas,
           if terminatingReplicas.Some? then terminatingReplicas.value else 0)
    }
  }

  /** An unset spec.replicas means one. */
  function DesiredReplicas(replicas: Option<int>): int {
    if replicas.None? then 1 else replicas.value
  }

  /** What a pass reads of a ReplicaSet: an unset spec is one replica, and an unset number terminating none. */
  ghost predicate Shows(v: View, rs: ReplicaSet)
    reads rs
  {
    && v.uid == rs.uid && v.available == rs.availableReplicas && v.observed == rs.statusReplicas
    && (rs.specReplicas.None? ==> v.replicas == 1)
    && (rs.specReplicas.Some? ==> rs.specReplicas == Some(v.replicas))
    && (rs.terminatingReplicas.None? ==> v.terminating == 0)
    && (rs.terminatingReplicas.Some? ==> rs.terminatingReplicas == Some(v.terminating))
  }

  ghost function Views(sets: seq<ReplicaSet>): (vs: seq<View>)
    reads sets
    ensures |vs| == |sets|
    ensures forall i :: 0 <= i < |sets| ==> vs[i] == sets[i].AsView()
  {
    seq(|sets|, i requires 0 <= i < |sets| reads sets => sets[i].AsView())
  }

  /** The views the totals and decisions are about are what the objects show. */
  lemma {:induction false} ViewsShow(sets: seq<ReplicaSet>)
    ensures forall i :: 0 <= i < |sets| ==> Shows(Views(sets)[i], sets[i])
  {
    forall i | 0 <= i < |sets|
      ensures Shows(Views(sets)[i], sets[i])
    {
      assert Views(sets)[i] == sets[i].AsView();
    }
  }

  /** A running total over a prefix takes in one more term. */
  lemma {:induction false} SumStep(vs: seq<View>, f: View -> int, i: nat)
    requires i < |vs|
    ensures Sum(vs[..i + 1], f) == Sum(vs[..i], f) + f(vs[i])
  {
    assert vs[..i + 1][..i] == vs[..i];
  }

  lemma {:induction false} SumWhole(vs: seq<View>, f: View -> int)
    ensures Sum(vs[..|vs|], f) == Sum(vs, f)
  {
    assert vs[..|vs|] == vs;
  }

  /* ----- Totals ----- */

  method TotalReplicaSpec(sets: seq<ReplicaSet>) returns (total: int)
    ensures total == Total(Views(sets))
  {
    ghost var vs := Views(sets);
    total := 0;
    for i := 0 to |sets|
      invariant total == Sum(vs[..i], Spec)
    {
      SumStep(vs, Spec, i);
      total := total + DesiredReplicas(sets[i].specReplicas);
    }
    SumWhole(vs, Spec);
  }

  method TotalAvailableReplicas(sets: seq<ReplicaSet>) returns (total: int)
    ensures total == TotalAvailable(Views(sets))
  {
    ghost var vs := Views(sets);
    total := 0;
    for i := 0 to |sets|
      invariant total == Sum(vs[..i], Clamped)
    {
      SumStep(vs, Clamped, i);
      total := total + Min(sets[i].availableReplicas, DesiredReplicas(sets[i].specReplicas));
    }
    SumWhole(vs, Clamped);
  }

  method TotalOldReplicas(current: ReplicaSet, sets: seq<ReplicaSet>) returns (total: int)
    ensures total == TotalOld(Views(sets), current.uid)
  {
    ghost var vs := Views(sets);
    total := 0;
    for i := 0 to |sets|
      invariant total == Sum(vs[..i], OldOnly(Spec, current.uid))
    {
      SumStep(vs, OldOnly(Spec, current.uid), i);
      assert Spec(vs[i]) == DesiredReplicas(sets[i].specReplicas);
      if sets[i].uid != current.uid {
        total := total + DesiredReplicas(sets[i].specReplicas);
      }
    }
    SumWhole(vs, OldOnly(Spec, current.uid));
  }

  method TotalOldObservedPods(current: ReplicaSet, sets: seq<ReplicaSet>) returns (total: int)
    ensures total == TotalOldObserved(Views(sets), current.uid)
  {
    ghost var vs := Views(sets);
    total := 0;
    for i := 0 to |sets|
      invariant total == Sum(vs[..i], OldOnly(Observed, current.uid))
    {
      SumStep(vs, OldOnly(Observed, current.uid), i);
      assert Observed(vs[i]) == vs[i].observed + vs[i].terminating;
      if sets[i].uid == current.uid {
        continue;
      }
      total := total + sets[i].statusReplicas;
      if sets[i].terminatingReplicas.Some? {
        total := total + sets[i].terminatingReplicas.value;
      }
    }
    SumWhole(vs, OldOnly(Observed, current.uid));
  }

  /* ----- The live-Pod check of Recreate ----- */

  /** The live Pods decide only when no old Pod is reported and there is an old ReplicaSet. */
  predicate NeedsListing(vs: seq<View>, c: nat)
    requires c < |vs|
  {
    TotalOldObserved(vs, vs[c].uid) <= 0 && exists i :: 0 <= i < |vs| && vs[i].uid != vs[c].uid
  }

  function ListedPods(listing: Result<seq<R.PhasedPod>>): seq<R.PhasedPod> {
    if listing.Ok? then listing.value else []
  }

  /** Trusts neither status nor spec alone: lists the selected Pods and looks for one that an old
      ReplicaSet controls and that has not reached a terminal phase. listing is what the API server
      answers, or the selector or list error. */
  method OldPodsRunning(current: ReplicaSet, ghost c: nat, sets: seq<ReplicaSet>, listing: Result<seq<R.PhasedPod>>)
    returns (r: Result<bool>)
    requires c < |sets| && sets[c] == current
    ensures r.Err? <==> listing.Err? && NeedsListing(Views(sets), c)
    ensures r.Ok? ==> r.value == R.OldPodsRunning(Views(sets), c, ListedPods(listing))
  {
    var observed := TotalOldObservedPods(current, sets);
    if observed > 0 {
      return Ok(true);
    }
    var oldUids: set<nat> := {};
    for i := 0 to |sets|
      invariant forall u :: u in oldUids <==> exists k :: 0 <= k < i && sets[k].uid == u && u != current.uid
    {
      if sets[i].uid != current.uid {
        oldUids := oldUids + {sets[i].uid};
      }
    }
    assert forall u :: u in oldUids <==> R.IsOldUid(Views(sets), c, u) by {
      forall u
        ensures u in oldUids <==> R.IsOldUid(Views(sets), c, u)
      {
        if u in oldUids {
          var k :| 0 <= k < |sets| && sets[k].uid == u && u != current.uid;
          assert Views(sets)[k].uid == u;
        }
      }
    }
    if |oldUids| == 0 {
      forall i | 0 <= i < |sets|
        ensures sets[i].uid == current.uid
      {
        assert sets[i].uid !in oldUids;
      }
      return Ok(false);
    }
    ghost var u :| u in oldUids;
    assert R.IsOldUid(Views(sets), c, u) && NeedsListing(Views(sets), c);
    if listing.Err? {
      return Err(listing.error);
    }
    var pods := listing.value;
    for k := 0 to |pods|
      invariant forall j :: 0 <= j < k ==> !R.Blocks(Views(sets), c, pods[j])
    {
      if !pods[k].selected || !pods[k].controlled || pods[k].owner !in oldUids {
        continue;
      }
      if pods[k].phase != R.Failed && pods[k].phase != R.Succeeded {
        assert R.Blocks(Views(sets), c, pods[k]);
        return Ok(true);
      }
    }
    return Ok(false);
  }

  /* ----- The patch ----- */

  /** Sets spec.replicas of one listed ReplicaSet and patches it; accepted is whether the API server
      takes the patch. */
  method ScaleReplicaSet(replicaSet: ReplicaSet, replicas: int, accepted: bool,
                         ghost sets: seq<ReplicaSet>, ghost i: nat)
    returns (r: Result<bool>)
    requires i < |sets| && sets[i] == replicaSet && DistinctUids(Views(sets))
    modifies replicaSet`specReplicas
    ensures Views(sets) == Apply(old(Views(sets)), Scale(i, replicas))
    ensures old(Views(sets))[i].replicas == replicas ==> r == Ok(false) && unchanged(replicaSet)
    ensures old(Views(sets))[i].replicas != replicas ==>
      replicaSet.specReplicas == Some(replicas) && if accepted then r == Ok(true) else r.Err?
  {
    if DesiredReplicas(replicaSet.specReplicas) == replicas {
      return Ok(false);
    }
    ghost var vs := Views(sets);
    replicaSet.specReplicas := Some(replicas);
    forall k | 0 <= k < |sets|
      ensures Views(sets)[k] == Apply(vs, Scale(i, replicas))[k]
    {
      assert k != i ==> vs[k].uid != vs[i].uid;
    }
    if !accepted {
      return Err("scale ReplicaSet");
    }
    return Ok(true);
  }

  /* ----- The pass ----- */

  datatype Strategy =
    | Recreate
    | RollingUpdate(maxSurge: int, maxUnavailable: int) // as resolved upstream for the desired count

  /** What upstream fencepost resolution promises. */
  ghost predicate ResolvedFenceposts(s: Strategy) {
    s.RollingUpdate? ==> s.maxSurge >= 0 && s.maxUnavailable >= 0 && s.maxSurge + s.maxUnavailable > 0
  }

  function RollingLimits(s: Strategy, desired: int): (lim: Limits)
    requires s.RollingUpdate?
    ensures ResolvedFenceposts(s) && desired >= 0 ==> ValidLimits(lim)
  {
    Limits(desired, s.maxSurge, Min(s.maxUnavailable, desired))
  }

  /** The decision of one rollout pass under either strategy. */
  function RolloutDecision(vs: seq<View>, c: nat, s: Strategy, desired: int, pods: seq<R.PhasedPod>): Decision
    requires c < |vs|
  {
    if s.Recreate? then R.RecreateDecision(vs, c, pods, desired)
    else RollingDecision(vs, c, RollingLimits(s, desired))
  }

  /** Capping maxUnavailable at desired changes nothing: a RollingUpdate pass decides by maxSurge and maxUnavailable
      of the strategy themselves. */
  lemma {:induction false} StrategyDecides(vs: seq<View>, c: nat, s: Strategy, desired: nat, pods: seq<R.PhasedPod>)
    requires c < |vs| && s.RollingUpdate?
    ensures RolloutDecision(vs, c, s, desired, pods) == RollingDecision(vs, c, Limits(desired, s.maxSurge, s.maxUnavailable))
  {
    var capped, lim := RollingLimits(s, desired), Limits(desired, s.maxSurge, s.maxUnavailable);
    assert MinAvailable(capped) == MinAvailable(lim);
    forall i | 0 <= i < |vs|
      ensures Shrinks(vs, c, capped, i) <==> Shrinks(vs, c, lim, i)
    {
    }
    SameFirstShrinking(vs, c, capped, lim, 0);
  }

  lemma {:induction false} SameFirstShrinking(vs: seq<View>, c: nat, a: Limits, b: Limits, i: nat)
    requires c < |vs| && i <= |vs| && forall k :: 0 <= k < |vs| ==> (Shrinks(vs, c, a, k) <==> Shrinks(vs, c, b, k))
    ensures FirstShrinking(vs, c, a, i) == FirstShrinking(vs, c, b, i)
    decreases |vs| - i
  {
    if i < |vs| {
      SameFirstShrinking(vs, c, a, b, i + 1);
    }
  }

  /** What one RollingUpdate pass keeps and how far it goes, in the Deployment's own strategy. */
  ghost predicate KeepsStrategy(vs: seq<View>, ws: seq<View>, c: nat, desired: nat, maxSurge: int, maxUnavailable: int)
    requires c < |vs| == |ws|
  {
    && Total(ws) <= Max(Total(vs), desired + maxSurge)
    && TotalAvailable(ws) >= Min(TotalAvailable(vs), Max(desired - maxUnavailable, 0))
    && (ws[c].replicas > vs[c].replicas ==> ws[c].replicas == desired || Total(ws) == desired + maxSurge)
    && forall i :: 0 <= i < |vs| && i != c && ws[i].replicas < vs[i].replicas ==>
         && (Total(vs) > desired ==> Total(ws) >= desired)
         && (|| ws[i].replicas == 0
             || (Total(vs) > desired && Total(ws) == desired)
             || (Total(vs) <= desired && vs[i].replicas - ws[i].replicas == desired - vs[c].replicas)
             || TotalAvailable(ws) <= Max(desired - maxUnavailable, 0))
  }

  /** Under RollingUpdate a pass never lets the specs sum to more than before or than desired + maxSurge, nor the
      reported availability still asked for fall below what it was or below desired - maxUnavailable. It stops
      growing only at desired or the whole surge, and shrinking only at zero, at the excess or the room needed, or
      with no more available than desired - maxUnavailable. */
  lemma {:induction false} PassKeepsStrategy(vs: seq<View>, c: nat, s: Strategy, desired: nat, pods: seq<R.PhasedPod>)
    requires c < |vs| && DistinctUids(vs) && NonNegative(vs) && s.RollingUpdate? && ResolvedFenceposts(s)
    ensures var d := RolloutDecision(vs, c, s, desired, pods);
      && (d.Scale? ==> d.index < |vs|)
      && KeepsStrategy(vs, Apply(vs, d), c, desired, s.maxSurge, s.maxUnavailable)
  {
    var lim := RollingLimits(s, desired);
    var d := RollingDecision(vs, c, lim);
    StepKeepsBudgets(vs, c, lim);
    if d.Scale? {
      StepIsMaximal(vs, c, lim);
      SumUpdate(vs, Spec, d.index, vs[d.index].(replicas := d.replicas));
    }
  }

  /** The pass cannot decide: it has come to ask for the live Pods and the listing failed. */
  predicate ListingFails(vs: seq<View>, c: nat, s: Strategy, listing: Result<seq<R.PhasedPod>>)
    requires c < |vs|
  {
    s.Recreate? && listing.Err? && R.FirstOld(vs, c, 0) == |vs| && NeedsListing(vs, c)
  }

  /** One rollout pass in memory: unless it fails to list the Pods it needs, and then it changes nothing, it
      carries out exactly the decision, reports a change exactly when it took one, and touches nothing but
      spec.replicas. */
  method RolloutPass(current: ReplicaSet, ghost c: nat, sets: seq<ReplicaSet>, strategy: Strategy, desired: int,
                     listing: Result<seq<R.PhasedPod>>, accepted: bool)
    returns (r: Result<bool>)
    requires c < |sets| && sets[c] == current && DistinctUids(Views(sets))
    modifies sets`specReplicas
    ensures ListingFails(old(Views(sets)), c, strategy, listing) ==> r.Err? && Views(sets) == old(Views(sets))
    ensures !ListingFails(old(Views(sets)), c, strategy, listing) ==>
      var d := RolloutDecision(old(Views(sets)), c, strategy, desired, ListedPods(listing));
      && Views(sets) == Apply(old(Views(sets)), d)
      && (d == Keep ==> r == Ok(false))
      && (d != Keep ==> if accepted then r == Ok(true) else r.Err?)
  {
    if strategy.Recreate? {
      r := RecreatePass(current, c, sets, desired, listing, accepted);
    } else {
      r := RollingPass(current, c, sets, RollingLimits(strategy, desired), accepted);
    }
  }

  method RecreatePass(current: ReplicaSet, ghost c: nat, sets: seq<ReplicaSet>, desired: int,
                      listing: Result<seq<R.PhasedPod>>, accepted: bool)
    returns (r: Result<bool>)
    requires c < |sets| && sets[c] == current && DistinctUids(Views(sets))
    modifies sets`specReplicas
    ensures ListingFails(old(Views(sets)), c, Recreate, listing) ==> r.Err? && Views(sets) == old(Views(sets))
    ensures !ListingFails(old(Views(sets)), c, Recreate, listing) ==>
      var d := R.RecreateDecision(old(Views(sets)), c, ListedPods(listing), desired);
      && Views(sets) == Apply(old(Views(sets)), d)
      && (d == Keep ==> r == Ok(false))
      && (d != Keep ==> if accepted then r == Ok(true) else r.Err?)
  {
    ghost var vs := Views(sets);
    for i := 0 to |sets|
      invariant Views(sets) == vs
      invariant R.FirstOld(vs, c, 0) == R.FirstOld(vs, c, i)
    {
      if sets[i].uid != current.uid && DesiredReplicas(sets[i].specReplicas) > 0 {
        r := ScaleReplicaSet(sets[i], 0, accepted, sets, i);
        return;
      }
    }
    var running := OldPodsRunning(current, c, sets, listing);
    if running.Err? {
      return Err(running.error);
    }
    var total := TotalOldReplicas(current, sets);
    if total == 0 && !running.value {
      r := ScaleReplicaSet(current, desired, accepted, sets, c);
      return;
    }
    return Ok(false);
  }

  /** The loop over old ReplicaSets: the first that may be scaled down, and by how much. */
  method FirstToShrink(current: ReplicaSet, ghost c: nat, sets: seq<ReplicaSet>, lim: Limits, total: int)
    returns (i: nat, decrease: int)
    requires c < |sets| && sets[c] == current && total == Total(Views(sets))
    ensures i == FirstShrinking(Views(sets), c, lim, 0)
    ensures i < |sets| ==>
      decrease == Decrease(Views(sets)[i], total, TotalAvailable(Views(sets)), Views(sets)[c].replicas, lim)
  {
    ghost var vs := Views(sets);
    var desired, currentReplicas := lim.desired, DesiredReplicas(current.specReplicas);
    var minAvailable := Max(desired - lim.maxUnavailable, 0);
    var totalAvailable := TotalAvailableReplicas(sets);
    i, decrease := 0, 0;
    while i < |sets|
      invariant i <= |sets| && FirstShrinking(vs, c, lim, 0) == FirstShrinking(vs, c, lim, i)
    {
      var v := sets[i];
      var oldReplicas := DesiredReplicas(v.specReplicas);
      if v.uid != current.uid && oldReplicas != 0 {
        var unavailableOld := Max(oldReplicas - v.availableReplicas, 0);
        var availableBudget := Max(totalAvailable - minAvailable, 0);
        var excess := Max(total - desired, 0);
        var needed := Max(desired - currentReplicas, 0);
        decrease := Min(oldReplicas, unavailableOld + availableBudget);
        if excess > 0 {
          decrease := Min(decrease, excess);
        } else {
          decrease := Min(decrease, needed);
        }
        assert decrease == Decrease(vs[i], total, totalAvailable, currentReplicas, lim);
        if decrease > 0 {
          return;
        }
      }
      assert !Shrinks(vs, c, lim, i);
      i := i + 1;
    }
  }

  method RollingPass(current: ReplicaSet, ghost c: nat, sets: seq<ReplicaSet>, lim: Limits, accepted: bool)
    returns (r: Result<bool>)
    requires c < |sets| && sets[c] == current && DistinctUids(Views(sets))
    modifies sets`specReplicas
    ensures var d := RollingDecision(old(Views(sets)), c, lim);
      && Views(sets) == Apply(old(Views(sets)), d)
      && (d == Keep ==> r == Ok(false))
      && (d != Keep ==> if accepted then r == Ok(true) else r.Err?)
  {
    var desired := lim.desired;
    var total := TotalReplicaSpec(sets);
    var currentReplicas := DesiredReplicas(current.specReplicas);
    if currentReplicas < desired && total < desired + lim.maxSurge {
      var increase := Min(desired - currentReplicas, desired + lim.maxSurge - total);
      r := ScaleReplicaSet(current, currentReplicas + increase, accepted, sets, c);
      return;
    }
    var i, decrease := FirstToShrink(current, c, sets, lim, total);
    if i < |sets| {
      r := ScaleReplicaSet(sets[i], DesiredReplicas(sets[i].specReplicas) - decrease, accepted, sets, i);
      return;
    }
    var totalOld := TotalOldReplicas(current, sets);
    if currentReplicas != desired && totalOld == 0 {
      r := ScaleReplicaSet(current, desired, accepted, sets, c);
      return;
    }
    return Ok(false);
  }

  /* ----- In-place parallelism ----- */

  /** How many Pods the current ReplicaSet may update in place at once. */
  function DeploymentParallelism(vs: seq<View>, s: Strategy, desired: int): int {
    if desired == 0 then 0
    else if s.Recreate? then desired
    else
      var unavailable := Max(desired - TotalAvailable(vs), 0);
      if s.maxUnavailable == 0 && unavailable == 0 then 1
      else Max(s.maxUnavailable - unavailable, 0)
  }

  /** The slots are all the Deployment's budget leaves: none without replicas; every Pod under Recreate; and under
      RollingUpdate, together with the replicas missing, exactly maxUnavailable, or one Pod at a time when that is
      zero and nothing is missing, or none when as many or more are missing. */
  predicate FillsBudget(p: int, s: Strategy, desired: nat, missing: int) {
    if desired == 0 then p == 0
    else
      match s
      case Recreate => p == desired
      case RollingUpdate(_, maxUnavailable) =>
        && (missing < maxUnavailable ==> p + missing == maxUnavailable)
        && (missing >= maxUnavailable ==> p == if missing == 0 then 1 else 0)
  }

  /** The slots fill the budget; so under RollingUpdate the updates allowed at once and the replicas already missing
      never exceed it, one Pod being allowed when it is zero and nothing is missing. */
  lemma {:induction false} ParallelismWithinBudget(vs: seq<View>, s: Strategy, desired: nat)
    requires ResolvedFenceposts(s)
    ensures var p, missing := DeploymentParallelism(vs, s, desired), Max(desired - TotalAvailable(vs), 0);
            && FillsBudget(p, s, desired, missing)
            && (s.RollingUpdate? ==> 0 <= p <= Max(1, s.maxUnavailable))
            && (s.RollingUpdate? && p > 0 ==> p + missing <= Max(1, s.maxUnavailable))
  {
  }
}
