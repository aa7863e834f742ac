/**
 One pass of the Deployment controller from the selected ReplicaSet to the rollout, and runs of passes over
 an arbitrarily edited Deployment: the template of a ReplicaSet only ever changes in in-place fields.
 */
module Reconcile {
  import opened Arith
  import opened DeploymentController
  import opened Results
  import opened Revision
  import opened Rollout
  import R = Recreate
  import W = Workload

  /** selector is the Deployment's matchLabels, when it has a selector. */
  datatype Deployment = Deployment(annotations: W.StringMap, selector: Option<W.StringMap>, template: W.Template,
                                   paused: bool, minReadySeconds: int, desired: nat, strategy: Strategy)

  /** The value of a ReplicaSet object. */
  datatype Set = Set(view: View, revision: StructuralKey, created: int, selector: W.StringMap, template: W.Template,
                     minReadySeconds: int, policy: W.Policy, parallelism: int)

  /** What the API server answers a pass: the list of Pods, or its error, and whether it takes the status of the
      Deployment. */
  datatype Replies = Replies(listing: Result<seq<R.PhasedPod>>, statusTaken: bool)

  /** The metadata key names and the hash a structural key is stamped with. */
  datatype Env = Env(names: W.KeyNames, hash: StructuralKey -> string)

  /* ----- Specification of one pass ----- */

  function KeyOf(env: Env, d: Deployment): StructuralKey {
    StructuralKeyOf(env.names, d.annotations, d.template)
  }

  function ViewsOf(sets: seq<Set>): (vs: seq<View>)
    ensures |vs| == |sets| && forall i :: 0 <= i < |sets| ==> vs[i] == sets[i].view
  {
    seq(|sets|, i requires 0 <= i < |sets| => sets[i].view)
  }

  /** The first ReplicaSet with that revision, or |sets|. */
  function FirstLabelled(sets: seq<Set>, key: StructuralKey): (r: nat)
    ensures r <= |sets| && (r < |sets| ==> sets[r].revision == key)
    ensures forall k :: 0 <= k < r ==> sets[k].revision != key
  {
    if sets == [] then 0
    else if sets[0].revision == key then 0
    else 1 + FirstLabelled(sets[1..], key)
  }

  /** The first of the youngest ReplicaSets. */
  predicate IsNewest(sets: seq<Set>, r: nat) {
    && r < |sets|
    && (forall k :: 0 <= k < r ==> sets[k].created < sets[r].created)
    && (forall k :: r < k < |sets| ==> sets[k].created <= sets[r].created)
  }

  function Newest(sets: seq<Set>): (r: nat)
    requires sets != []
    ensures IsNewest(sets, r)
  {
    if |sets| == 1 then 0
    else
      var last := |sets| - 1;
      var r := Newest(sets[..last]);
      if sets[last].created > sets[r].created then last else r
  }

  /** The current ReplicaSet; a paused Deployment with an unknown revision stays with the youngest. */
  function Current(env: Env, d: Deployment, sets: seq<Set>): (r: Option<nat>)
    ensures r.Some? ==> r.value < |sets|
  {
    var r := FirstLabelled(sets, KeyOf(env, d));
    if r < |sets| then Some(r)
    else if d.paused && sets != [] then Some(Newest(sets))
    else None
  }

  function Created(env: Env, d: Deployment, uid: nat, now: int): Set
    requires d.selector.Some?
  {
    var key := KeyOf(env, d);
    Set(View(uid, 0, 0, 0, 0), key, now, d.selector.value[env.names.structuralLabel := env.hash(key)],
        Stamped(env.names, d.template, env.hash(key)), d.minReadySeconds, W.PolicyFor(d.annotations), 0)
  }

  function Synced(env: Env, d: Deployment, s: Set, parallelism: int): Set {
    s.(template := if d.paused then s.template else Stamped(env.names, d.template, env.hash(KeyOf(env, d))),
       minReadySeconds := d.minReadySeconds, policy := W.PolicyFor(d.annotations), parallelism := parallelism)
  }

  function ParallelismOf(d: Deployment, sets: seq<Set>): int {
    if d.paused then 0 else DeploymentParallelism(ViewsOf(sets), d.strategy, d.desired)
  }

  function Scaled(sets: seq<Set>, decision: Decision): seq<Set>
    requires decision.Scale? ==> decision.index < |sets|
  {
    match decision
    case Keep => sets
    case Scale(i, n) => sets[i := sets[i].(view := sets[i].view.(replicas := n))]
  }

  /** The rollout decision with what the Pod list answered; nothing when it is needed and failed. */
  function DecisionWith(sets: seq<Set>, c: nat, d: Deployment, listing: Result<seq<R.PhasedPod>>): Decision
    requires c < |sets|
  {
    if ListingFails(ViewsOf(sets), c, d.strategy, listing) then Keep
    else RolloutDecision(ViewsOf(sets), c, d.strategy, d.desired, ListedPods(listing))
  }

  /** With the ReplicaSet at c current: synchronise it, or else, once the status is written and unless paused,
      roll out. */
  function SyncedOrScaled(env: Env, d: Deployment, sets: seq<Set>, c: nat, replies: Replies): seq<Set>
    requires c < |sets|
  {
    var s := Synced(env, d, sets[c], ParallelismOf(d, sets));
    if s != sets[c] then sets[c := s]
    else if !replies.statusTaken || d.paused then sets
    else Scaled(sets, DecisionWith(sets, c, d, replies.listing))
  }

  /** The pass with the ReplicaSet at c current ends in an error before it could change anything. */
  predicate Stops(env: Env, d: Deployment, sets: seq<Set>, c: nat, replies: Replies)
    requires c < |sets|
  {
    && Synced(env, d, sets[c], ParallelismOf(d, sets)) == sets[c]
    && (!replies.statusTaken || (!d.paused && ListingFails(ViewsOf(sets), c, d.strategy, replies.listing)))
  }

  /** One pass: create, synchronise or roll out. uid and now are what the API server would give a new
      ReplicaSet. Without a selector none can be created. */
  function PassOf(env: Env, d: Deployment, sets: seq<Set>, replies: Replies, uid: nat, now: int): seq<Set> {
    match Current(env, d, sets)
    case None => if d.selector.None? then sets else sets + [Created(env, d, uid, now)]
    case Some(c) => SyncedOrScaled(env, d, sets, c, replies)
  }

  predicate Fails(env: Env, d: Deployment, sets: seq<Set>, replies: Replies) {
    match Current(env, d, sets)
    case None => d.selector.None?
    case Some(c) => Stops(env, d, sets, c, replies)
  }

  /* ----- The pass over the objects ----- */

  function AsSet(rs: ReplicaSet): Set
    reads rs
  {
    Set(rs.AsView(), rs.revision, rs.created, rs.selector, rs.template, rs.minReadySeconds, rs.policy, rs.parallelism)
  }

  ghost function AsSets(sets: seq<ReplicaSet>): (r: seq<Set>)
    reads sets
    ensures |r| == |sets| && forall i :: 0 <= i < |sets| ==> r[i] == AsSet(sets[i])
    ensures ViewsOf(r) == Views(sets)
  {
    seq(|sets|, i requires 0 <= i < |sets| reads sets => AsSet(sets[i]))
  }

  lemma {:induction false} FirstLabelledIs(sets: seq<Set>, key: StructuralKey, r: nat)
    requires r <= |sets| && (r < |sets| ==> sets[r].revision == key)
    requires forall k :: 0 <= k < r ==> sets[k].revision != key
    ensures FirstLabelled(sets, key) == r
  {
  }

  lemma {:induction false} NewestIs(sets: seq<Set>, r: nat)
    requires IsNewest(sets, r)
    ensures Newest(sets) == r
  {
  }

  method ReplicaSetForRevision(sets: seq<ReplicaSet>, key: StructuralKey) returns (r: nat)
    ensures r == FirstLabelled(AsSets(sets), key)
  {
    for i := 0 to |sets|
      invariant forall k :: 0 <= k < i ==> AsSets(sets)[k].revision != key
    {
      if sets[i].revision == key {
        FirstLabelledIs(AsSets(sets), key, i);
        return i;
      }
    }
    FirstLabelledIs(AsSets(sets), key, |sets|);
    return |sets|;
  }

  method NewestReplicaSet(sets: seq<ReplicaSet>) returns (r: nat)
    requires sets != []
    ensures r == Newest(AsSets(sets))
  {
    r := 0;
    for i := 1 to |sets|
      invariant r < i && IsNewest(AsSets(sets)[..i], r)
    {
      if sets[i].created > sets[r].created {
        r := i;
      }
    }
    NewestIs(AsSets(sets), r);
  }

  method ParallelismFor(d: Deployment, sets: seq<ReplicaSet>) returns (p: int)
    ensures p == ParallelismOf(d, AsSets(sets))
  {
    if d.paused || d.desired == 0 {
      return 0;
    }
    if d.strategy.Recreate? {
      return d.desired;
    }
    var available := TotalAvailableReplicas(sets);
    var unavailable := Max(d.desired - available, 0);
    if d.strategy.maxUnavailable == 0 && unavailable == 0 {
      return 1;
    }
    return Max(d.strategy.maxUnavailable - unavailable, 0);
  }

  /** Brings the current ReplicaSet up to the Deployment and patches it when that changed anything. */
  method SyncReplicaSet(env: Env, d: Deployment, rs: ReplicaSet, key: StructuralKey, parallelism: int, accepted: bool)
    returns (r: Result<bool>)
    requires key == KeyOf(env, d)
    modifies rs`template, rs`minReadySeconds, rs`policy, rs`parallelism
    ensures AsSet(rs) == Synced(env, d, old(AsSet(rs)), parallelism)
    ensures AsSet(rs) == old(AsSet(rs)) ==> r == Ok(false)
    ensures AsSet(rs) != old(AsSet(rs)) ==> if accepted then r == Ok(true) else r.Err?
  {
    var template, minReadySeconds, policy, was := rs.template, rs.minReadySeconds, rs.policy, rs.parallelism;
    if !d.paused {
      rs.template := Stamped(env.names, d.template, env.hash(key));
    }
    rs.minReadySeconds := d.minReadySeconds;
    rs.parallelism := parallelism;
    rs.policy := W.PolicyFor(d.annotations);
    if template == rs.template && minReadySeconds == rs.minReadySeconds && policy == rs.policy && was == rs.parallelism {
      return Ok(false);
    }
    if !accepted {
      return Err("update ReplicaSet");
    }
    return Ok(true);
  }

  /** Synchronises the listed ReplicaSet at c; the others are other objects, as their identities differ. */
  method SyncListed(env: Env, d: Deployment, sets: seq<ReplicaSet>, c: nat, key: StructuralKey, parallelism: int, accepted: bool)
    returns (r: Result<bool>)
    requires key == KeyOf(env, d) && c < |sets| && DistinctUids(Views(sets))
    modifies sets
    ensures AsSets(sets) == old(AsSets(sets))[c := Synced(env, d, old(AsSets(sets))[c], parallelism)]
    ensures AsSets(sets) == old(AsSets(sets)) ==> r == Ok(false)
    ensures AsSets(sets) != old(AsSets(sets)) ==> if accepted then r == Ok(true) else r.Err?
  {
    ghost var was := AsSets(sets);
    r := SyncReplicaSet(env, d, sets[c], key, parallelism, accepted);
    forall k | 0 <= k < |sets| && k != c
      ensures AsSets(sets)[k] == was[k]
    {
      assert ViewsOf(was)[k].uid != ViewsOf(was)[c].uid;
    }
    assert AsSets(sets)[c] != was[c] <==> AsSets(sets) != was;
  }

  /** Rolls out with the ReplicaSet at c current. */
  method RollOut(d: Deployment, sets: seq<ReplicaSet>, c: nat, listing: Result<seq<R.PhasedPod>>, accepted: bool)
    returns (r: Result<bool>)
    requires c < |sets| && DistinctUids(Views(sets))
    modifies sets
    ensures AsSets(sets) == Scaled(old(AsSets(sets)), DecisionWith(old(AsSets(sets)), c, d, listing))
    ensures ListingFails(old(Views(sets)), c, d.strategy, listing) ==> r.Err? && AsSets(sets) == old(AsSets(sets))
    ensures !ListingFails(old(Views(sets)), c, d.strategy, listing) ==>
      && (AsSets(sets) == old(AsSets(sets)) ==> r == Ok(false))
      && (AsSets(sets) != old(AsSets(sets)) ==> if accepted then r == Ok(true) else r.Err?)
  {
    ghost var was := AsSets(sets);
    ghost var decision := DecisionWith(was, c, d, listing);
    DecisionChanges(ViewsOf(was), c, d.strategy, d.desired, ListedPods(listing));
    r := RolloutPass(sets[c], c, sets, d.strategy, d.desired, listing, accepted);
    ScaledIs(was, AsSets(sets), decision);
  }

  /** A decision other than to keep everything changes some replica count. */
  lemma {:induction false} DecisionChanges(vs: seq<View>, c: nat, s: Strategy, desired: int, pods: seq<R.PhasedPod>)
    requires c < |vs|
    ensures var decision := RolloutDecision(vs, c, s, desired, pods);
            decision.Scale? ==> decision.index < |vs| && vs[decision.index].replicas != decision.replicas
  {
  }

  /** Objects that differ from before only in their views, and those as decided, are the scaled ones. */
  lemma {:induction false} ScaledIs(was: seq<Set>, now: seq<Set>, decision: Decision)
    requires |was| == |now| && (decision.Scale? ==> decision.index < |was|)
    requires ViewsOf(now) == Apply(ViewsOf(was), decision)
    requires forall k :: 0 <= k < |was| ==> now[k] == was[k].(view := now[k].view)
    requires decision.Scale? ==> was[decision.index].view.replicas != decision.replicas
    ensures now == Scaled(was, decision)
    ensures now == was <==> decision == Keep
  {
    forall k | 0 <= k < |was|
      ensures now[k].view == Apply(ViewsOf(was), decision)[k]
    {
      assert ViewsOf(now)[k] == now[k].view;
    }
    if decision.Scale? {
      assert now[decision.index].view.replicas == decision.replicas;
    }
  }

  /** The pass once the current ReplicaSet is known: at most one of the two steps patches anything, and the
      status is written between them. */
  method SyncOrRollOut(env: Env, d: Deployment, sets: seq<ReplicaSet>, c: nat, key: StructuralKey, replies: Replies,
                       accepted: bool)
    returns (r: Result<bool>)
    requires key == KeyOf(env, d) && c < |sets| && DistinctUids(Views(sets))
    modifies sets
    ensures AsSets(sets) == SyncedOrScaled(env, d, old(AsSets(sets)), c, replies)
    ensures Stops(env, d, old(AsSets(sets)), c, replies) ==> r.Err?
    ensures !Stops(env, d, old(AsSets(sets)), c, replies) ==>
      && (AsSets(sets) == old(AsSets(sets)) ==> r == Ok(false))
      && (AsSets(sets) != old(AsSets(sets)) ==> if accepted then r == Ok(true) else r.Err?)
  {
    var parallelism := ParallelismFor(d, sets);
    r := SyncListed(env, d, sets, c, key, parallelism, accepted);
    if r != Ok(false) {
      return;
    }
    if !replies.statusTaken {
      return Err("write Deployment status");
    }
    if d.paused {
      return;
    }
    r := RollOut(d, sets, c, replies.listing, accepted);
  }

  /** A new ReplicaSet, selecting the Pods of its revision only, when there is a selector and the API server
      takes it. */
  method CreateReplicaSet(env: Env, d: Deployment, key: StructuralKey, uid: nat, now: int, accepted: bool)
    returns (r: Result<ReplicaSet>)
    requires key == KeyOf(env, d)
    ensures r.Ok? <==> d.selector.Some? && accepted
    ensures r.Ok? ==> fresh(r.value) && AsSet(r.value) == Created(env, d, uid, now)
  {
    if d.selector.None? {
      return Err("spec.selector is required");
    }
    var selector := d.selector.value[env.names.structuralLabel := env.hash(key)];
    var rs := new ReplicaSet(uid, key, now, selector, Stamped(env.names, d.template, env.hash(key)), d.minReadySeconds,
                             W.PolicyFor(d.annotations));
    if !accepted {
      return Err("create ReplicaSet");
    }
    return Ok(rs);
  }

  method CurrentReplicaSet(env: Env, d: Deployment, sets: seq<ReplicaSet>, key: StructuralKey) returns (r: Option<nat>)
    requires key == KeyOf(env, d)
    ensures r == Current(env, d, AsSets(sets))
  {
    var c := ReplicaSetForRevision(sets, key);
    if c < |sets| {
      return Some(c);
    }
    if d.paused && |sets| > 0 {
      c := NewestReplicaSet(sets);
      return Some(c);
    }
    return None;
  }

  /** The pass without a current ReplicaSet. */
  method CreateListed(env: Env, d: Deployment, sets: seq<ReplicaSet>, key: StructuralKey, uid: nat, now: int, accepted: bool)
    returns (r: Result<bool>, after: seq<ReplicaSet>)
    requires key == KeyOf(env, d)
    ensures sets <= after
    ensures AsSets(after) == old(AsSets(sets)) + if d.selector.Some? && accepted then [Created(env, d, uid, now)] else []
    ensures if d.selector.Some? && accepted then r == Ok(true) else r.Err?
  {
    var created := CreateReplicaSet(env, d, key, uid, now, accepted);
    if created.Err? {
      return Err(created.error), sets;
    }
    return Ok(true), sets + [created.value];
  }

  /** One whole pass in memory: it carries out PassOf, fails where it must, and otherwise reports a change exactly
      when it made one. after is the list with a created ReplicaSet appended; a refused one is not. */
  method ReconcileDeployment(env: Env, d: Deployment, sets: seq<ReplicaSet>, replies: Replies, uid: nat, now: int,
                             accepted: bool)
    returns (r: Result<bool>, after: seq<ReplicaSet>)
    requires DistinctUids(Views(sets))
    modifies sets
    ensures sets <= after
    ensures var was := old(AsSets(sets));
      AsSets(after) ==
      if Current(env, d, was).None? && !accepted then was else PassOf(env, d, was, replies, uid, now)
    ensures Fails(env, d, old(AsSets(sets)), replies) ==> r.Err?
    ensures !Fails(env, d, old(AsSets(sets)), replies) ==>
      var was := old(AsSets(sets));
      if PassOf(env, d, was, replies, uid, now) == was then r == Ok(false)
      else if accepted then r == Ok(true) else r.Err?
  {
    var key := StructuralRevision(env.names, d.annotations, d.template);
    var current := CurrentReplicaSet(env, d, sets, key);
    if current.None? {
      r, after := CreateListed(env, d, sets, key, uid, now, accepted);
    } else {
      after := sets;
      r := SyncOrRollOut(env, d, sets, current.value, key, replies, accepted);
    }
  }
}
