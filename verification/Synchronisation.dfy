/**
 What a Deployment pass is for, said on the fields of the Deployment and its ReplicaSets: the current one is
 brought up to the Deployment before anything is scaled, and two passes are enough for that.
 */
module Synchronisation {
  import opened Arith
  import opened DeploymentController
  import opened Reconcile
  import opened Results
  import opened Revision
  import opened Rollout
  import R = Recreate
  import W = Workload

  /* ----- Up to date ----- */

  /** One template is the other with the structural label set to the stamp: same other labels, annotations, init and
      regular containers and everything else. */
  ghost predicate StampedFrom(t: W.Template, from: W.Template, key: string, stamp: string) {
    && key in t.labels && t.labels[key] == stamp && W.SameBut(t.labels, from.labels, {key})
    && W.SameBut(t.annotations, from.annotations, {})
    && t.initContainers == from.initContainers && t.containers == from.containers && t.rest == from.rest
  }

  /** The ReplicaSet says what the Deployment says: its template, unless paused, its minReadySeconds, and the resize
      policy it opted in to or not; and it has so many slots. */
  ghost predicate SaysAs(env: Env, d: Deployment, s: Set, slots: int) {
    && (!d.paused ==> StampedFrom(s.template, d.template, env.names.structuralLabel, env.hash(KeyOf(env, d))))
    && s.minReadySeconds == d.minReadySeconds && s.parallelism == slots
    && (s.policy.resizeResources <==> W.OptedIn(d.annotations))
  }

  /** The slots a pass computes: none while paused, and otherwise all the budget leaves. */
  predicate SlotsFor(d: Deployment, sets: seq<Set>, slots: int) {
    if d.paused then slots == 0
    else FillsBudget(slots, d.strategy, d.desired, Max(d.desired - TotalAvailable(ViewsOf(sets)), 0))
  }

  /** Up to date with respect to the availability that sets report. */
  ghost predicate UpToDate(env: Env, d: Deployment, s: Set, sets: seq<Set>) {
    SlotsFor(d, sets, s.parallelism) && SaysAs(env, d, s, s.parallelism)
  }

  /** Nothing else of a ReplicaSet may be touched by synchronising it; while paused neither may its template. */
  predicate OnlySynced(d: Deployment, s: Set, t: Set) {
    && t.view == s.view && t.revision == s.revision && t.created == s.created && t.selector == s.selector
    && (d.paused ==> t.template == s.template)
  }

  lemma {:induction false} SlotsAre(d: Deployment, sets: seq<Set>, slots: int)
    requires ResolvedFenceposts(d.strategy)
    ensures SlotsFor(d, sets, slots) <==> slots == ParallelismOf(d, sets)
  {
    ParallelismWithinBudget(ViewsOf(sets), d.strategy, d.desired);
  }

  lemma {:induction false} StampedIs(n: W.KeyNames, t: W.Template, from: W.Template, stamp: string)
    ensures StampedFrom(t, from, n.structuralLabel, stamp) <==> t == Stamped(n, from, stamp)
  {
    var key := n.structuralLabel;
    if StampedFrom(t, from, key, stamp) {
      forall k
        ensures W.SameAt(t.labels, Stamped(n, from, stamp).labels, k) && W.SameAt(t.annotations, from.annotations, k)
      {
        assert k != key ==> W.SameAt(t.labels, from.labels, k);
      }
      SameMaps(t.labels, Stamped(n, from, stamp).labels);
      SameMaps(t.annotations, from.annotations);
    }
  }

  lemma {:induction false} SameMaps(a: W.StringMap, b: W.StringMap)
    requires forall k :: W.SameAt(a, b, k)
    ensures a == b
  {
    assert forall k :: k in a <==> k in b by {
      forall k
        ensures k in a <==> k in b
      {
        assert W.SameAt(a, b, k);
      }
    }
    forall k | k in a
      ensures a[k] == b[k]
    {
      assert W.SameAt(a, b, k);
    }
  }

  /** Synchronising leaves a ReplicaSet alone exactly when it is up to date, and makes it so. */
  lemma {:induction false} SyncedIsUpToDate(env: Env, d: Deployment, s: Set, sets: seq<Set>)
    requires ResolvedFenceposts(d.strategy)
    ensures var t := Synced(env, d, s, ParallelismOf(d, sets));
            UpToDate(env, d, t, sets) && OnlySynced(d, s, t) && (t == s <==> UpToDate(env, d, s, sets))
  {
    var t := Synced(env, d, s, ParallelismOf(d, sets));
    SlotsAre(d, sets, s.parallelism);
    SlotsAre(d, sets, t.parallelism);
    W.PolicyFollowsAnnotation(d.annotations);
    StampedIs(env.names, s.template, d.template, env.hash(KeyOf(env, d)));
    StampedIs(env.names, t.template, d.template, env.hash(KeyOf(env, d)));
  }

  /* ----- The current ReplicaSet ----- */

  /** The ReplicaSet at c is the first labelled with the Deployment's revision; or none is, the Deployment is paused,
      and it is the first of the youngest. */
  ghost predicate IsCurrent(env: Env, d: Deployment, sets: seq<Set>, c: nat) {
    && c < |sets|
    && if sets[c].revision == KeyOf(env, d) then forall i :: 0 <= i < c ==> sets[i].revision != KeyOf(env, d)
       else
         && d.paused
         && (forall i :: 0 <= i < |sets| ==> sets[i].revision != KeyOf(env, d) && sets[i].created <= sets[c].created)
         && forall i :: 0 <= i < c ==> sets[i].created < sets[c].created
  }

  lemma {:induction false} CurrentIs(env: Env, d: Deployment, sets: seq<Set>, c: nat)
    ensures Current(env, d, sets) == Some(c) <==> IsCurrent(env, d, sets, c)
  {
    if IsCurrent(env, d, sets, c) {
      if sets[c].revision == KeyOf(env, d) {
        FirstLabelledIs(sets, KeyOf(env, d), c);
      } else {
        FirstLabelledIs(sets, KeyOf(env, d), |sets|);
        NewestIs(sets, c);
      }
    }
  }

  /** There is none exactly when none is labelled and the Deployment is not paused or has no ReplicaSet at all. */
  lemma {:induction false} NoCurrent(env: Env, d: Deployment, sets: seq<Set>)
    ensures Current(env, d, sets).None? <==>
            (forall i :: 0 <= i < |sets| ==> sets[i].revision != KeyOf(env, d)) && (!d.paused || sets == [])
  {
    if forall i :: 0 <= i < |sets| ==> sets[i].revision != KeyOf(env, d) {
      FirstLabelledIs(sets, KeyOf(env, d), |sets|);
    }
  }

  /* ----- One pass ----- */

  /** A new ReplicaSet asks for nothing and may update nothing; its selector and its template are the Deployment's,
      both stamped with the revision. */
  ghost predicate NewFor(env: Env, d: Deployment, s: Set, uid: nat, now: int) {
    var key, stamp := env.names.structuralLabel, env.hash(KeyOf(env, d));
    && s.view == View(uid, 0, 0, 0, 0) && s.revision == KeyOf(env, d) && s.created == now && s.parallelism == 0
    && d.selector.Some? && key in s.selector && s.selector[key] == stamp && W.SameBut(s.selector, d.selector.value, {key})
    && StampedFrom(s.template, d.template, key, stamp)
    && s.minReadySeconds == d.minReadySeconds && (s.policy.resizeResources <==> W.OptedIn(d.annotations))
  }

  lemma {:induction false} CreatedIsNew(env: Env, d: Deployment, uid: nat, now: int)
    requires d.selector.Some?
    ensures NewFor(env, d, Created(env, d, uid, now), uid, now)
  {
    W.PolicyFollowsAnnotation(d.annotations);
    StampedIs(env.names, Created(env, d, uid, now).template, d.template, env.hash(KeyOf(env, d)));
  }

  /** The rollout step on whole ReplicaSets: at most one replica count moves, as the strategy decides with the Pods
      that are listed; nothing moves when they are needed and the listing failed. */
  ghost predicate RollsOut(d: Deployment, sets: seq<Set>, after: seq<Set>, c: nat, listing: Result<seq<R.PhasedPod>>)
    requires c < |sets|
  {
    && |after| == |sets|
    && (forall i :: 0 <= i < |sets| ==> after[i] == sets[i].(view := sets[i].view.(replicas := after[i].view.replicas)))
    && (d.strategy.Recreate? && listing.Err? && NeedsPods(sets, c) ==> after == sets)
    && (!(d.strategy.Recreate? && listing.Err? && NeedsPods(sets, c)) ==>
          var decision := RolloutDecision(ViewsOf(sets), c, d.strategy, d.desired, ListedPods(listing));
          (decision.Scale? ==> decision.index < |sets|) && ViewsOf(after) == Apply(ViewsOf(sets), decision))
  }

  /** There is an old ReplicaSet, and none asks for replicas or reports a Pod: only then are the Pods listed. */
  ghost predicate NeedsPods(sets: seq<Set>, c: nat)
    requires c < |sets|
  {
    && (exists i :: 0 <= i < |sets| && sets[i].view.uid != sets[c].view.uid)
    && (forall i :: 0 <= i < |sets| && sets[i].view.uid != sets[c].view.uid ==> sets[i].view.replicas <= 0)
    && TotalOldObserved(ViewsOf(sets), sets[c].view.uid) <= 0
  }

  lemma {:induction false} ListingIsNeeded(sets: seq<Set>, c: nat, s: Strategy, listing: Result<seq<R.PhasedPod>>)
    requires c < |sets|
    ensures ListingFails(ViewsOf(sets), c, s, listing) <==> s.Recreate? && listing.Err? && NeedsPods(sets, c)
  {
    var vs := ViewsOf(sets);
    var uid := sets[c].view.uid;
    assert R.FirstOld(vs, c, 0) == |vs| <==>
           forall i :: 0 <= i < |sets| && sets[i].view.uid != uid ==> sets[i].view.replicas <= 0 by {
      assert forall i :: 0 <= i < |sets| ==> vs[i] == sets[i].view;
    }
    assert NeedsListing(vs, c) <==>
      && TotalOldObserved(vs, vs[c].uid) <= 0
      && exists i :: 0 <= i < |sets| && sets[i].view.uid != sets[c].view.uid;
  }

  /** One pass, whatever the Deployment and its ReplicaSets. Without a current ReplicaSet it creates one, if there is
      a selector. One that is not up to date is brought up to date, and nothing else changes, no replica count either.
      Only with it up to date, and unless paused or the status is refused, the rollout goes on. */
  ghost predicate PassedOver(env: Env, d: Deployment, sets: seq<Set>, after: seq<Set>, replies: Replies, uid: nat, now: int) {
    && ((forall c: nat :: !IsCurrent(env, d, sets, c)) ==>
          if d.selector.Some? then |after| == |sets| + 1 && after[..|sets|] == sets && NewFor(env, d, after[|sets|], uid, now)
          else after == sets)
    && forall c: nat :: IsCurrent(env, d, sets, c) ==>
         if !UpToDate(env, d, sets[c], sets) then
           && |after| == |sets| && after == sets[c := after[c]]
           && UpToDate(env, d, after[c], sets) && OnlySynced(d, sets[c], after[c])
         else if d.paused || !replies.statusTaken then after == sets
         else RollsOut(d, sets, after, c, replies.listing)
  }

  lemma {:induction false} ScaledRollsOut(d: Deployment, sets: seq<Set>, c: nat, listing: Result<seq<R.PhasedPod>>)
    requires c < |sets|
    ensures RollsOut(d, sets, Scaled(sets, DecisionWith(sets, c, d, listing)), c, listing)
  {
    ListingIsNeeded(sets, c, d.strategy, listing);
    var decision := DecisionWith(sets, c, d, listing);
    DecisionChanges(ViewsOf(sets), c, d.strategy, d.desired, ListedPods(listing));
    assert ViewsOf(Scaled(sets, decision)) == Apply(ViewsOf(sets), decision);
  }

  lemma {:induction false} PassIsFaithful(env: Env, d: Deployment, sets: seq<Set>, replies: Replies, uid: nat, now: int)
    requires ResolvedFenceposts(d.strategy)
    ensures PassedOver(env, d, sets, PassOf(env, d, sets, replies, uid, now), replies, uid, now)
  {
    forall c: nat
      ensures Current(env, d, sets) == Some(c) <==> IsCurrent(env, d, sets, c)
    {
      CurrentIs(env, d, sets, c);
    }
    match Current(env, d, sets)
    case None =>
      if d.selector.Some? {
        CreatedIsNew(env, d, uid, now);
      }
    case Some(c) =>
      assert IsCurrent(env, d, sets, c);
      SyncedIsUpToDate(env, d, sets[c], sets);
      ScaledRollsOut(d, sets, c, replies.listing);
  }

  /** When a pass is an error: no ReplicaSet can be created without a selector; and once the current one is up to
      date, a refused status, or a failed listing that is needed, ends it without a change. */
  lemma {:induction false} FailsExactly(env: Env, d: Deployment, sets: seq<Set>, replies: Replies, c: nat)
    requires ResolvedFenceposts(d.strategy)
    ensures (forall k: nat :: !IsCurrent(env, d, sets, k)) ==> (Fails(env, d, sets, replies) <==> d.selector.None?)
    ensures IsCurrent(env, d, sets, c) ==>
      (Fails(env, d, sets, replies) <==>
        && UpToDate(env, d, sets[c], sets)
        && (|| !replies.statusTaken
            || (!d.paused && d.strategy.Recreate? && replies.listing.Err? && NeedsPods(sets, c))))
  {
    forall k: nat
      ensures Current(env, d, sets) == Some(k) <==> IsCurrent(env, d, sets, k)
    {
      CurrentIs(env, d, sets, k);
    }
    if IsCurrent(env, d, sets, c) {
      SyncedIsUpToDate(env, d, sets[c], sets);
      ListingIsNeeded(sets, c, d.strategy, replies.listing);
    }
  }

  /* ----- Two passes ----- */

  /** Which ReplicaSet is current depends on revisions and times of creation only. */
  lemma {:induction false} CurrentIsByLabels(env: Env, d: Deployment, a: seq<Set>, b: seq<Set>)
    requires |a| == |b| && forall i :: 0 <= i < |a| ==> a[i].revision == b[i].revision && a[i].created == b[i].created
    ensures Current(env, d, a) == Current(env, d, b)
  {
    if Current(env, d, a).Some? {
      var c := Current(env, d, a).value;
      CurrentIs(env, d, a, c);
      CurrentIs(env, d, b, c);
    } else {
      NoCurrent(env, d, a);
      NoCurrent(env, d, b);
    }
  }

  lemma {:induction false} PassKeepsLabels(env: Env, d: Deployment, sets: seq<Set>, replies: Replies, uid: nat, now: int)
    requires Current(env, d, sets).Some?
    ensures var after := PassOf(env, d, sets, replies, uid, now);
      && |after| == |sets|
      && forall i :: 0 <= i < |sets| ==> after[i].revision == sets[i].revision && after[i].created == sets[i].created
  {
  }

  /** A pass keeps the current ReplicaSet current, or makes the one it creates so. */
  lemma {:induction false} StaysCurrent(env: Env, d: Deployment, sets: seq<Set>, replies: Replies, uid: nat, now: int)
    requires d.selector.Some? || Current(env, d, sets).Some?
    ensures var current := Current(env, d, sets);
            Current(env, d, PassOf(env, d, sets, replies, uid, now)) == Some(if current.Some? then current.value else |sets|)
  {
    var after := PassOf(env, d, sets, replies, uid, now);
    if Current(env, d, sets).None? {
      NoCurrent(env, d, sets);
      FirstLabelledIs(after, KeyOf(env, d), |sets|);
    } else {
      PassKeepsLabels(env, d, sets, replies, uid, now);
      CurrentIsByLabels(env, d, sets, after);
    }
  }

  /** After two accepted passes over a Deployment that did not change meanwhile, its current ReplicaSet is up to date
      with it: template, minReadySeconds, policy and the slots of what the second pass read. */
  lemma {:induction false} TwoPassesBringUpToDate(env: Env, d: Deployment, sets: seq<Set>, first: Replies, second: Replies,
                                                  uid: nat, other: nat, now: int, later: int)
    requires ResolvedFenceposts(d.strategy) && (d.selector.Some? || Current(env, d, sets).Some?)
    ensures var middle := PassOf(env, d, sets, first, uid, now);
            var after := PassOf(env, d, middle, second, other, later);
            exists c: nat :: IsCurrent(env, d, after, c) && UpToDate(env, d, after[c], middle)
  {
    var middle := PassOf(env, d, sets, first, uid, now);
    var after := PassOf(env, d, middle, second, other, later);
    StaysCurrent(env, d, sets, first, uid, now);
    StaysCurrent(env, d, middle, second, other, later);
    var c := Current(env, d, middle).value;
    CurrentIs(env, d, middle, c);
    CurrentIs(env, d, after, c);
    PassIsFaithful(env, d, middle, second, other, later);
    if UpToDate(env, d, middle[c], middle) && !d.paused && second.statusTaken {
      assert RollsOut(d, middle, after, c, second.listing);
    }
  }
}
