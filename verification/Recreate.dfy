/**
 The Recreate policy as a mutual-exclusion protocol over live Pods: in every run at most one ReplicaSet
 asks for replicas or owns a Pod that may still be running.
 */
module Recreate {
  import opened Rollout
  import opened RolloutRuns

  datatype Phase = Pending | Running | Succeeded | Failed

  /** A Pod of the namespace: its controller (if any), whether the Deployment's selector matches it,
      whether it is being deleted, and its phase. */
  datatype PhasedPod = PhasedPod(controlled: bool, owner: nat, selected: bool, deleting: bool, phase: Phase)

  predicate Terminal(p: PhasedPod) { p.phase == Succeeded || p.phase == Failed }

  predicate Active(p: PhasedPod) { !Terminal(p) && !p.deleting }

  /** A Pod that may still run on behalf of the ReplicaSet uid. */
  predicate RunsFor(p: PhasedPod, uid: nat) { p.controlled && p.owner == uid && !Terminal(p) }

  /** The uid belongs to a ReplicaSet other than the current one. */
  predicate IsOldUid(vs: seq<View>, c: nat, uid: nat)
    requires c < |vs|
  {
    exists i :: 0 <= i < |vs| && vs[i].uid == uid && vs[i].uid != vs[c].uid
  }

  /** A listed Pod that keeps the new revision waiting. */
  predicate Blocks(vs: seq<View>, c: nat, p: PhasedPod)
    requires c < |vs|
  {
    p.selected && p.controlled && IsOldUid(vs, c, p.owner) && !Terminal(p)
  }

  /** Old Pods are reported, or listed, as possibly running. */
  predicate OldPodsRunning(vs: seq<View>, c: nat, pods: seq<PhasedPod>)
    requires c < |vs|
  {
    || TotalOldObserved(vs, vs[c].uid) > 0
    || exists k :: 0 <= k < |pods| && Blocks(vs, c, pods[k])
  }

  /** The first old ReplicaSet from i on that still asks for replicas, or |vs|. */
  function FirstOld(vs: seq<View>, c: nat, i: nat): (r: nat)
    requires c < |vs| && i <= |vs|
    ensures i <= r <= |vs|
    ensures r < |vs| ==> vs[r].uid != vs[c].uid && vs[r].replicas > 0
    ensures forall k :: i <= k < r ==> vs[k].uid == vs[c].uid || vs[k].replicas <= 0
    decreases |vs| - i
  {
    if i == |vs| then i
    else if vs[i].uid != vs[c].uid && vs[i].replicas > 0 then i
    else FirstOld(vs, c, i + 1)
  }

  /** The decision of one Recreate pass. */
  function RecreateDecision(vs: seq<View>, c: nat, pods: seq<PhasedPod>, desired: int): Decision
    requires c < |vs|
  {
    var i := FirstOld(vs, c, 0);
    if i < |vs| then
      Scale(i, 0)
    else if TotalOld(vs, vs[c].uid) == 0 && !OldPodsRunning(vs, c, pods) then
      if vs[c].replicas == desired then Keep else Scale(c, desired)
    else
      Keep
  }

  /* ----- What a pass waits for ----- */

  /** No old ReplicaSet reports a Pod, and every listed Pod that one controls and the Deployment selects has
      succeeded or failed. */
  ghost predicate NoOldPods(vs: seq<View>, c: nat, pods: seq<PhasedPod>)
    requires c < |vs|
  {
    && (forall i :: 0 <= i < |vs| && i != c ==> vs[i].observed == 0 && vs[i].terminating == 0)
    && forall i, k :: 0 <= i < |vs| && i != c && 0 <= k < |pods| && pods[k].owner == vs[i].uid ==>
         pods[k].controlled && pods[k].selected ==> pods[k].phase in {Succeeded, Failed}
  }

  /** Reported numbers of Pods are never negative. */
  ghost predicate CountsReported(vs: seq<View>) {
    forall i :: 0 <= i < |vs| ==> vs[i].observed >= 0 && vs[i].terminating >= 0
  }

  lemma {:induction false} ReportedSum(vs: seq<View>, c: nat)
    requires c < |vs| && DistinctUids(vs) && CountsReported(vs)
    ensures TotalOldObserved(vs, vs[c].uid) > 0 <==>
            exists i :: 0 <= i < |vs| && i != c && (vs[i].observed > 0 || vs[i].terminating > 0)
  {
    var f := OldOnly(Observed, vs[c].uid);
    forall k | 0 <= k < |vs|
      ensures f(vs[k]) == if k == c then 0 else vs[k].observed + vs[k].terminating
    {
      assert Observed(vs[k]) == vs[k].observed + vs[k].terminating;
    }
    if i: nat :| i < |vs| && i != c && (vs[i].observed > 0 || vs[i].terminating > 0) {
      SumAtLeastTerm(vs, f, i);
    } else {
      SumOfZero(vs, f);
    }
  }

  /** What the controller looks for means that some old Pod may still run. */
  lemma {:induction false} OldPodsMean(vs: seq<View>, c: nat, pods: seq<PhasedPod>)
    requires c < |vs| && DistinctUids(vs) && CountsReported(vs)
    ensures OldPodsRunning(vs, c, pods) <==> !NoOldPods(vs, c, pods)
  {
    ReportedSum(vs, c);
    forall k | 0 <= k < |pods|
      ensures Blocks(vs, c, pods[k]) <==>
        && pods[k].controlled && pods[k].selected && pods[k].phase !in {Succeeded, Failed}
        && exists i :: 0 <= i < |vs| && i != c && pods[k].owner == vs[i].uid
    {
      if i: nat :| i < |vs| && i != c && pods[k].owner == vs[i].uid {
        assert vs[i].uid != vs[c].uid;
      }
    }
  }

  /** Every case of one pass: the first old ReplicaSet, in listed order, that asks for replicas goes to zero;
      without one, while an old Pod may run nothing changes; and otherwise the current one goes to desired. */
  lemma {:induction false} RecreateIsExact(vs: seq<View>, c: nat, pods: seq<PhasedPod>, desired: int)
    requires c < |vs| && DistinctUids(vs) && NonNegative(vs) && CountsReported(vs)
    ensures var ws := Apply(vs, RecreateDecision(vs, c, pods, desired));
      && (forall i :: 0 <= i < |vs| && i != c && vs[i].replicas > 0
                      && (forall j :: 0 <= j < i && j != c ==> vs[j].replicas == 0) ==>
            ws == vs[i := vs[i].(replicas := 0)])
      && ((forall i :: 0 <= i < |vs| && i != c ==> vs[i].replicas == 0) ==>
            ws == if NoOldPods(vs, c, pods) then vs[c := vs[c].(replicas := desired)] else vs)
  {
    OldPodsMean(vs, c, pods);
    var first := FirstOld(vs, c, 0);
    if forall i :: 0 <= i < |vs| && i != c ==> vs[i].replicas == 0 {
      OldAtZero(vs, c);
    } else {
      forall i: nat | i < |vs| && i != c && vs[i].replicas > 0 && forall j :: 0 <= j < i && j != c ==> vs[j].replicas == 0
        ensures first == i
      {
        assert vs[i].uid != vs[c].uid;
      }
    }
  }

  /** With no old Pod left, a pass changes nothing exactly when the rollout is settled. */
  lemma {:induction false} NoDeadlockWithoutOldPods(vs: seq<View>, c: nat, pods: seq<PhasedPod>, desired: nat)
    requires c < |vs| && DistinctUids(vs) && NonNegative(vs) && NoOldPods(vs, c, pods)
    ensures RecreateDecision(vs, c, pods, desired) == Keep <==> Settled(vs, c, Limits(desired, 0, 0))
  {
    SettledMeansNothingRemains(vs, c, Limits(desired, 0, 0));
    OldSpecNonNegative(vs, vs[c].uid);
    NoneBlocks(vs, c, pods);
    if FirstOld(vs, c, 0) == |vs| {
      NoOldAsks(vs, c);
    }
  }

  lemma {:induction false} NoOldAsks(vs: seq<View>, c: nat)
    requires c < |vs| && DistinctUids(vs) && NonNegative(vs) && FirstOld(vs, c, 0) == |vs|
    ensures TotalOld(vs, vs[c].uid) == 0 && forall i :: 0 <= i < |vs| && i != c ==> vs[i].replicas == 0
  {
    forall i | 0 <= i < |vs| && i != c
      ensures vs[i].replicas == 0
    {
      assert vs[i].uid != vs[c].uid && vs[i].replicas >= 0;
    }
    OldAtZero(vs, c);
  }

  lemma {:induction false} NoneBlocks(vs: seq<View>, c: nat, pods: seq<PhasedPod>)
    requires c < |vs| && NoOldPods(vs, c, pods)
    ensures !OldPodsRunning(vs, c, pods)
  {
    var f := OldOnly(Observed, vs[c].uid);
    forall k | 0 <= k < |vs|
      ensures f(vs[k]) == 0
    {
      assert k != c ==> Observed(vs[k]) == 0;
    }
    SumOfZero(vs, f);
  }

  /* ----- Termination ----- */

  /** Every changing pass strictly lowers what remains; on an old ReplicaSet it leaves nothing asked for, and on the
      current one exactly desired. */
  lemma {:induction false} RecreateMakesProgress(vs: seq<View>, c: nat, pods: seq<PhasedPod>, desired: int)
    requires c < |vs| && DistinctUids(vs) && RecreateDecision(vs, c, pods, desired) != Keep
    ensures var d := RecreateDecision(vs, c, pods, desired);
            var ws := Apply(vs, d);
      && d.index < |vs| && ws[d.index].replicas == (if d.index == c then desired else 0)
      && Remaining(ws, c, desired) < Remaining(vs, c, desired)
  {
    var d := RecreateDecision(vs, c, pods, desired);
    var w := vs[d.index].(replicas := d.replicas);
    assert Spec(w) == d.replicas && Spec(vs[d.index]) == vs[d.index].replicas;
    SumUpdate(vs, OldOnly(Spec, vs[c].uid), d.index, w);
  }

  function Asks(v: View): int { if v.replicas > 0 then 1 else 0 }

  lemma {:induction false} AsksIsCount(vs: seq<View>, uid: nat)
    ensures forall k :: 0 <= k < |vs| ==> OldOnly(Asks, uid)(vs[k]) == if vs[k].uid != uid && vs[k].replicas > 0 then 1 else 0
  {
    forall k | 0 <= k < |vs|
      ensures OldOnly(Asks, uid)(vs[k]) == if vs[k].uid != uid && vs[k].replicas > 0 then 1 else 0
    {
      assert Asks(vs[k]) == if vs[k].replicas > 0 then 1 else 0;
    }
  }

  /** How many old ReplicaSets ask for replicas. */
  function OldAsking(vs: seq<View>, c: nat): (n: nat)
    requires c < |vs|
  {
    AsksIsCount(vs, vs[c].uid);
    SumNonNegative(vs, OldOnly(Asks, vs[c].uid));
    Sum(vs, OldOnly(Asks, vs[c].uid))
  }

  /** The status and the Pods one pass finds. */
  datatype Look = Look(seen: seq<View>, pods: seq<PhasedPod>)

  /** No old Pod is left at any of the passes; the status is otherwise whatever is reported. */
  ghost predicate QuietRun(vs: seq<View>, c: nat, desired: nat, looks: seq<Look>)
    requires c < |vs|
    decreases |looks|
  {
    |looks| == 0 ||
    (var look := looks[0];
     && StatusWrite(vs, look.seen) && NonNegative(look.seen) && NoOldPods(look.seen, c, look.pods)
     && QuietRun(Apply(look.seen, RecreateDecision(look.seen, c, look.pods, desired)), c, desired, looks[1..]))
  }

  ghost function AfterLooks(vs: seq<View>, c: nat, desired: nat, looks: seq<Look>): (ws: seq<View>)
    requires c < |vs| && QuietRun(vs, c, desired, looks)
    ensures |ws| == |vs|
    decreases |looks|
  {
    if |looks| == 0 then vs
    else
      var look := looks[0];
      AfterLooks(Apply(look.seen, RecreateDecision(look.seen, c, look.pods, desired)), c, desired, looks[1..])
  }

  /** One pass of such a run empties one more old ReplicaSet, or settles the rollout. */
  lemma {:induction false} QuietStep(vs: seq<View>, c: nat, pods: seq<PhasedPod>, desired: nat)
    requires c < |vs| && DistinctUids(vs) && NonNegative(vs) && NoOldPods(vs, c, pods)
    ensures var ws := Apply(vs, RecreateDecision(vs, c, pods, desired));
      && DistinctUids(ws) && NonNegative(ws)
      && (OldAsking(vs, c) > 0 ==> OldAsking(ws, c) == OldAsking(vs, c) - 1)
      && (OldAsking(vs, c) == 0 ==> Settled(ws, c, Limits(desired, 0, 0)))
  {
    var f := OldOnly(Asks, vs[c].uid);
    NoneBlocks(vs, c, pods);
    AsksIsCount(vs, vs[c].uid);
    var i := FirstOld(vs, c, 0);
    if i < |vs| {
      var v := vs[i].(replicas := 0);
      AsksIsCount([v], vs[c].uid);
      assert f([v][0]) == 0;
      SumAtLeastTerm(vs, f, i);
      SumUpdate(vs, f, i, v);
    } else {
      NoOldAsks(vs, c);
      SumOfZero(vs, f);
    }
  }

  lemma {:induction false} AskingIsBySpec(vs: seq<View>, ws: seq<View>, c: nat)
    requires c < |vs| && StatusWrite(vs, ws)
    ensures OldAsking(ws, c) == OldAsking(vs, c)
  {
    var f := OldOnly(Asks, vs[c].uid);
    forall i | 0 <= i < |vs|
      ensures f(vs[i]) == f(ws[i])
    {
      assert Asks(vs[i]) == Asks(ws[i]);
    }
    SumSame(vs, ws, f);
  }

  /** Recreate converges: once old Pods have gone, one pass for each old ReplicaSet that still asks for replicas and
      one more leave the current one asking for desired and every old one for zero, and so do any more. */
  lemma {:induction false} RecreateConverges(vs: seq<View>, c: nat, desired: nat, looks: seq<Look>)
    requires c < |vs| && DistinctUids(vs) && QuietRun(vs, c, desired, looks) && |looks| >= OldAsking(vs, c) + 1
    ensures Settled(AfterLooks(vs, c, desired, looks), c, Limits(desired, 0, 0))
    decreases |looks|
  {
    var look := looks[0];
    var next := Apply(look.seen, RecreateDecision(look.seen, c, look.pods, desired));
    AskingIsBySpec(vs, look.seen, c);
    QuietStep(look.seen, c, look.pods, desired);
    if |looks| > 1 {
      if OldAsking(vs, c) == 0 {
        SettledAsksNothing(next, c, desired);
      }
      RecreateConverges(next, c, desired, looks[1..]);
    }
  }

  lemma {:induction false} SettledAsksNothing(vs: seq<View>, c: nat, desired: nat)
    requires c < |vs| && Settled(vs, c, Limits(desired, 0, 0))
    ensures OldAsking(vs, c) == 0
  {
    var f := OldOnly(Asks, vs[c].uid);
    forall i | 0 <= i < |vs|
      ensures f(vs[i]) == 0
    {
      assert i != c ==> Asks(vs[i]) == 0;
    }
    SumOfZero(vs, f);
  }

  /* ----- Runs ----- */

  datatype State = State(sets: seq<View>, pods: seq<PhasedPod>)

  datatype Event =
    | DeploymentPass(c: nat, desired: nat)        // any template, revision and size: c is any ReplicaSet
    | Create(i: nat, read: int, phases: seq<Phase>) // ReplicaSet i creates Pods for the spec it read
    | Delete(k: nat)                              // Pod k is asked to terminate
    | Leave(k: nat)                               // Pod k, being deleted, leaves the API
    | Finish(k: nat, phase: Phase)                // Pod k succeeds or fails
    | Report(i: nat, available: int, observed: int, terminating: int) // any status at all
    | NewReplicaSet(uid: nat)

  function ActiveCount(pods: seq<PhasedPod>, uid: nat): nat {
    if pods == [] then 0
    else ActiveCount(pods[1..], uid) + if RunsFor(pods[0], uid) && Active(pods[0]) then 1 else 0
  }

  /** The Pods that may still run on behalf of uid. */
  function RunningCount(pods: seq<PhasedPod>, uid: nat): nat {
    if pods == [] then 0
    else RunningCount(pods[1..], uid) + if RunsFor(pods[0], uid) then 1 else 0
  }

  lemma {:induction false} CountsStep(pods: seq<PhasedPod>, uid: nat, i: nat)
    requires i < |pods|
    ensures ActiveCount(pods[..i + 1], uid) ==
            ActiveCount(pods[..i], uid) + if RunsFor(pods[i], uid) && Active(pods[i]) then 1 else 0
    ensures RunningCount(pods[..i + 1], uid) == RunningCount(pods[..i], uid) + if RunsFor(pods[i], uid) then 1 else 0
  {
    if i > 0 {
      CountsStep(pods[1..], uid, i - 1);
      assert pods[..i + 1][1..] == pods[1..][..i] && pods[..i][1..] == pods[1..][..i - 1];
    }
  }

  function OnlyActive(pods: seq<PhasedPod>): seq<PhasedPod> {
    if pods == [] then []
    else OnlyActive(pods[..|pods| - 1]) + if Active(pods[|pods| - 1]) then [pods[|pods| - 1]] else []
  }

  /** The active Pods are those pending or running that are not being deleted. */
  lemma {:induction false} ActiveExactly(pods: seq<PhasedPod>, p: PhasedPod)
    ensures p in OnlyActive(pods) <==> p in pods && p.phase in {Pending, Running} && !p.deleting
  {
    if pods != [] {
      var rest, last := pods[..|pods| - 1], pods[|pods| - 1];
      ActiveExactly(rest, p);
      assert pods == rest + [last];
    }
  }

  /** Splits the claimed Pods of a ReplicaSet: the active ones, in order, and how many are terminating.
      Together they are exactly the Pods that may still run, so the two counts a fresh status reports are
      zero only when none does. */
  method ActiveReplicaSetPods(pods: seq<PhasedPod>, ghost uid: nat) returns (active: seq<PhasedPod>, terminating: nat)
    requires forall k :: 0 <= k < |pods| ==> pods[k].controlled && pods[k].owner == uid
    ensures active == OnlyActive(pods) && |active| == ActiveCount(pods, uid)
    ensures |active| + terminating == RunningCount(pods, uid)
  {
    active, terminating := [], 0;
    for i := 0 to |pods|
      invariant |active| == ActiveCount(pods[..i], uid)
      invariant |active| + terminating == RunningCount(pods[..i], uid)
      invariant active == OnlyActive(pods[..i])
    {
      CountsStep(pods, uid, i);
      assert pods[..i + 1][..i] == pods[..i];
      if pods[i].phase == Succeeded || pods[i].phase == Failed {
        continue;
      }
      if pods[i].deleting {
        terminating := terminating + 1;
      } else {
        active := active + [pods[i]];
      }
    }
    assert pods[..|pods|] == pods;
  }

  lemma {:induction false} NoneRunning(pods: seq<PhasedPod>, uid: nat)
    ensures RunningCount(pods, uid) == 0 <==> forall k :: 0 <= k < |pods| ==> !RunsFor(pods[k], uid)
  {
    if pods != [] {
      NoneRunning(pods[1..], uid);
      if forall k :: 0 <= k < |pods| ==> !RunsFor(pods[k], uid) {
        assert !RunsFor(pods[0], uid);
        forall k | 0 <= k < |pods[1..]|
          ensures !RunsFor(pods[1..][k], uid)
        {
          assert pods[1..][k] == pods[k + 1];
        }
      }
      if RunningCount(pods, uid) == 0 {
        forall k | 0 <= k < |pods|
          ensures !RunsFor(pods[k], uid)
        {
          assert k > 0 ==> pods[k] == pods[1..][k - 1];
        }
      }
    }
  }

  predicate Enabled(s: State, e: Event) {
    match e
    case DeploymentPass(c, _) => c < |s.sets|
    case Create(i, read, phases) =>
      i < |s.sets| && (phases != [] ==> |phases| <= read - ActiveCount(s.pods, s.sets[i].uid))
    case Delete(k) => k < |s.pods|
    case Leave(k) => k < |s.pods|
    case Finish(k, phase) => k < |s.pods| && phase in {Succeeded, Failed}
    case Report(i, _, _, _) => i < |s.sets|
    case NewReplicaSet(uid) =>
      && (forall i :: 0 <= i < |s.sets| ==> s.sets[i].uid != uid)
      && (forall k :: 0 <= k < |s.pods| ==> !RunsFor(s.pods[k], uid))
  }

  function NewPods(uid: nat, phases: seq<Phase>): (ps: seq<PhasedPod>)
    ensures |ps| == |phases|
  {
    seq(|phases|, k requires 0 <= k < |phases| => PhasedPod(true, uid, true, false, phases[k]))
  }

  function Next(s: State, e: Event): State
    requires Enabled(s, e)
  {
    match e
    case DeploymentPass(c, desired) => s.(sets := Apply(s.sets, RecreateDecision(s.sets, c, s.pods, desired)))
    case Create(i, _, phases) => s.(pods := s.pods + NewPods(s.sets[i].uid, phases))
    case Delete(k) => s.(pods := s.pods[k := s.pods[k].(deleting := true)])
    case Leave(k) => s.(pods := s.pods[..k] + s.pods[k + 1..])
    case Finish(k, phase) => s.(pods := s.pods[k := s.pods[k].(phase := phase)])
    case Report(i, a, o, t) =>
      s.(sets := s.sets[i := s.sets[i].(available := a, observed := o, terminating := t)])
    case NewReplicaSet(uid) => s.(sets := s.sets + [View(uid, 0, 0, 0, 0)])
  }

  /* ----- Mutual exclusion ----- */

  ghost predicate Live(s: State, i: nat)
    requires i < |s.sets|
  {
    s.sets[i].replicas > 0 || exists k :: 0 <= k < |s.pods| && RunsFor(s.pods[k], s.sets[i].uid)
  }

  ghost predicate Exclusive(s: State) {
    && DistinctUids(s.sets)
    && (forall i :: 0 <= i < |s.sets| ==> s.sets[i].replicas >= 0)
    && (forall k :: 0 <= k < |s.pods| && s.pods[k].controlled ==> s.pods[k].selected)
    && forall i, j :: 0 <= i < j < |s.sets| ==> !(Live(s, i) && Live(s, j))
  }

  ghost predicate OthersLive(s: State, i: nat)
    requires i < |s.sets|
  {
    exists j :: 0 <= j < |s.sets| && j != i && Live(s, j)
  }

  /** A create pass on whatever spec it read is harmless: none of its Pods may run, or its ReplicaSet is live
      already, or no other one is. */
  ghost predicate Harmless(s: State, e: Event)
    requires Enabled(s, e)
  {
    e.Create? ==> (forall k :: 0 <= k < |e.phases| ==> e.phases[k] in {Succeeded, Failed}) || Live(s, e.i) || !OthersLive(s, e.i)
  }

  lemma {:induction false} CreatedRun(s: State, e: Event)
    requires Enabled(s, e) && e.Create? && DistinctUids(s.sets)
    ensures var t := Next(s, e);
      && |t.sets| == |s.sets|
      && (forall j :: 0 <= j < |s.sets| && j != e.i ==> (Live(t, j) <==> Live(s, j)))
      && (Live(t, e.i) <==> Live(s, e.i) || exists k :: 0 <= k < |e.phases| && e.phases[k] !in {Succeeded, Failed})
  {
    var t, n := Next(s, e), |s.pods|;
    forall j | 0 <= j < |s.sets|
      ensures Live(s, j) ==> Live(t, j)
    {
      if k :| 0 <= k < n && RunsFor(s.pods[k], s.sets[j].uid) {
        assert RunsFor(t.pods[k], t.sets[j].uid);
      }
    }
    forall j | 0 <= j < |s.sets| && Live(t, j)
      ensures Live(s, j) || (j == e.i && exists k :: 0 <= k < |e.phases| && e.phases[k] !in {Succeeded, Failed})
    {
      if s.sets[j].replicas <= 0 {
        var k :| 0 <= k < |t.pods| && RunsFor(t.pods[k], s.sets[j].uid);
        if k < n {
          assert RunsFor(s.pods[k], s.sets[j].uid);
        } else {
          assert t.pods[k] == PhasedPod(true, s.sets[e.i].uid, true, false, e.phases[k - n]);
          assert e.phases[k - n] !in {Succeeded, Failed};
        }
      }
    }
    if k :| 0 <= k < |e.phases| && e.phases[k] !in {Succeeded, Failed} {
      assert RunsFor(t.pods[n + k], t.sets[e.i].uid);
    }
  }

  /** The exact condition for a create pass, fresh or stale: it keeps revisions apart if and only if it is
      harmless. */
  lemma {:induction false} CreateStaysExclusiveExactly(s: State, e: Event)
    requires Exclusive(s) && Enabled(s, e) && e.Create?
    ensures Exclusive(Next(s, e)) <==> Harmless(s, e)
  {
    CreatedRun(s, e);
    var t := Next(s, e);
    if !Harmless(s, e) {
      var j :| 0 <= j < |s.sets| && j != e.i && Live(s, j);
      assert Live(t, e.i) && Live(t, j);
    } else {
      forall i, j | 0 <= i < j < |t.sets|
        ensures !(Live(t, i) && Live(t, j))
      {
        if OthersLive(s, e.i) {
          assert Live(t, i) == Live(s, i) && Live(t, j) == Live(s, j);
        } else {
          assert i == e.i || !Live(t, i);
          assert j == e.i || !Live(t, j);
        }
      }
    }
  }

  /** A pass that read the spec as it is, or creates no more than it asks for now, is harmless. */
  lemma {:induction false} FreshReadIsHarmless(s: State, e: Event)
    requires Exclusive(s) && Enabled(s, e) && (e.Create? ==> e.read <= s.sets[e.i].replicas)
    ensures Harmless(s, e)
  {
  }

  /** A pass makes a ReplicaSet live only when no other one is. */
  lemma {:induction false} DeploymentPassStaysExclusive(s: State, c: nat, desired: nat)
    requires Exclusive(s) && c < |s.sets|
    ensures Exclusive(Next(s, DeploymentPass(c, desired)))
  {
    var t := Next(s, DeploymentPass(c, desired));
    var d := RecreateDecision(s.sets, c, s.pods, desired);
    if d.Scale? {
      forall i | 0 <= i < |s.sets| && (i != c || d.index != c) && Live(t, i)
        ensures Live(s, i)
      {
      }
      if d.index == c {
        forall i | 0 <= i < |s.sets| && i != c
          ensures !Live(s, i)
        {
          assert s.sets[i].uid != s.sets[c].uid;
          if k :| 0 <= k < |s.pods| && RunsFor(s.pods[k], s.sets[i].uid) {
            assert Blocks(s.sets, c, s.pods[k]);
          }
        }
      }
    }
  }

  lemma {:induction false} PodEventStaysExclusive(s: State, e: Event)
    requires Exclusive(s) && Enabled(s, e) && (e.Delete? || e.Leave? || e.Finish?)
    ensures Exclusive(Next(s, e))
  {
    var t := Next(s, e);
    forall i | 0 <= i < |s.sets| && Live(t, i)
      ensures Live(s, i)
    {
      if s.sets[i].replicas <= 0 {
        var k :| 0 <= k < |t.pods| && RunsFor(t.pods[k], s.sets[i].uid);
        var was := if e.Leave? && k >= e.k then k + 1 else k;
        if was < |s.pods| {
          assert RunsFor(s.pods[was], s.sets[i].uid);
        }
      }
    }
  }

  lemma {:induction false} SetEventStaysExclusive(s: State, e: Event)
    requires Exclusive(s) && Enabled(s, e) && (e.Report? || e.NewReplicaSet?)
    ensures Exclusive(Next(s, e))
  {
    var t := Next(s, e);
    forall i | 0 <= i < |s.sets| && Live(t, i)
      ensures Live(s, i)
    {
    }
    if e.NewReplicaSet? {
      assert !Live(t, |s.sets|);
    }
  }

  ghost predicate Possible(s: State, events: seq<Event>)
    decreases |events|
  {
    events == [] ||
    (Enabled(s, events[0]) && Harmless(s, events[0]) && Possible(Next(s, events[0]), events[1..]))
  }

  ghost function After(s: State, events: seq<Event>): State
    requires Possible(s, events)
    decreases |events|
  {
    if events == [] then s else After(Next(s, events[0]), events[1..])
  }

  /** Recreate never overlaps revisions: over any run, through template flips, rollbacks, scaling, new
      ReplicaSets, arbitrarily wrong status counts and create passes on old copies of a spec that are harmless,
      at most one ReplicaSet is live. */
  lemma {:induction false} RevisionsNeverOverlap(s: State, events: seq<Event>)
    requires Exclusive(s) && Possible(s, events)
    ensures Exclusive(After(s, events))
    decreases |events|
  {
    if events != [] {
      match events[0] {
        case DeploymentPass(c, desired) => DeploymentPassStaysExclusive(s, c, desired);
        case Report(_, _, _, _) => SetEventStaysExclusive(s, events[0]);
        case NewReplicaSet(_) => SetEventStaysExclusive(s, events[0]);
        case Create(_, _, _) => CreateStaysExclusiveExactly(s, events[0]);
        case _ => PodEventStaysExclusive(s, events[0]);
      }
      RevisionsNeverOverlap(Next(s, events[0]), events[1..]);
    }
  }

  /** Such a pass exists: acting on a spec read before the scale-down, a ReplicaSet creates a Pod of the old
      revision next to the new one. */
  lemma {:induction false} StaleReadOverlaps()
    ensures var s := State([View(1, 0, 0, 0, 0), View(2, 3, 0, 0, 0)], []);
            var e := Create(0, 1, [Running]);
            Exclusive(s) && Enabled(s, e) && e.read > s.sets[e.i].replicas && !Exclusive(Next(s, e))
  {
    var s := State([View(1, 0, 0, 0, 0), View(2, 3, 0, 0, 0)], []);
    var t := Next(s, Create(0, 1, [Running]));
    assert RunsFor(t.pods[0], 1);
    assert Live(t, 0) && Live(t, 1);
  }
}
