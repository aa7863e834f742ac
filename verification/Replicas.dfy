/** Keeping the number of Pods: one capped create or delete pass of a ReplicaSet, and runs of passes. */
module Replicas {
  import opened Arith
  import opened Counting
  import opened SlowStart
  import opened Sorting

  const BURST_REPLICAS := 500
  const SLOW_START_INITIAL_BATCH_SIZE := 1

  /** An active Pod: its identity, its place in the upstream deletion order (lower goes first, equal
      places are equally preferred) and whether it is available. */
  datatype RankedPod = RankedPod(uid: nat, rank: int, available: bool)

  function Rank(p: RankedPod): int { p.rank }

  function Uids(pods: seq<RankedPod>): set<nat> {
    set p | p in pods :: p.uid
  }

  ghost predicate DistinctPods(pods: seq<RankedPod>) {
    forall i, j :: 0 <= i < j < |pods| ==> pods[i].uid != pods[j].uid
  }

  /** The API server's active Pods of the ReplicaSet. */
  class Server {
    var live: set<nat>

    constructor (live: set<nat>)
      ensures this.live == live
    {
      this.live := live;
    }

    /** A Pod that is already gone is not an error. */
    method Delete(uid: nat, accepted: bool) returns (failed: bool)
      modifies this
      ensures failed == !accepted
      ensures live == if accepted then old(live) - {uid} else old(live)
    {
      if accepted {
        live := live - {uid};
      }
      return !accepted;
    }

    method Create(uids: set<nat>)
      modifies this
      ensures live == old(live) + uids
    {
      live := live + uids;
    }
  }

  /** The (changed, error) pair of a pass. */
  datatype Reply = Reply(changed: bool, failed: bool)

  /** Sorts the Pods in place into the upstream deletion order. */
  method SortForDeletion(pods: array<RankedPod>)
    modifies pods
    ensures pods[..] == StableSort(old(pods[..]), Rank)
  {
    var sorted := StableSort(pods[..], Rank);
    forall i | 0 <= i < pods.Length {
      pods[i] := sorted[i];
    }
  }

  /** Deletes the first k Pods, up to the first call that the API server refuses. */
  method DeleteFirst(server: Server, pods: array<RankedPod>, k: nat, refusedAt: nat) returns (failed: bool)
    requires k <= pods.Length
    modifies server
    ensures failed <==> refusedAt < k
    ensures server.live == old(server.live) - Uids(pods[..Min(k, refusedAt)])
  {
    for i := 0 to k
      invariant i <= refusedAt
      invariant server.live == old(server.live) - Uids(pods[..i])
    {
      failed := server.Delete(pods[i].uid, i != refusedAt);
      if failed {
        return true;
      }
      assert pods[..i + 1] == pods[..i] + [pods[i]];
    }
    return false;
  }

  /** The active count after a pass in which no call failed. */
  function Pass(active: int, desired: int): int {
    if active < desired then active + Min(desired - active, BURST_REPLICAS)
    else active - Min(active - desired, BURST_REPLICAS)
  }

  /** The Pods listed are the live ones. */
  ghost predicate Listed(live: set<nat>, pods: seq<RankedPod>) {
    DistinctPods(pods) && Uids(pods) == live
  }

  /** The live Pods after a pass in which no call failed: names are the Pods it created. */
  function LivePass(live: set<nat>, pods: seq<RankedPod>, desired: nat, names: set<nat>): set<nat> {
    if |pods| < desired then live + names
    else live - Uids(StableSort(pods, Rank)[..Min(|pods| - desired, BURST_REPLICAS)])
  }

  /** What a pass may be about to do: the Pods it creates are new ones, as many as are missing within the burst
      limit. */
  ghost predicate Creates(live: set<nat>, pods: seq<RankedPod>, desired: nat, names: set<nat>) {
    desired > |pods| ==> names !! live && |names| == Min(desired - |pods|, BURST_REPLICAS)
  }

  /** A pass over the live Pods moves their number towards desired, by at most 500. */
  lemma {:induction false} LivePassSize(live: set<nat>, pods: seq<RankedPod>, desired: nat, names: set<nat>)
    requires Listed(live, pods) && Creates(live, pods, desired, names)
    ensures |LivePass(live, pods, desired, names)| ==
            if |live| < desired then |live| + Min(desired - |live|, 500) else |live| - Min(|live| - desired, 500)
    ensures |live| == desired ==> LivePass(live, pods, desired, names) == live
  {
    CountUids(pods);
    if |pods| >= desired {
      DeletingPrefixCounts(pods, Min(|pods| - desired, BURST_REPLICAS));
    } else {
      assert |live + names| == |live| + |names|;
    }
  }

  /** One pass over the active Pods just listed. outcomes are what the create calls return and names the
      Pods they create; refusedAt is the position of the first delete call the API server refuses. */
  method ReconcileReplicas(server: Server, desired: nat, pods: array<RankedPod>, outcomes: seq<bool>,
                           names: set<nat>, refusedAt: nat)
    returns (r: Reply)
    requires |outcomes| == Min(Max(desired - pods.Length, 0), BURST_REPLICAS)
    requires |names| == Batches(outcomes, 0, Min(|outcomes|, SLOW_START_INITIAL_BATCH_SIZE)).successes
    modifies server, pods
    ensures desired == pods.Length ==> r == Reply(false, false) && server.live == old(server.live)
    ensures desired >= pods.Length ==> pods[..] == old(pods[..])
    ensures desired > pods.Length ==>
      && server.live == old(server.live) + names
      && (r.failed ==> r.changed == (names != {}))
      && (!r.failed ==> r.changed && |names| == Min(desired - pods.Length, 500))
    ensures desired < pods.Length ==>
      var excess := Min(pods.Length - desired, 500);
      && pods[..] == StableSort(old(pods[..]), Rank)
      && server.live == old(server.live) - Uids(pods[..Min(excess, refusedAt)])
      && r == if refusedAt < excess then Reply(false, true) else Reply(true, false)
    ensures !r.failed ==> server.live == LivePass(old(server.live), old(pods[..]), desired, names)
  {
    var diff := desired - pods.Length;
    if diff > 0 {
      diff := Min(diff, BURST_REPLICAS);
      var created, failed, _ := SlowStartBatch(diff, SLOW_START_INITIAL_BATCH_SIZE, outcomes);
      SlowStartIsSafe(outcomes, SLOW_START_INITIAL_BATCH_SIZE);
      server.Create(names);
      if failed {
        return Reply(created > 0, true);
      }
      return Reply(true, false);
    } else if diff < 0 {
      diff := Max(diff, -BURST_REPLICAS);
      SortForDeletion(pods);
      var failed := DeleteFirst(server, pods, -diff, refusedAt);
      return Reply(!failed, failed);
    }
    return Reply(false, false);
  }

  /** Creation begins with one call: when that fails no other is made, and no Pod is created. */
  lemma {:induction false} FailingFirstCallIsTheOnlyOne(outcomes: seq<bool>)
    requires outcomes != [] && !outcomes[0]
    ensures var o := Batches(outcomes, 0, Min(|outcomes|, SLOW_START_INITIAL_BATCH_SIZE));
            o.attempts == 1 && o.successes == 0 && o.failed
  {
    assert Sent(outcomes, 0, 0) == 0;
  }

  /* ----- What a delete pass keeps ----- */

  function IsAvailable(p: RankedPod): bool { p.available }

  function Available(pods: seq<RankedPod>): nat { Count(pods, IsAvailable) }

  /** The upstream order deletes unavailable Pods before available ones. */
  ghost predicate UnavailableFirst(pods: seq<RankedPod>) {
    forall p, q :: p in pods && q in pods && !p.available && q.available ==> p.rank < q.rank
  }

  /** No kept Pod is strictly preferred for deletion over a removed one, and all Pods are kept or removed
      exactly once. */
  lemma {:induction false} RemovesMostPreferred(pods: seq<RankedPod>, k: nat)
    requires k <= |pods|
    ensures var s := StableSort(pods, Rank);
            && multiset(s[..k]) + multiset(s[k..]) == multiset(pods)
            && forall removed, kept :: removed in s[..k] && kept in s[k..] ==> removed.rank <= kept.rank
  {
    StableSortSorts(pods, Rank);
    var s := StableSort(pods, Rank);
    assert s == s[..k] + s[k..];
    forall removed, kept | removed in s[..k] && kept in s[k..]
      ensures removed.rank <= kept.rank
    {
      var i :| 0 <= i < k && s[i] == removed;
      var j :| k <= j < |s| && s[j] == kept;
      assert Rank(s[i]) <= Rank(s[j]);
    }
  }

  /** So a pass that deletes keeps no live Pod that is strictly preferred for deletion over one it removed. */
  lemma {:induction false} LivePassRemovesMostPreferred(live: set<nat>, pods: seq<RankedPod>, desired: nat, names: set<nat>,
                                                        removed: RankedPod, kept: RankedPod)
    requires Listed(live, pods) && desired <= |pods| && removed in pods && kept in pods
    requires var after := LivePass(live, pods, desired, names); removed.uid !in after && kept.uid in after
    ensures removed.rank <= kept.rank
  {
    var s, k := StableSort(pods, Rank), Min(|pods| - desired, BURST_REPLICAS);
    StableSortSorts(pods, Rank);
    SortedStaysDistinct(pods);
    assert removed in multiset(s) && kept in multiset(s);
    SplitByUid(s, k, removed);
    SplitByUid(s, k, kept);
    RemovesMostPreferred(pods, k);
  }

  /** Of distinct Pods, one is among the first k exactly when its identity is. */
  lemma {:induction false} SplitByUid(s: seq<RankedPod>, k: nat, p: RankedPod)
    requires DistinctPods(s) && k <= |s| && p in s
    ensures if p.uid in Uids(s[..k]) then p in s[..k] else p in s[k..]
  {
    var j :| 0 <= j < |s| && s[j] == p;
    if p.uid in Uids(s[..k]) {
      var q :| q in s[..k] && q.uid == p.uid;
      var i :| 0 <= i < k && s[i] == q;
      assert i == j;
    } else {
      assert p !in s[..k];
      assert s == s[..k] + s[k..];
    }
  }

  /** Deleting k Pods in that order costs availability only once every unavailable Pod is gone. */
  lemma {:induction false} DeletionSparesAvailable(pods: seq<RankedPod>, k: nat)
    requires k <= |pods| && UnavailableFirst(pods)
    ensures Available(StableSort(pods, Rank)[k..]) == Min(Available(pods), |pods| - k)
  {
    StableSortSorts(pods, Rank);
    var s := StableSort(pods, Rank);
    SortCounts(pods, IsAvailable, Rank);
    forall i | 0 <= i < |s|
      ensures s[i] in pods
    {
      assert s[i] in multiset(s);
    }
    DropSparesAvailable(s, k);
  }

  lemma {:induction false} DropSparesAvailable(s: seq<RankedPod>, k: nat)
    requires k <= |s| && SortedBy(s, Rank) && UnavailableFirst(s)
    ensures Available(s[k..]) == Min(Available(s), |s| - k)
  {
    if k == 0 {
      assert s[k..] == s;
    } else if s[0].available {
      forall i | 0 <= i < |s|
        ensures IsAvailable(s[i])
      {
        assert Rank(s[0]) <= Rank(s[i]);
      }
      FullCount(s, IsAvailable);
      assert forall i :: 0 <= i < |s[k..]| ==> s[k..][i] == s[i + k];
      FullCount(s[k..], IsAvailable);
    } else {
      TailIsSorted(s, Rank);
      assert forall p :: p in s[1..] ==> p in s;
      DropSparesAvailable(s[1..], k - 1);
      assert s[1..][k - 1..] == s[k..];
    }
  }

  /* ----- Runs of passes ----- */

  function Passes(active: int, desired: int, passes: nat): int
    decreases passes
  {
    if passes == 0 then active else Passes(Pass(active, desired), desired, passes - 1)
  }

  function CeilingDivide(a: nat, b: nat): nat
    requires b > 0
  {
    (a + b - 1) / b
  }

  /** In numbers, exactly ceil(|diff| / 500) passes change the count, they never
      cross desired, and from then on nothing changes. */
  lemma {:induction false} PassesConverge(active: nat, desired: nat, t: nat)
    ensures var n, need := Passes(active, desired, t), CeilingDivide(Abs(desired - active), BURST_REPLICAS);
            && (active <= desired ==> active <= n <= desired)
            && (active >= desired ==> active >= n >= desired)
            && (t < need ==> Pass(n, desired) != n && Abs(desired - n) == Abs(desired - active) - BURST_REPLICAS * t)
            && (t >= need ==> n == desired && Pass(n, desired) == n)
    decreases t
  {
    if t > 0 {
      PassesConverge(Pass(active, desired), desired, t - 1);
    }
  }

  /** Deleting the first k of distinct Pods in deletion order leaves k fewer. */
  lemma {:induction false} DeletingPrefixCounts(pods: seq<RankedPod>, k: nat)
    requires k <= |pods| && DistinctPods(pods)
    ensures |Uids(pods)| == |pods| && |Uids(pods) - Uids(StableSort(pods, Rank)[..k])| == |pods| - k
  {
    StableSortSorts(pods, Rank);
    var s := StableSort(pods, Rank);
    SortedStaysDistinct(pods);
    CountUids(s);
    CountUids(s[..k]);
    SameUids(pods, s);
    assert Uids(s[..k]) <= Uids(s);
  }

  lemma {:induction false} SameUids(a: seq<RankedPod>, b: seq<RankedPod>)
    requires multiset(a) == multiset(b)
    ensures Uids(a) == Uids(b)
  {
    assert forall p :: p in a <==> p in multiset(a);
    assert forall p :: p in b <==> p in multiset(b);
  }

  lemma {:induction false} CountUids(pods: seq<RankedPod>)
    requires DistinctPods(pods)
    ensures |Uids(pods)| == |pods|
  {
    if pods != [] {
      var n := |pods| - 1;
      CountUids(pods[..n]);
      assert pods == pods[..n] + [pods[n]];
      assert Uids(pods) == Uids(pods[..n]) + {pods[n].uid};
    }
  }

  lemma {:induction false} SortedStaysDistinct(pods: seq<RankedPod>)
    requires DistinctPods(pods)
    ensures DistinctPods(StableSort(pods, Rank))
  {
    var s := StableSort(pods, Rank);
    StableSortSorts(pods, Rank);
    DistinctIsByMultiset(pods, s);
  }

  /** Identities are distinct exactly when there are as many of them as Pods, whatever the order. */
  lemma {:induction false} DistinctIsByMultiset(a: seq<RankedPod>, b: seq<RankedPod>)
    requires multiset(a) == multiset(b) && DistinctPods(a)
    ensures DistinctPods(b)
  {
    SameUids(a, b);
    CountUids(a);
    assert |a| == |multiset(a)| == |multiset(b)| == |b|;
    FewUidsMeanDistinct(b);
  }

  lemma {:induction false} FewUidsMeanDistinct(b: seq<RankedPod>)
    ensures |Uids(b)| <= |b|
    ensures |Uids(b)| == |b| ==> DistinctPods(b)
  {
    if b != [] {
      var n := |b| - 1;
      FewUidsMeanDistinct(b[..n]);
      assert b == b[..n] + [b[n]];
      var few := Uids(b[..n]);
      assert Uids(b) == few + {b[n].uid};
      if b[n].uid in few {
        assert Uids(b) == few;
      }
    }
  }

  /** A pass in which no call failed: it listed the live Pods, in any order and health, and created new ones. */
  ghost predicate PassStep(live: set<nat>, next: set<nat>, desired: nat) {
    exists pods, names ::
      Listed(live, pods) && Creates(live, pods, desired, names) && next == LivePass(live, pods, desired, names)
  }

  lemma {:induction false} PassStepSize(live: set<nat>, next: set<nat>, desired: nat)
    requires PassStep(live, next, desired)
    ensures |next| == Pass(|live|, desired) && (|live| == desired ==> next == live)
  {
    var pods, names :| Listed(live, pods) && Creates(live, pods, desired, names) && next == LivePass(live, pods, desired, names);
    LivePassSize(live, pods, desired, names);
  }

  /** The live Pods before a run of passes and after each of them. */
  ghost predicate Run(trace: seq<set<nat>>, desired: nat) {
    trace != [] && forall t :: 0 <= t < |trace| - 1 ==> PassStep(trace[t], trace[t + 1], desired)
  }

  lemma {:induction false} RunSize(trace: seq<set<nat>>, desired: nat)
    requires Run(trace, desired)
    ensures |trace[|trace| - 1]| == Passes(|trace[0]|, desired, |trace| - 1)
    decreases |trace|
  {
    if |trace| > 1 {
      var rest := trace[1..];
      assert PassStep(trace[0], trace[0 + 1], desired);
      PassStepSize(trace[0], trace[1], desired);
      forall t | 0 <= t < |rest| - 1
        ensures PassStep(rest[t], rest[t + 1], desired)
      {
        assert PassStep(trace[t + 1], trace[t + 1 + 1], desired);
      }
      RunSize(rest, desired);
    }
  }

  /** Without errors and with a fixed spec the live Pods reach desired in exactly ceil(|diff| / 500) changing
      passes, however their order and health vary; their number never crosses desired, is 500 nearer to it after
      each pass but the last, and once there a pass touches none of them. */
  lemma {:induction false} ConvergesWithoutOvershoot(trace: seq<set<nat>>, desired: nat)
    requires Run(trace, desired)
    ensures var first, last, t := |trace[0]|, |trace[|trace| - 1]|, |trace| - 1;
            var need := CeilingDivide(Abs(desired - first), 500);
      && (first <= desired ==> first <= last <= desired)
      && (first >= desired ==> first >= last >= desired)
      && (t < need ==> last != desired && Abs(desired - last) == Abs(desired - first) - 500 * t)
      && (t >= need ==> last == desired)
    ensures forall t :: 0 <= t < |trace| - 1 && |trace[t]| == desired ==> trace[t + 1] == trace[t]
  {
    RunSize(trace, desired);
    PassesConverge(|trace[0]|, desired, |trace| - 1);
    forall t | 0 <= t < |trace| - 1 && |trace[t]| == desired
      ensures trace[t + 1] == trace[t]
    {
      assert PassStep(trace[t], trace[t + 1], desired);
      PassStepSize(trace[t], trace[t + 1], desired);
    }
  }
}
