/**
 RollingUpdate over stale information: Deployment passes, ReplicaSet create and delete passes that read
 a lagging copy of their own spec, Pods becoming available, and status reports that reach the Deployment
 late, interleaved in any order. The Pods that really are available never drop below the floor.
 */
module Availability {
  import opened Arith
  import opened Rollout
  import D = DeploymentController
  import Replicas
  import Sorting

  /** One ReplicaSet with the truth behind it.
      view: its spec and the status the Deployment reads;
      seen: the spec.replicas its own controller last read;
      pods, up: its active Pods, and those of them that are available;
      reports: available counts computed but not yet visible, oldest first. */
  datatype Node = Node(view: View, seen: int, pods: int, up: int, reports: seq<int>)

  type Cluster = seq<Node>

  function Views(cl: Cluster): (vs: seq<View>)
    ensures |vs| == |cl|
    ensures forall i :: 0 <= i < |cl| ==> vs[i] == cl[i].view
  {
    seq(|cl|, i requires 0 <= i < |cl| => cl[i].view)
  }

  function TotalUp(cl: Cluster): int {
    if cl == [] then 0 else TotalUp(cl[..|cl| - 1]) + cl[|cl| - 1].up
  }

  /* ----- Steps ----- */

  /** What can happen to one ReplicaSet besides a Deployment pass. */
  datatype NodeEvent =
    | ReadSpec(read: int)      // its controller's copy of the spec catches up, not necessarily to the newest
    | Create(k: nat)           // k of the missing Pods are created, not yet available
    | Delete(k: nat)           // k of the excess Pods are deleted, unavailable ones first
    | BecomeAvailable(k: nat)
    | Observe                  // a status is computed: only when the count is already right
    | Publish                  // the oldest computed status becomes visible
    | Lose                     // the oldest computed status is never written

  datatype Event = DeploymentPass | OnNode(i: nat, what: NodeEvent)

  predicate NodeEnabled(n: Node, e: NodeEvent) {
    match e
    case ReadSpec(r) => n.seen <= r <= n.view.replicas || n.view.replicas <= r <= n.seen
    case Create(k) => k <= n.seen - n.pods && k <= Replicas.BURST_REPLICAS
    case Delete(k) => k <= n.pods - n.seen && k <= Replicas.BURST_REPLICAS
    case BecomeAvailable(k) => n.up + k <= n.pods
    case Observe => n.pods == n.seen
    case Publish => n.reports != []
    case Lose => n.reports != []
  }

  function NodeStep(n: Node, e: NodeEvent): Node
    requires NodeEnabled(n, e)
  {
    match e
    case ReadSpec(r) => n.(seen := r)
    case Create(k) => n.(pods := n.pods + k)
    case Delete(k) => n.(pods := n.pods - k, up := Min(n.up, n.pods - k))
    case BecomeAvailable(k) => n.(up := n.up + k)
    case Observe => n.(reports := n.reports + [n.up])
    case Publish => n.(view := n.view.(available := n.reports[0]), reports := n.reports[1..])
    case Lose => n.(reports := n.reports[1..])
  }

  predicate Enabled(cl: Cluster, e: Event) {
    e.OnNode? ==> e.i < |cl| && NodeEnabled(cl[e.i], e.what)
  }

  function Next(cl: Cluster, e: Event, c: nat, lim: Limits): (r: Cluster)
    requires c < |cl| && Enabled(cl, e)
    ensures |r| == |cl|
  {
    match e
    case OnNode(i, what) => cl[i := NodeStep(cl[i], what)]
    case DeploymentPass =>
      match RollingDecision(Views(cl), c, lim)
      case Keep => cl
      case Scale(i, n) => cl[i := cl[i].(view := cl[i].view.(replicas := n))]
  }

  /** A deletion loses what deleting k Pods in the deletion order loses: unavailable ones before available ones. */
  lemma {:induction false} DeletesInOrder(n: Node, k: nat, pods: seq<Replicas.RankedPod>)
    requires NodeEnabled(n, Delete(k)) && k <= |pods| && Replicas.UnavailableFirst(pods)
    requires n.pods == |pods| && n.up == Replicas.Available(pods)
    ensures var m, kept := NodeStep(n, Delete(k)), Sorting.StableSort(pods, Replicas.Rank)[k..];
            m.pods == |kept| && m.up == Replicas.Available(kept) && m == n.(pods := m.pods, up := m.up)
  {
    Replicas.DeletionSparesAvailable(pods, k);
  }

  /* ----- What the reports are worth ----- */

  /** The available Pods a node keeps through any deletion its controller may still do. */
  function Kept(n: Node): int { Min(n.up, n.seen) }

  /** The visible status, the pending reports and what is really kept, oldest knowledge first. */
  function Knowledge(n: Node): seq<int> { [n.view.available] + n.reports + [Kept(n)] }

  /** Newer knowledge never takes back an available replica that is still asked for. */
  ghost predicate RisingUpTo(s: seq<int>, cap: int) {
    forall i, j :: 0 <= i < j < |s| ==> Min(s[i], cap) <= Min(s[j], cap)
  }

  ghost predicate Counts(n: Node) {
    && 0 <= n.up <= n.pods && 0 <= n.view.replicas && 0 <= n.seen
    && forall k :: 0 <= k < |Knowledge(n)| ==> Knowledge(n)[k] >= 0
  }

  /** An old ReplicaSet never asks for more than now, so up to that its reports never exceed the truth. */
  ghost predicate OldOk(n: Node) {
    Counts(n) && RisingUpTo(Knowledge(n), n.view.replicas)
  }

  /** The current ReplicaSet may still grow to desired, so up to that, and up to its spec, its reports never exceed
      the truth; below desired its controller does not see a spec larger than the real one. */
  ghost predicate CurrentOk(n: Node, lim: Limits) {
    && Counts(n) && (n.seen <= n.view.replicas || n.view.replicas >= lim.desired)
    && RisingUpTo(Knowledge(n), Max(lim.desired, n.view.replicas))
  }

  ghost predicate Honest(cl: Cluster, c: nat, lim: Limits) {
    && c < |cl| && DistinctUids(Views(cl)) && CurrentOk(cl[c], lim)
    && forall i :: 0 <= i < |cl| && i != c ==> OldOk(cl[i])
  }

  /** The invariant: reports are honest and what they say is still asked for covers the floor. */
  ghost predicate Safe(cl: Cluster, c: nat, lim: Limits) {
    Honest(cl, c, lim) && TotalAvailable(Views(cl)) >= MinAvailable(lim)
  }

  /* ----- Each event keeps the invariant ----- */

  lemma {:induction false} HonestCounts(cl: Cluster, c: nat, lim: Limits)
    requires Honest(cl, c, lim)
    ensures NonNegative(Views(cl))
  {
    forall i | 0 <= i < |cl|
      ensures cl[i].view.replicas >= 0 && cl[i].view.available >= 0
    {
      assert Counts(cl[i]);
      assert Knowledge(cl[i])[0] == cl[i].view.available;
    }
  }

  /** How one event of a node changes what is known about it. */
  lemma {:induction false} NodeStepKnowledge(n: Node, e: NodeEvent)
    requires Counts(n) && NodeEnabled(n, e)
    ensures var m, was := NodeStep(n, e), Knowledge(n);
            match e
            case Observe => Knowledge(m) == was + [Kept(n)]
            case Publish => Knowledge(m) == was[1..]
            case Lose => Knowledge(m) == [was[0]] + was[2..]
            case _ => Knowledge(m) == was[..|was| - 1] + [Kept(m)]
    ensures e.Create? || e.Delete? ==> Kept(NodeStep(n, e)) == Kept(n)
    ensures e.BecomeAvailable? ==> Kept(NodeStep(n, e)) >= Kept(n)
    ensures e.ReadSpec? ==> Min(Kept(NodeStep(n, e)), n.view.replicas) >= Min(Kept(n), n.view.replicas)
    ensures Counts(NodeStep(n, e))
  {
    var m, was := NodeStep(n, e), Knowledge(n);
    assert was[|was| - 1] == Kept(n) >= 0 && was[..|was| - 1] == [n.view.available] + n.reports;
    match e {
      case Observe => assert Knowledge(m) == was + [Kept(n)];
      case Publish =>
        assert n.reports == [n.reports[0]] + n.reports[1..];
        assert Knowledge(m) == was[1..];
      case Lose => assert was[2..] == n.reports[1..] + [Kept(n)];
      case _ => assert Knowledge(m) == was[..|was| - 1] + [Kept(m)];
    }
    forall k | 0 <= k < |Knowledge(m)|
      ensures Knowledge(m)[k] >= 0
    {
      assert Knowledge(m)[k] in was || Knowledge(m)[k] == Kept(n) || Knowledge(m)[k] == Kept(m);
    }
  }

  /** Knowledge stays rising when its end is replaced by something no smaller, when something no smaller
      is added, and when the front or the second entry is dropped. */
  lemma {:induction false} RisingAfter(s: seq<int>, cap: int, last: int)
    requires RisingUpTo(s, cap) && |s| >= 2
    ensures Min(last, cap) >= Min(s[|s| - 1], cap) ==> RisingUpTo(s + [last], cap)
    ensures Min(last, cap) >= Min(s[|s| - 1], cap) ==> RisingUpTo(s[..|s| - 1] + [last], cap)
    ensures RisingUpTo(s[1..], cap)
    ensures RisingUpTo([s[0]] + s[2..], cap)
  {
    assert forall i :: 0 <= i < |s| ==> Min(s[i], cap) <= Min(s[|s| - 1], cap);
  }

  lemma {:induction false} OldStaysOk(n: Node, e: NodeEvent)
    requires OldOk(n) && NodeEnabled(n, e)
    ensures OldOk(NodeStep(n, e))
    ensures Clamped(NodeStep(n, e).view) >= Clamped(n.view)
  {
    NodeStepKnowledge(n, e);
    assert Knowledge(n)[0] == n.view.available;
    assert e.Publish? ==> Knowledge(n)[1] == n.reports[0];
    RisingAfter(Knowledge(n), n.view.replicas, if e.Observe? then Kept(n) else Kept(NodeStep(n, e)));
  }

  lemma {:induction false} CurrentStaysOk(n: Node, e: NodeEvent, lim: Limits)
    requires CurrentOk(n, lim) && NodeEnabled(n, e)
    ensures CurrentOk(NodeStep(n, e), lim)
    ensures Clamped(NodeStep(n, e).view) >= Clamped(n.view)
  {
    NodeStepKnowledge(n, e);
    assert Knowledge(n)[0] == n.view.available;
    assert e.Publish? ==> Knowledge(n)[1] == n.reports[0];
    RisingAfter(Knowledge(n), Max(lim.desired, n.view.replicas), if e.Observe? then Kept(n) else Kept(NodeStep(n, e)));
  }

  /** Asking an old ReplicaSet for less keeps its reports honest. */
  lemma {:induction false} ShrinkingStaysOk(n: Node, replicas: int)
    requires OldOk(n) && 0 <= replicas <= n.view.replicas
    ensures OldOk(n.(view := n.view.(replicas := replicas)))
  {
    var m := n.(view := n.view.(replicas := replicas));
    assert Knowledge(m) == Knowledge(n);
  }

  /** Moving the current ReplicaSet towards desired, up or down, keeps its reports honest. */
  lemma {:induction false} ApproachingStaysOk(n: Node, replicas: int, lim: Limits)
    requires CurrentOk(n, lim) && (n.view.replicas <= replicas <= lim.desired || lim.desired <= replicas <= n.view.replicas)
    requires replicas >= 0
    ensures CurrentOk(n.(view := n.view.(replicas := replicas)), lim)
  {
    var m := n.(view := n.view.(replicas := replicas));
    assert Knowledge(m) == Knowledge(n);
  }

  /** A Deployment pass on the cluster is a pass on its views. */
  lemma {:induction false} DeploymentPassIsRollingStep(cl: Cluster, c: nat, lim: Limits)
    requires c < |cl|
    ensures Views(Next(cl, DeploymentPass, c, lim)) == RollingStep(Views(cl), c, lim)
  {
  }

  /** Replacing one node by one that is still honest, asks for as much and reports no less keeps the
      invariant and the specs. */
  lemma {:induction false} NodeUpdateKeepsSafe(cl: Cluster, i: nat, m: Node, c: nat, lim: Limits)
    requires Safe(cl, c, lim) && i < |cl| && (if i == c then CurrentOk(m, lim) else OldOk(m))
    requires m.view.uid == cl[i].view.uid && m.view.replicas == cl[i].view.replicas
    requires Clamped(m.view) >= Clamped(cl[i].view)
    ensures Safe(cl[i := m], c, lim) && Total(Views(cl[i := m])) == Total(Views(cl))
  {
    assert Views(cl[i := m]) == Views(cl)[i := m.view];
    SumUpdate(Views(cl), Clamped, i, m.view);
    SumUpdate(Views(cl), Spec, i, m.view);
  }

  lemma {:induction false} NodeEventKeepsSafe(cl: Cluster, i: nat, what: NodeEvent, c: nat, lim: Limits)
    requires Safe(cl, c, lim) && Enabled(cl, OnNode(i, what))
    ensures Safe(Next(cl, OnNode(i, what), c, lim), c, lim)
    ensures Total(Views(Next(cl, OnNode(i, what), c, lim))) == Total(Views(cl))
  {
    if i == c {
      CurrentStaysOk(cl[i], what, lim);
    } else {
      OldStaysOk(cl[i], what);
    }
    NodeUpdateKeepsSafe(cl, i, NodeStep(cl[i], what), c, lim);
  }

  lemma {:induction false} DeploymentPassKeepsSafe(cl: Cluster, c: nat, lim: Limits)
    requires Safe(cl, c, lim) && ValidLimits(lim)
    ensures Safe(Next(cl, DeploymentPass, c, lim), c, lim)
    ensures Total(Views(Next(cl, DeploymentPass, c, lim))) <= Max(Total(Views(cl)), lim.desired + lim.maxSurge)
  {
    HonestCounts(cl, c, lim);
    DeploymentPassIsRollingStep(cl, c, lim);
    StepShape(Views(cl), c, lim);
    StepKeepsBudgets(Views(cl), c, lim);
    match RollingDecision(Views(cl), c, lim)
    case Keep =>
    case Scale(i, n) =>
      assert RollingStep(Views(cl), c, lim)[i].replicas == n;
      if i == c {
        ApproachingStaysOk(cl[c], n, lim);
      } else {
        ShrinkingStaysOk(cl[i], n);
      }
  }

  /* ----- Runs ----- */

  /** The cluster after a list of events, each enabled when it happens. */
  ghost predicate Possible(cl: Cluster, events: seq<Event>, c: nat, lim: Limits)
    requires c < |cl|
    decreases |events|
  {
    events == [] ||
    (Enabled(cl, events[0]) && Possible(Next(cl, events[0], c, lim), events[1..], c, lim))
  }

  ghost function After(cl: Cluster, events: seq<Event>, c: nat, lim: Limits): (r: Cluster)
    requires c < |cl| && Possible(cl, events, c, lim)
    ensures |r| == |cl|
    decreases |events|
  {
    if events == [] then cl else After(Next(cl, events[0], c, lim), events[1..], c, lim)
  }

  /** Of every ReplicaSet the report clamped to its spec is at most the Pods really available, so honest reports
      that cover the floor mean these do. */
  lemma {:induction false} SafeMeansAvailable(cl: Cluster, c: nat, lim: Limits)
    requires Safe(cl, c, lim)
    ensures forall i :: 0 <= i < |cl| ==> Min(cl[i].view.available, cl[i].view.replicas) <= cl[i].up
    ensures TotalUp(cl) >= TotalAvailable(Views(cl)) >= MinAvailable(lim)
  {
    forall i | 0 <= i < |cl|
      ensures Clamped(cl[i].view) <= cl[i].up
    {
      var k := Knowledge(cl[i]);
      assert k[0] == cl[i].view.available && k[|k| - 1] == Kept(cl[i]);
      assert OldOk(cl[i]) || CurrentOk(cl[i], lim);
    }
    TotalUpAtLeast(cl);
  }

  lemma {:induction false} TotalUpAtLeast(cl: Cluster)
    requires forall i :: 0 <= i < |cl| ==> Clamped(cl[i].view) <= cl[i].up
    ensures TotalUp(cl) >= TotalAvailable(Views(cl))
  {
    if cl != [] {
      TotalUpAtLeast(cl[..|cl| - 1]);
      assert Views(cl)[..|cl| - 1] == Views(cl[..|cl| - 1]);
    }
  }

  /** RollingUpdate keeps real availability: from any safe start, through any interleaving of passes,
      creations, deletions, recoveries and late or lost status writes, the number of Pods that really are
      available stays at or above desired - maxUnavailable, and the specs never sum to more than at the
      start or than desired + maxSurge. */
  lemma {:induction false} RealAvailabilityIsKept(cl: Cluster, events: seq<Event>, c: nat, lim: Limits)
    requires Safe(cl, c, lim) && ValidLimits(lim)
    requires Possible(cl, events, c, lim)
    ensures TotalUp(After(cl, events, c, lim)) >= lim.desired - lim.maxUnavailable
    ensures Total(Views(After(cl, events, c, lim))) <= Max(Total(Views(cl)), lim.desired + lim.maxSurge)
    decreases |events|
  {
    SafeMeansAvailable(cl, c, lim);
    if events != [] {
      match events[0] {
        case DeploymentPass => DeploymentPassKeepsSafe(cl, c, lim);
        case OnNode(i, what) => NodeEventKeepsSafe(cl, i, what, c, lim);
      }
      RealAvailabilityIsKept(Next(cl, events[0], c, lim), events[1..], c, lim);
    }
  }

  /** The same in the Deployment's own strategy: from honest reports that cover desired - maxUnavailable, as many
      Pods really are available in every state a run reaches. */
  lemma {:induction false} StrategyKeepsAvailability(cl: Cluster, events: seq<Event>, c: nat, s: D.Strategy, desired: nat)
    requires s.RollingUpdate? && D.ResolvedFenceposts(s) && c < |cl|
    requires Possible(cl, events, c, D.RollingLimits(s, desired))
    requires Honest(cl, c, Limits(desired, s.maxSurge, s.maxUnavailable))
    requires TotalAvailable(Views(cl)) >= desired - s.maxUnavailable
    ensures var last := After(cl, events, c, D.RollingLimits(s, desired));
      && TotalUp(last) >= desired - s.maxUnavailable
      && Total(Views(last)) <= Max(Total(Views(cl)), desired + s.maxSurge)
  {
    HonestCounts(cl, c, Limits(desired, s.maxSurge, s.maxUnavailable));
    ClampedNonNegative(Views(cl));
    RealAvailabilityIsKept(cl, events, c, D.RollingLimits(s, desired));
  }

  lemma {:induction false} ClampedNonNegative(vs: seq<View>)
    requires NonNegative(vs)
    ensures TotalAvailable(vs) >= 0
  {
    SumNonNegative(vs, Clamped);
  }

  /* ----- Which starts keep the floor ----- */

  /** The report does not exceed the truth, the controller has read its spec and no older report is pending. */
  ghost predicate Truthful(n: Node) {
    && 0 <= n.view.available <= n.up <= n.pods
    && 0 <= n.seen == n.view.replicas && n.reports == []
  }

  /** Every status is truthful, and what is both reported and asked for covers the floor. */
  ghost predicate TruthfulStart(cl: Cluster, c: nat, lim: Limits) {
    && c < |cl| && DistinctUids(Views(cl)) && ValidLimits(lim)
    && (forall i :: 0 <= i < |cl| ==> Truthful(cl[i]))
    && TotalAvailable(Views(cl)) >= MinAvailable(lim)
  }

  ghost predicate KeepsFloor(cl: Cluster, c: nat, lim: Limits)
    requires c < |cl|
  {
    forall events :: Possible(cl, events, c, lim) ==>
      TotalUp(After(cl, events, c, lim)) >= lim.desired - lim.maxUnavailable
  }

  /** The status of the current ReplicaSet does not run ahead of a spec that may still grow. */
  predicate ReportFitsSpec(available: int, replicas: int, desired: int) {
    available <= replicas || replicas >= desired
  }

  lemma {:induction false} FittingStartIsSafe(cl: Cluster, c: nat, lim: Limits)
    requires TruthfulStart(cl, c, lim) && ReportFitsSpec(cl[c].view.available, cl[c].view.replicas, lim.desired)
    ensures Safe(cl, c, lim)
  {
    forall i | 0 <= i < |cl|
      ensures OldOk(cl[i]) && (i == c ==> CurrentOk(cl[i], lim))
    {
      assert Truthful(cl[i]);
      assert Knowledge(cl[i]) == [cl[i].view.available, Kept(cl[i])];
    }
  }

  /** The floor holds in every run from a truthful start whose current ReplicaSet reports no more than it asks
      for, or already asks for desired or more. */
  lemma {:induction false} FittingStartKeepsFloor(cl: Cluster, c: nat, lim: Limits)
    requires TruthfulStart(cl, c, lim) && ReportFitsSpec(cl[c].view.available, cl[c].view.replicas, lim.desired)
    ensures KeepsFloor(cl, c, lim)
  {
    FittingStartIsSafe(cl, c, lim);
    forall events | Possible(cl, events, c, lim)
      ensures TotalUp(After(cl, events, c, lim)) >= lim.desired - lim.maxUnavailable
    {
      RealAvailabilityIsKept(cl, events, c, lim);
    }
  }

  ghost predicate UpToDate(n: Node) {
    0 <= n.up == n.view.available <= n.pods == n.seen == n.view.replicas && n.reports == []
  }

  lemma {:induction false} UpToDateIsOk(n: Node, lim: Limits)
    requires UpToDate(n)
    ensures OldOk(n) && CurrentOk(n, lim) && Clamped(n.view) == n.up
  {
    assert Knowledge(n) == [n.up, n.up];
  }

  /** A start where every count has settled and every status is current is safe. */
  lemma {:induction false} FreshStartIsSafe(cl: Cluster, c: nat, lim: Limits)
    requires c < |cl| && DistinctUids(Views(cl))
    requires forall i :: 0 <= i < |cl| ==> UpToDate(cl[i])
    requires TotalUp(cl) >= MinAvailable(lim)
    ensures Safe(cl, c, lim)
  {
    forall i | 0 <= i < |cl|
      ensures OldOk(cl[i]) && (i == c ==> CurrentOk(cl[i], lim)) && Clamped(cl[i].view) == cl[i].up
    {
      UpToDateIsOk(cl[i], lim);
    }
    TotalUpAtMost(cl);
  }

  lemma {:induction false} TotalUpAtMost(cl: Cluster)
    requires forall i :: 0 <= i < |cl| ==> Clamped(cl[i].view) == cl[i].up
    ensures TotalUp(cl) == TotalAvailable(Views(cl))
  {
    if cl != [] {
      TotalUpAtMost(cl[..|cl| - 1]);
      assert Views(cl)[..|cl| - 1] == Views(cl[..|cl| - 1]);
    }
  }

  /* ----- Every other start can break it ----- */

  /** Two ReplicaSets: the current one, as rolled back to, reports and has available more Pods than it asks for;
      the old one holds the rest of desired. */
  function RolledBack(replicas: nat, available: nat, desired: nat): Cluster
    requires replicas <= desired
  {
    [Node(View(1, replicas, available, available, 0), replicas, available, available, []), Holding(desired - replicas)]
  }

  function Holding(n: nat): Node {
    Node(View(2, n, n, n, 0), n, n, n, [])
  }

  /** Some run leads from one cluster to the other. */
  ghost predicate Reaches(cl: Cluster, last: Cluster, c: nat, lim: Limits)
    requires c < |cl|
  {
    exists events :: Possible(cl, events, c, lim) && After(cl, events, c, lim) == last
  }

  lemma {:induction false} ReachesItself(cl: Cluster, c: nat, lim: Limits)
    requires c < |cl|
    ensures Reaches(cl, cl, c, lim)
  {
    assert Possible(cl, [], c, lim) && After(cl, [], c, lim) == cl;
  }

  lemma {:induction false} ReachesAfter(cl: Cluster, e: Event, next: Cluster, last: Cluster, c: nat, lim: Limits)
    requires c < |cl| && Enabled(cl, e) && next == Next(cl, e, c, lim) && Reaches(next, last, c, lim)
    ensures Reaches(cl, last, c, lim)
  {
    var rest :| Possible(next, rest, c, lim) && After(next, rest, c, lim) == last;
    var events := [e] + rest;
    assert events[0] == e && events[1..] == rest;
    assert Possible(cl, events, c, lim) && After(cl, events, c, lim) == last;
  }

  function Drained(cl: Cluster, k: nat): Cluster
    requires cl != []
  {
    cl[0 := cl[0].(pods := cl[0].pods - k, up := cl[0].up - k)]
  }

  lemma {:induction false} DrainStep(cl: Cluster, k: nat, burst: nat, c: nat, lim: Limits)
    requires c < |cl| && cl[0].pods - cl[0].seen >= k >= burst && cl[0].up == cl[0].pods && burst <= Replicas.BURST_REPLICAS
    ensures Enabled(cl, OnNode(0, Delete(burst))) && Next(cl, OnNode(0, Delete(burst)), c, lim) == Drained(cl, burst)
    ensures Drained(Drained(cl, burst), k - burst) == Drained(cl, k)
  {
  }

  /** The extra Pods can be deleted in passes within the burst limit. */
  lemma {:induction false} DrainFirst(cl: Cluster, k: nat, last: Cluster, c: nat, lim: Limits)
    requires c < |cl| && cl[0].pods - cl[0].seen >= k && cl[0].up == cl[0].pods
    requires Reaches(Drained(cl, k), last, c, lim)
    ensures Reaches(cl, last, c, lim)
    decreases k
  {
    if k == 0 {
      assert Drained(cl, 0) == cl;
    } else {
      var burst := Min(k, Replicas.BURST_REPLICAS);
      DrainStep(cl, k, burst, c, lim);
      DrainFirst(Drained(cl, burst), k - burst, last, c, lim);
      ReachesAfter(cl, OnNode(0, Delete(burst)), Drained(cl, burst), last, c, lim);
    }
  }

  /** One pass of two ReplicaSets whose specs sum to desired, with one replica of surge and none to spare:
      the current one grows by one. */
  lemma {:induction false} GrowingPass(cl: Cluster, lim: Limits)
    requires |cl| == 2 && lim == Limits(lim.desired, 1, 0)
    requires cl[0].view.replicas + cl[1].view.replicas == lim.desired && 0 <= cl[0].view.replicas < lim.desired
    ensures Next(cl, DeploymentPass, 0, lim) == cl[0 := cl[0].(view := cl[0].view.(replicas := cl[0].view.replicas + 1))]
  {
    TwoTotals(cl[0].view, cl[1].view);
    assert Views(cl) == [cl[0].view, cl[1].view];
  }

  /** The next pass spends the replica just added, as available as it reports, on the old ReplicaSet. */
  lemma {:induction false} SpendingPass(cl: Cluster, lim: Limits)
    requires |cl| == 2 && lim == Limits(lim.desired, 1, 0) && cl[0].view.uid != cl[1].view.uid
    requires cl[0].view.replicas + cl[1].view.replicas == lim.desired + 1 && 0 <= cl[0].view.replicas <= lim.desired
    requires cl[0].view.available >= cl[0].view.replicas && cl[1].view.available == cl[1].view.replicas
    ensures Next(cl, DeploymentPass, 0, lim) == cl[1 := cl[1].(view := cl[1].view.(replicas := cl[1].view.replicas - 1))]
  {
    var vs := Views(cl);
    TwoTotals(cl[0].view, cl[1].view);
    assert vs == [cl[0].view, cl[1].view];
    assert !Shrinks(vs, 0, lim, 0) && Shrinks(vs, 0, lim, 1);
    assert FirstShrinking(vs, 0, lim, 0) == 1;
  }

  lemma {:induction false} TwoTotals(a: View, b: View)
    ensures Total([a, b]) == a.replicas + b.replicas
    ensures TotalAvailable([a, b]) == Clamped(a) + Clamped(b)
  {
    assert [a, b][..1] == [a] && [a][..0] == [];
    assert Sum([a], Spec) == Spec(a) && Sum([a], Clamped) == Clamped(a);
  }

  lemma {:induction false} TwoUp(cl: Cluster)
    requires |cl| == 2
    ensures TotalUp(cl) == cl[0].up + cl[1].up
  {
    assert cl == [cl[0], cl[1]] && cl[..1] == [cl[0]] && cl[..1][..0] == [];
    assert TotalUp(cl[..1]) == cl[0].up;
  }

  /** Where the run ends: the current ReplicaSet has grown by one, the old one has followed a scale-down by one. */
  function Overspent(replicas: nat, available: nat, desired: nat): Cluster
    requires replicas < desired
  {
    var left := desired - replicas - 1;
    [Node(View(1, replicas + 1, available, available, 0), replicas, replicas, replicas, []),
     Node(View(2, left, left + 1, left + 1, 0), left, left, left, [])]
  }

  /** Once the extra Pods are gone, two passes and the old ReplicaSet's next one end there. */
  lemma {:induction false} SpentTwice(r: nat, a: nat, desired: nat)
    requires r < desired && r < a
    ensures Reaches(Drained(RolledBack(r, a, desired), a - r), Overspent(r, a, desired), 0, Limits(desired, 1, 0))
  {
    var lim := Limits(desired, 1, 0);
    var s0 := Drained(RolledBack(r, a, desired), a - r);
    var s1 := s0[0 := s0[0].(view := s0[0].view.(replicas := r + 1))];
    var s2 := s1[1 := s1[1].(view := s1[1].view.(replicas := desired - r - 1))];
    var s3 := s2[1 := s2[1].(seen := desired - r - 1)];
    var s4 := s3[1 := s3[1].(pods := desired - r - 1, up := desired - r - 1)];
    assert s4 == Overspent(r, a, desired);
    ReachesItself(s4, 0, lim);
    ReachesAfter(s3, OnNode(1, Delete(1)), s4, s4, 0, lim);
    ReachesAfter(s2, OnNode(1, ReadSpec(desired - r - 1)), s3, s4, 0, lim);
    SpendingPass(s1, lim);
    ReachesAfter(s1, DeploymentPass, s2, s4, 0, lim);
    GrowingPass(s0, lim);
    ReachesAfter(s0, DeploymentPass, s1, s4, 0, lim);
  }

  /** Wherever the status of the current ReplicaSet runs ahead of a spec below desired, some truthful start has
      a run that spends the deleted Pods a second time and breaks the floor. */
  lemma {:induction false} StaleCurrentBreaksTheFloor(replicas: nat, available: nat, desired: nat)
    requires !ReportFitsSpec(available, replicas, desired)
    ensures var cl, lim := RolledBack(replicas, available, desired), Limits(desired, 1, 0);
            var last := Overspent(replicas, available, desired);
      && TruthfulStart(cl, 0, lim)
      && Reaches(cl, last, 0, lim) && TotalUp(last) < lim.desired - lim.maxUnavailable
  {
    var cl, lim := RolledBack(replicas, available, desired), Limits(desired, 1, 0);
    var last := Overspent(replicas, available, desired);
    TwoTotals(cl[0].view, cl[1].view);
    assert Views(cl) == [cl[0].view, cl[1].view];
    SpentTwice(replicas, available, desired);
    DrainFirst(cl, available - replicas, last, 0, lim);
    TwoUp(last);
  }

  /** A truthful start whose current ReplicaSet has this spec, this status and this desired count. */
  ghost predicate StartsWith(cl: Cluster, c: nat, lim: Limits, replicas: int, available: int, desired: int) {
    && TruthfulStart(cl, c, lim) && lim.desired == desired
    && cl[c].view.replicas == replicas && cl[c].view.available == available
  }

  /** The exact condition, on fields of the API alone: every truthful start whose current ReplicaSet has this
      spec, status and desired count keeps the floor in every run if and only if the status does not run ahead
      of the spec or the spec is at least desired. */
  lemma {:induction false} FloorIsKeptExactly(replicas: nat, available: nat, desired: nat)
    ensures ReportFitsSpec(available, replicas, desired) <==>
      forall cl: Cluster, c: nat, lim: Limits ::
        StartsWith(cl, c, lim, replicas, available, desired) ==> KeepsFloor(cl, c, lim)
  {
    if ReportFitsSpec(available, replicas, desired) {
      forall cl: Cluster, c: nat, lim: Limits | StartsWith(cl, c, lim, replicas, available, desired)
        ensures KeepsFloor(cl, c, lim)
      {
        FittingStartKeepsFloor(cl, c, lim);
      }
    } else {
      StaleCurrentBreaksTheFloor(replicas, available, desired);
      var cl, lim := RolledBack(replicas, available, desired), Limits(desired, 1, 0);
      assert StartsWith(cl, 0, lim, replicas, available, desired);
      var events :| Possible(cl, events, 0, lim) && After(cl, events, 0, lim) == Overspent(replicas, available, desired);
      assert !KeepsFloor(cl, 0, lim);
    }
  }
}
