/**
 Identity-preserving convergence: with the resize policy off, passes over Pods that settle between calls
 keep every Pod, patch each stale one exactly once, and then write nothing more.
 */
module InPlaceConvergence {
  import opened Arith
  import opened Containers
  import opened Counting
  import opened InPlace
  import opened InPlaceRuns
  import opened Matching
  import opened Sorting
  import opened Workload

  /** The identities of the Pods that satisfy p, in order. */
  function Where(pods: seq<Pod>, p: Pod -> bool): (r: seq<nat>)
    ensures |r| == Count(pods, p)
  {
    if pods == [] then []
    else (if p(pods[0]) then [pods[0].uid] else []) + Where(pods[1..], p)
  }

  function Any(pod: Pod): bool { true }

  /* ----- What was patched ----- */

  /** The identities the calls are about, in order. */
  function CalledUids(log: seq<Entry>): (r: seq<nat>)
    ensures |r| == |log| && forall i :: 0 <= i < |log| ==> r[i] == UidOf(log[i])
  {
    if log == [] then [] else [UidOf(log[0])] + CalledUids(log[1..])
  }

  /** The calls are accepted patches, one for each identity in order, and nothing else. */
  ghost predicate Patches(log: seq<Entry>, uids: seq<nat>) {
    |log| == |uids| && forall i :: 0 <= i < |log| ==> log[i].PatchCall? && log[i].taken && log[i].pod.uid == uids[i]
  }

  lemma {:induction false} PatchesOfConcat(a: seq<Entry>, us: seq<nat>, b: seq<Entry>, vs: seq<nat>)
    requires Patches(a, us) && Patches(b, vs)
    ensures Patches(a + b, us + vs)
  {
  }

  lemma {:induction false} PatchedAreCalled(log: seq<Entry>, uids: seq<nat>)
    requires Patches(log, uids)
    ensures CalledUids(log) == uids
  {
  }

  /* ----- One pass, with visits kept abstract ----- */

  /** A visit acts exactly on a candidate, never loses the Pod, settles the candidate and keeps it good. */
  ghost predicate Fixes(v: Visit, pod: Pod, candidate: Pod -> bool, good: Pod -> bool) {
    && !v.failed && v.acted == candidate(pod)
    && v.live.Some? && v.live.value.uid == pod.uid
    && !candidate(v.live.value) && good(v.live.value)
    && v.log == (if v.acted then [PatchCall(v.live.value, true)] else [])
  }

  ghost predicate FixesAll(visit: (Pod, nat) -> Visit, candidate: Pod -> bool, good: Pod -> bool) {
    forall pod, at: nat :: good(pod) ==> Fixes(visit(pod, at), pod, candidate, good)
  }

  ghost predicate All(pods: seq<Pod>, good: Pod -> bool) {
    forall i :: 0 <= i < |pods| ==> good(pods[i])
  }

  /** A pass keeps the identities in order, and each stale Pod was either acted on or is still stale. */
  ghost predicate Conserves(r: Pass, pods: seq<Pod>, candidate: Pod -> bool, good: Pod -> bool) {
    && Where(r.live, Any) == Where(pods, Any) && All(r.live, good)
    && multiset(r.acted) + multiset(Where(r.live, candidate)) == multiset(Where(pods, candidate))
  }

  lemma {:induction false} UpdateConserves(visit: (Pod, nat) -> Visit, pods: seq<Pod>, candidate: Pod -> bool,
                                           good: Pod -> bool, parallelism: int, inFlight: int, at: nat)
    requires FixesAll(visit, candidate, good) && All(pods, good)
    ensures Conserves(Update(visit, pods, parallelism, inFlight, at), pods, candidate, good)
  {
    if pods != [] && inFlight < parallelism {
      var v := visit(pods[0], at);
      assert good(pods[0]) && Fixes(v, pods[0], candidate, good);
      var inFlight', at' := inFlight + (if v.acted then 1 else 0), at + |v.log|;
      UpdateConserves(visit, pods[1..], candidate, good, parallelism, inFlight', at');
      ConservesStep(v, pods, Update(visit, pods[1..], parallelism, inFlight', at'), candidate, good);
    } else {
      UpdateStops(visit, pods, parallelism, inFlight, at);
    }
  }

  /** A pass makes one call, a patch, for each Pod it acts on. */
  lemma {:induction false} UpdatePatches(visit: (Pod, nat) -> Visit, pods: seq<Pod>, candidate: Pod -> bool,
                                         good: Pod -> bool, parallelism: int, inFlight: int, at: nat)
    requires FixesAll(visit, candidate, good) && All(pods, good)
    ensures var r := Update(visit, pods, parallelism, inFlight, at); Patches(r.log, r.acted)
  {
    if pods != [] && inFlight < parallelism {
      var v := visit(pods[0], at);
      assert good(pods[0]) && Fixes(v, pods[0], candidate, good);
      var inFlight', at' := inFlight + (if v.acted then 1 else 0), at + |v.log|;
      UpdatePatches(visit, pods[1..], candidate, good, parallelism, inFlight', at');
      PatchesStep(pods[0], v, Update(visit, pods[1..], parallelism, inFlight', at'));
    } else {
      UpdateStops(visit, pods, parallelism, inFlight, at);
    }
  }

  lemma {:induction false} PatchesStep(pod: Pod, v: Visit, rest: Pass)
    requires v.acted ==> v.live.Some? && v.live.value.uid == pod.uid
    requires v.log == (if v.acted then [PatchCall(v.live.value, true)] else []) && Patches(rest.log, rest.acted)
    ensures Patches(Extend(pod, v, rest).log, Extend(pod, v, rest).acted)
  {
    PatchesOfConcat(v.log, if v.acted then [pod.uid] else [], rest.log, rest.acted);
  }

  lemma {:induction false} UpdateActs(visit: (Pod, nat) -> Visit, pods: seq<Pod>, candidate: Pod -> bool,
                                      good: Pod -> bool, parallelism: int, inFlight: int, at: nat)
    requires FixesAll(visit, candidate, good) && All(pods, good)
    ensures |Update(visit, pods, parallelism, inFlight, at).acted| == Min(Count(pods, candidate), Max(parallelism - inFlight, 0))
  {
    if pods != [] && inFlight < parallelism {
      var v := visit(pods[0], at);
      assert good(pods[0]) && Fixes(v, pods[0], candidate, good);
      UpdateActs(visit, pods[1..], candidate, good, parallelism, inFlight + (if v.acted then 1 else 0), at + |v.log|);
    }
  }

  /** The identities of a Pod satisfying p, followed by those of the rest. */
  lemma {:induction false} WhereCons(pod: Pod, rest: seq<Pod>, p: Pod -> bool)
    ensures Where([pod] + rest, p) == (if p(pod) then [pod.uid] else []) + Where(rest, p)
  {
    assert ([pod] + rest)[1..] == rest;
  }

  lemma {:induction false} OneMoreActed(some: seq<nat>, acted: seq<nat>, left: seq<nat>, stale: seq<nat>)
    requires multiset(acted) + multiset(left) == multiset(stale)
    ensures multiset(some + acted) + multiset(left) == multiset(some + stale)
  {
  }

  lemma {:induction false} KeepsOneMore(pod: Pod, live: Pod, pods: seq<Pod>, rest: seq<Pod>)
    requires live.uid == pod.uid && Where(rest, Any) == Where(pods, Any)
    ensures Where([live] + rest, Any) == Where([pod] + pods, Any)
  {
    WhereCons(live, rest, Any);
    WhereCons(pod, pods, Any);
  }

  lemma {:induction false} SettlesOneMore(pod: Pod, live: Pod, pods: seq<Pod>, rest: seq<Pod>, acted: seq<nat>, p: Pod -> bool)
    requires !p(live) && multiset(acted) + multiset(Where(rest, p)) == multiset(Where(pods, p))
    ensures multiset((if p(pod) then [pod.uid] else []) + acted) + multiset(Where([live] + rest, p)) ==
            multiset(Where([pod] + pods, p))
  {
    WhereCons(live, rest, p);
    WhereCons(pod, pods, p);
    OneMoreActed(if p(pod) then [pod.uid] else [], acted, Where(rest, p), Where(pods, p));
  }

  lemma {:induction false} ConservesStep(v: Visit, pods: seq<Pod>, rest: Pass, candidate: Pod -> bool, good: Pod -> bool)
    requires pods != [] && Fixes(v, pods[0], candidate, good) && Conserves(rest, pods[1..], candidate, good)
    ensures Conserves(Extend(pods[0], v, rest), pods, candidate, good)
  {
    var pod, live, left, acted := pods[0], v.live.value, pods[1..], if v.acted then [pods[0].uid] else [];
    var whole := Extend(pod, v, rest);
    assert pods == [pod] + left && whole.live == [live] + rest.live && whole.acted == acted + rest.acted;
    KeepsOneMore(pod, live, left, rest.live);
    SettlesOneMore(pod, live, left, rest.live, rest.acted, candidate);
  }

  /* ----- Listing order and settling do not matter ----- */

  lemma {:induction false} InsertWhere(x: Pod, s: seq<Pod>, p: Pod -> bool, key: Pod -> int)
    ensures multiset(Where(Insert(x, s, key), p)) == multiset(Where([x], p)) + multiset(Where(s, p))
  {
    assert [x][1..] == [];
    if s != [] && key(x) > key(s[0]) {
      InsertWhere(x, s[1..], p, key);
    } else {
      assert Insert(x, s, key)[1..] == s;
    }
  }

  lemma {:induction false} SortWhere(s: seq<Pod>, p: Pod -> bool, key: Pod -> int)
    ensures multiset(Where(StableSort(s, key), p)) == multiset(Where(s, p))
  {
    if s != [] {
      SortWhere(s[1..], p, key);
      InsertWhere(s[0], StableSort(s[1..], key), p, key);
      assert [s[0]][1..] == [];
    }
  }

  lemma {:induction false} SortAll(s: seq<Pod>, good: Pod -> bool, key: Pod -> int)
    requires All(s, good)
    ensures All(StableSort(s, key), good)
  {
    StableSortSorts(s, key);
    var r := StableSort(s, key);
    forall i | 0 <= i < |r|
      ensures good(r[i])
    {
      assert r[i] in multiset(r);
      assert r[i] in s;
    }
  }

  lemma {:induction false} SameWhere(a: seq<Pod>, b: seq<Pod>, p: Pod -> bool)
    requires |a| == |b| && forall i :: 0 <= i < |a| ==> a[i].uid == b[i].uid && p(a[i]) == p(b[i])
    ensures Where(a, p) == Where(b, p)
  {
    if a != [] {
      SameWhere(a[1..], b[1..], p);
    }
  }

  /* ----- Rounds ----- */

  /** Between two passes the kubelet reports on the Pods, and they are listed in some order. */
  datatype Round = Round(settled: seq<Pod>, order: Pod -> int, parallelism: int, answers: Answers)

  /** Only the kubelet's reports changed, and every Pod that carries the template is now ready with the
      observed images: what the readiness hypothesis says. */
  ghost predicate SettledFrom(cfg: Config, t: Template, pods: seq<Pod>, settled: seq<Pod>) {
    && |settled| == |pods|
    && forall i :: 0 <= i < |pods| ==>
      && settled[i] == pods[i].(resize := settled[i].resize, ready := settled[i].ready,
                                initStatuses := settled[i].initStatuses, statuses := settled[i].statuses)
      && !Unsettled(cfg, settled[i], t)
  }

  ghost predicate Fair(cfg: Config, t: Template, pods: seq<Pod>, r: Round) {
    SettledFrom(cfg, t, pods, r.settled) && r.parallelism >= 1 && NoErrors(r.answers)
  }

  function RunRound(cfg: Config, t: Template, r: Round): Pass {
    UpdatePass(cfg, StableSort(r.settled, r.order), t, r.parallelism, r.answers, 0)
  }

  function FitsIn(cfg: Config, t: Template): Pod -> bool {
    (pod: Pod) => Fits(cfg, pod, t)
  }

  /** What the theorem asks of the configuration: the resize policy is off and every Pod is eligible. */
  ghost predicate MetadataAndImagesOnly(cfg: Config) {
    !cfg.policy.resizeResources && forall pod :: cfg.eligible(pod)
  }

  lemma {:induction false} VisitFixes(cfg: Config, pod: Pod, t: Template, answers: Answers, at: nat)
    requires MetadataAndImagesOnly(cfg) && NoErrors(answers) && Fits(cfg, pod, t)
    ensures Fixes(VisitPod(cfg, pod, t, answers, at), pod, DueIn(cfg, t), FitsIn(cfg, t))
  {
    assert answers.patch(at) && cfg.eligible(pod);
    DueMeans(cfg, pod, t);
    if !SpecMatches(cfg, pod, t) {
      SettersEstablishSpecMatches(cfg, pod, t);
      PatchedStillFits(cfg, pod, t);
      var q := Patched(cfg, pod, t).value;
      DueMeans(cfg, q, t);
      assert !NeedsResize(cfg, q, t);
      assert !DueIn(cfg, t)(q) && FitsIn(cfg, t)(q);
    }
  }

  lemma {:induction false} PatchedStillFits(cfg: Config, pod: Pod, t: Template)
    requires Fits(cfg, pod, t) && Patched(cfg, pod, t).Ok?
    ensures Fits(cfg, Patched(cfg, pod, t).value, t)
  {
    var q := Patched(cfg, pod, t).value;
    PatchedFrame(cfg, pod, t);
    forall i | 0 <= i < |t.initContainers|
      ensures Has(q.initContainers, t.initContainers[i].name)
    {
      IndexOfByNames(pod.initContainers, q.initContainers, t.initContainers[i].name);
    }
    forall i | 0 <= i < |t.containers|
      ensures Has(q.containers, t.containers[i].name)
    {
      IndexOfByNames(pod.containers, q.containers, t.containers[i].name);
    }
  }

  lemma {:induction false} SettlingKeeps(cfg: Config, t: Template, pods: seq<Pod>, settled: seq<Pod>)
    requires MetadataAndImagesOnly(cfg) && SettledFrom(cfg, t, pods, settled) && All(pods, FitsIn(cfg, t))
    ensures All(settled, FitsIn(cfg, t))
    ensures Where(settled, Any) == Where(pods, Any)
    ensures Where(settled, DueIn(cfg, t)) == Where(pods, DueIn(cfg, t))
    ensures Where(settled, UnsettledIn(cfg, t)) == []
  {
    forall i | 0 <= i < |pods|
      ensures Fits(cfg, settled[i], t) && settled[i].uid == pods[i].uid
      ensures Due(cfg, settled[i], t) == Due(cfg, pods[i], t)
    {
      assert FitsIn(cfg, t)(pods[i]);
      SameTemplate(cfg, pods[i], settled[i], t);
    }
    SameWhere(settled, pods, Any);
    SameWhere(settled, pods, DueIn(cfg, t));
    NoneWhere(settled, UnsettledIn(cfg, t));
  }

  lemma {:induction false} SameTemplate(cfg: Config, a: Pod, b: Pod, t: Template)
    requires b == a.(resize := b.resize, ready := b.ready, initStatuses := b.initStatuses, statuses := b.statuses)
    ensures CarriesTemplate(cfg, b, t) == CarriesTemplate(cfg, a, t) && Fits(cfg, b, t) == Fits(cfg, a, t)
  {
  }

  lemma {:induction false} NoneWhere(s: seq<Pod>, p: Pod -> bool)
    requires forall i :: 0 <= i < |s| ==> !p(s[i])
    ensures Where(s, p) == []
  {
    if s != [] {
      NoneWhere(s[1..], p);
    }
  }

  /** What one round keeps and how far it gets. */
  ghost predicate Advances(pass: Pass, pods: seq<Pod>, candidate: Pod -> bool, good: Pod -> bool, parallelism: int) {
    && All(pass.live, good)
    && multiset(Where(pass.live, Any)) == multiset(Where(pods, Any))
    && multiset(pass.acted) + multiset(Where(pass.live, candidate)) == multiset(Where(pods, candidate))
    && |pass.acted| == Min(Count(pods, candidate), parallelism)
    && (Count(pods, candidate) == 0 ==> pass.log == [])
  }

  lemma {:induction false} OldestPassAdvances(visit: (Pod, nat) -> Visit, oldest: seq<Pod>, candidate: Pod -> bool,
                                              good: Pod -> bool, parallelism: int)
    requires FixesAll(visit, candidate, good) && All(oldest, good) && parallelism >= 1
    ensures Advances(Update(visit, oldest, parallelism, 0, 0), oldest, candidate, good, parallelism)
  {
    UpdateConserves(visit, oldest, candidate, good, parallelism, 0, 0);
    UpdatePatches(visit, oldest, candidate, good, parallelism, 0, 0);
    UpdateActs(visit, oldest, candidate, good, parallelism, 0, 0);
  }

  /** The same Pods in another order. */
  ghost predicate Relisted(a: seq<Pod>, b: seq<Pod>, candidate: Pod -> bool, busy: Pod -> bool) {
    && multiset(Where(a, Any)) == multiset(Where(b, Any))
    && multiset(Where(a, candidate)) == multiset(Where(b, candidate))
    && Count(a, candidate) == Count(b, candidate) && Count(a, busy) == Count(b, busy)
  }

  lemma {:induction false} RelistedAdvances(pass: Pass, a: seq<Pod>, b: seq<Pod>, candidate: Pod -> bool,
                                            busy: Pod -> bool, good: Pod -> bool, parallelism: int)
    requires Advances(pass, a, candidate, good, parallelism) && Relisted(a, b, candidate, busy)
    ensures Advances(pass, b, candidate, good, parallelism)
  {
  }

  /** A pass over settled Pods, listed in any order and then sorted oldest first. */
  lemma {:induction false} ListedPassAdvances(visit: (Pod, nat) -> Visit, pods: seq<Pod>, candidate: Pod -> bool,
                                              busy: Pod -> bool, good: Pod -> bool, order: Pod -> int, parallelism: int)
    requires FixesAll(visit, candidate, good) && All(pods, good) && Count(pods, busy) == 0 && parallelism >= 1
    ensures var listed := StableSort(pods, order);
      Advances(Update(visit, StableSort(listed, Created), parallelism, Count(listed, busy), 0),
               pods, candidate, good, parallelism)
  {
    var listed := StableSort(pods, order);
    var oldest := StableSort(listed, Created);
    ListingKeeps(pods, order, candidate, busy, good);
    ListingKeeps(listed, Created, candidate, busy, good);
    OldestPassAdvances(visit, oldest, candidate, good, parallelism);
    var pass := Update(visit, oldest, parallelism, 0, 0);
    RelistedAdvances(pass, oldest, listed, candidate, busy, good, parallelism);
    RelistedAdvances(pass, listed, pods, candidate, busy, good, parallelism);
  }

  lemma {:induction false} ListingKeeps(s: seq<Pod>, key: Pod -> int, candidate: Pod -> bool, busy: Pod -> bool,
                                        good: Pod -> bool)
    requires All(s, good)
    ensures All(StableSort(s, key), good) && Relisted(StableSort(s, key), s, candidate, busy)
  {
    SortAll(s, good, key);
    SortWhere(s, Any, key);
    SortWhere(s, candidate, key);
    SortCounts(s, candidate, key);
    SortCounts(s, busy, key);
  }

  lemma {:induction false} VisitsFix(cfg: Config, t: Template, answers: Answers)
    requires MetadataAndImagesOnly(cfg) && NoErrors(answers)
    ensures FixesAll(VisitIn(cfg, t, answers), DueIn(cfg, t), FitsIn(cfg, t))
  {
    forall pod, at: nat | FitsIn(cfg, t)(pod)
      ensures Fixes(VisitIn(cfg, t, answers)(pod, at), pod, DueIn(cfg, t), FitsIn(cfg, t))
    {
      VisitFixes(cfg, pod, t, answers, at);
    }
  }

  lemma {:induction false} RoundPatches(cfg: Config, t: Template, pods: seq<Pod>, r: Round)
    requires MetadataAndImagesOnly(cfg) && All(pods, FitsIn(cfg, t)) && Fair(cfg, t, pods, r)
    ensures Patches(RunRound(cfg, t, r).log, RunRound(cfg, t, r).acted)
  {
    SettlingKeeps(cfg, t, pods, r.settled);
    VisitsFix(cfg, t, r.answers);
    SortAll(r.settled, FitsIn(cfg, t), r.order);
    var listed := StableSort(r.settled, r.order);
    SortAll(listed, FitsIn(cfg, t), Created);
    UpdatePatches(VisitIn(cfg, t, r.answers), StableSort(listed, Created), DueIn(cfg, t), FitsIn(cfg, t),
                  r.parallelism, Count(listed, InFlightIn(cfg, t)), 0);
  }

  /** One fair round conserves identities and stale Pods, and acts on as many as it is allowed. */
  lemma {:induction false} RoundAdvances(cfg: Config, t: Template, pods: seq<Pod>, r: Round)
    requires MetadataAndImagesOnly(cfg) && All(pods, FitsIn(cfg, t)) && Fair(cfg, t, pods, r)
    ensures Advances(RunRound(cfg, t, r), pods, DueIn(cfg, t), FitsIn(cfg, t), r.parallelism)
  {
    SettlingKeeps(cfg, t, pods, r.settled);
    VisitsFix(cfg, t, r.answers);
    ListedPassAdvances(VisitIn(cfg, t, r.answers), r.settled, DueIn(cfg, t), UnsettledIn(cfg, t),
                       FitsIn(cfg, t), r.order, r.parallelism);
    InFlightCount(cfg, StableSort(r.settled, r.order), t);
    var pass := RunRound(cfg, t, r);
    assert Advances(pass, r.settled, DueIn(cfg, t), FitsIn(cfg, t), r.parallelism);
    SameCounts(r.settled, pods, DueIn(cfg, t));
  }

  lemma {:induction false} SameCounts(a: seq<Pod>, b: seq<Pod>, p: Pod -> bool)
    requires Where(a, p) == Where(b, p)
    ensures Count(a, p) == Count(b, p)
  {
    assert |Where(a, p)| == |Where(b, p)|;
  }

  /* ----- Runs ----- */

  ghost predicate FairRun(cfg: Config, t: Template, pods: seq<Pod>, rounds: seq<Round>)
    decreases |rounds|
  {
    |rounds| == 0 ||
    (Fair(cfg, t, pods, rounds[0]) && FairRun(cfg, t, RunRound(cfg, t, rounds[0]).live, rounds[1..]))
  }

  function After(cfg: Config, t: Template, pods: seq<Pod>, rounds: seq<Round>): seq<Pod>
    decreases |rounds|
  {
    if |rounds| == 0 then pods else After(cfg, t, RunRound(cfg, t, rounds[0]).live, rounds[1..])
  }

  /** The identities acted on over a run, and the calls it made. */
  function Acted(cfg: Config, t: Template, rounds: seq<Round>): seq<nat> {
    if |rounds| == 0 then [] else RunRound(cfg, t, rounds[0]).acted + Acted(cfg, t, rounds[1..])
  }

  function Calls(cfg: Config, t: Template, rounds: seq<Round>): seq<Entry> {
    if |rounds| == 0 then [] else RunRound(cfg, t, rounds[0]).log + Calls(cfg, t, rounds[1..])
  }

  /** Every call of a run is an accepted patch, one for each identity acted on. */
  lemma {:induction false} RunPatches(cfg: Config, t: Template, pods: seq<Pod>, rounds: seq<Round>)
    requires MetadataAndImagesOnly(cfg) && All(pods, FitsIn(cfg, t)) && FairRun(cfg, t, pods, rounds)
    ensures Patches(Calls(cfg, t, rounds), Acted(cfg, t, rounds))
    decreases |rounds|
  {
    if |rounds| > 0 {
      var pass := RunRound(cfg, t, rounds[0]);
      RoundPatches(cfg, t, pods, rounds[0]);
      RoundAdvances(cfg, t, pods, rounds[0]);
      RunPatches(cfg, t, pass.live, rounds[1..]);
      PatchesOfConcat(pass.log, pass.acted, Calls(cfg, t, rounds[1..]), Acted(cfg, t, rounds[1..]));
    }
  }

  lemma {:induction false} RunConverges(cfg: Config, t: Template, pods: seq<Pod>, rounds: seq<Round>)
    requires MetadataAndImagesOnly(cfg) && All(pods, FitsIn(cfg, t)) && FairRun(cfg, t, pods, rounds)
    ensures Converges(pods, After(cfg, t, pods, rounds), Acted(cfg, t, rounds), Calls(cfg, t, rounds), |rounds|,
                      DueIn(cfg, t))
    decreases |rounds|
  {
    if |rounds| > 0 {
      var pass := RunRound(cfg, t, rounds[0]);
      RoundAdvances(cfg, t, pods, rounds[0]);
      RunConverges(cfg, t, pass.live, rounds[1..]);
      ConvergesStep(pods, pass, FitsIn(cfg, t), rounds[0].parallelism, After(cfg, t, pass.live, rounds[1..]),
                    Acted(cfg, t, rounds[1..]), Calls(cfg, t, rounds[1..]), |rounds| - 1, DueIn(cfg, t));
    }
  }

  /** Every Pod has the template's labels and annotations, records its keys, and has its images, container by
      container. */
  ghost predicate AllCarry(cfg: Config, pods: seq<Pod>, t: Template) {
    forall i :: 0 <= i < |pods| ==> CarriesAllButResources(cfg.names, pods[i], t)
  }

  /** Over any fair run no Pod is created, lost or replaced, every call is an accepted patch, and every Pod that
      was stale has been patched exactly once or is still stale. After as many rounds as there were stale Pods
      all of them carry the template, and a run that starts with none makes no call. */
  lemma {:induction false} ConvergesKeepingIdentity(cfg: Config, t: Template, pods: seq<Pod>, rounds: seq<Round>)
    requires MetadataAndImagesOnly(cfg) && All(pods, FitsIn(cfg, t)) && FairRun(cfg, t, pods, rounds)
    ensures var calls := Calls(cfg, t, rounds);
      && Patches(calls, CalledUids(calls))
      && Converges(pods, After(cfg, t, pods, rounds), CalledUids(calls), calls, |rounds|, DueIn(cfg, t))
    ensures |rounds| >= Count(pods, DueIn(cfg, t)) ==> AllCarry(cfg, After(cfg, t, pods, rounds), t)
  {
    RunPatches(cfg, t, pods, rounds);
    PatchedAreCalled(Calls(cfg, t, rounds), Acted(cfg, t, rounds));
    RunConverges(cfg, t, pods, rounds);
    NoneDueMeansAllCarry(cfg, After(cfg, t, pods, rounds), t);
  }

  /** With the resize policy off and every Pod eligible, none is due exactly when all carry the template. */
  lemma {:induction false} NoneDueMeansAllCarry(cfg: Config, pods: seq<Pod>, t: Template)
    requires MetadataAndImagesOnly(cfg)
    ensures Count(pods, DueIn(cfg, t)) == 0 <==> AllCarry(cfg, pods, t)
  {
    if pods != [] {
      NoneDueMeansAllCarry(cfg, pods[1..], t);
      assert cfg.eligible(pods[0]) && Due(cfg, pods[0], t) == DueIn(cfg, t)(pods[0]);
      if AllCarry(cfg, pods, t) {
        assert forall i :: 0 <= i < |pods[1..]| ==> pods[1..][i] == pods[i + 1];
      }
    }
  }

  ghost predicate Converges(first: seq<Pod>, last: seq<Pod>, acted: seq<nat>, calls: seq<Entry>, rounds: nat,
                            stale: Pod -> bool)
  {
    && multiset(Where(last, Any)) == multiset(Where(first, Any))
    && multiset(acted) + multiset(Where(last, stale)) == multiset(Where(first, stale))
    && Count(last, stale) <= Max(Count(first, stale) - rounds, 0)
    && (Count(first, stale) == 0 ==> calls == [])
  }

  lemma {:induction false} SizesFollow(a: seq<nat>, b: seq<nat>, c: seq<nat>)
    requires multiset(a) + multiset(b) == multiset(c)
    ensures |a| + |b| == |c|
  {
    assert |multiset(a) + multiset(b)| == |a| + |b|;
  }

  lemma {:induction false} ConvergesStep(pods: seq<Pod>, pass: Pass, good: Pod -> bool, parallelism: int, last: seq<Pod>,
                                         acted: seq<nat>, calls: seq<Entry>, rounds: nat, stale: Pod -> bool)
    requires parallelism >= 1 && Advances(pass, pods, stale, good, parallelism)
    requires Converges(pass.live, last, acted, calls, rounds, stale)
    ensures Converges(pods, last, pass.acted + acted, pass.log + calls, rounds + 1, stale)
  {
    SizesFollow(pass.acted, Where(pass.live, stale), Where(pods, stale));
    ActedChain(pass.acted, Where(pass.live, stale), Where(pods, stale), acted, Where(last, stale));
  }

  lemma {:induction false} ActedChain(first: seq<nat>, left: seq<nat>, stale: seq<nat>, second: seq<nat>, last: seq<nat>)
    requires multiset(first) + multiset(left) == multiset(stale) && multiset(second) + multiset(last) == multiset(left)
    ensures multiset(first + second) + multiset(last) == multiset(stale)
  {
  }

  /** Once as many fair rounds have passed as there were stale Pods, every Pod matches and no later fair
      round makes a call. */
  lemma {:induction false} LaterRoundsWriteNothing(cfg: Config, t: Template, pods: seq<Pod>, first: seq<Round>,
                                                   later: seq<Round>)
    requires MetadataAndImagesOnly(cfg) && All(pods, FitsIn(cfg, t)) && |first| >= Count(pods, DueIn(cfg, t))
    requires FairRun(cfg, t, pods, first) && FairRun(cfg, t, After(cfg, t, pods, first), later)
    ensures Calls(cfg, t, later) == []
    ensures AllCarry(cfg, After(cfg, t, After(cfg, t, pods, first), later), t)
  {
    ConvergesKeepingIdentity(cfg, t, pods, first);
    StaysFit(cfg, t, pods, first);
    ConvergesKeepingIdentity(cfg, t, After(cfg, t, pods, first), later);
  }

  lemma {:induction false} StaysFit(cfg: Config, t: Template, pods: seq<Pod>, rounds: seq<Round>)
    requires MetadataAndImagesOnly(cfg) && All(pods, FitsIn(cfg, t)) && FairRun(cfg, t, pods, rounds)
    ensures All(After(cfg, t, pods, rounds), FitsIn(cfg, t))
    decreases |rounds|
  {
    if |rounds| > 0 {
      RoundAdvances(cfg, t, pods, rounds[0]);
      StaysFit(cfg, t, RunRound(cfg, t, rounds[0]).live, rounds[1..]);
    }
  }

  /** So with distinct identities no two calls of the run are about the same Pod. */
  lemma {:induction false} NoPodIsPatchedTwice(cfg: Config, t: Template, pods: seq<Pod>, rounds: seq<Round>)
    requires MetadataAndImagesOnly(cfg) && All(pods, FitsIn(cfg, t)) && FairRun(cfg, t, pods, rounds)
    requires forall i, j :: 0 <= i < j < |pods| ==> pods[i].uid != pods[j].uid
    ensures var calls := Calls(cfg, t, rounds);
      && (forall i :: 0 <= i < |calls| ==> calls[i].PatchCall?)
      && forall i, j :: 0 <= i < j < |calls| ==> UidOf(calls[i]) != UidOf(calls[j])
  {
    ConvergesKeepingIdentity(cfg, t, pods, rounds);
    StaleOnce(pods, DueIn(cfg, t));
    PatchedOnce(Calls(cfg, t, rounds), Where(After(cfg, t, pods, rounds), DueIn(cfg, t)),
                Where(pods, DueIn(cfg, t)));
  }

  lemma {:induction false} PatchedOnce(calls: seq<Entry>, left: seq<nat>, stale: seq<nat>)
    requires multiset(CalledUids(calls)) + multiset(left) == multiset(stale)
    requires forall u :: multiset(stale)[u] <= 1
    ensures forall i, j :: 0 <= i < j < |calls| ==> UidOf(calls[i]) != UidOf(calls[j])
  {
    var uids := CalledUids(calls);
    forall i, j | 0 <= i < j < |calls|
      ensures uids[i] != uids[j]
    {
      TwiceInSequence(uids, i, j);
      assert multiset(uids)[uids[i]] <= multiset(stale)[uids[i]];
    }
  }

  lemma {:induction false} StaleOnce(pods: seq<Pod>, p: Pod -> bool)
    requires forall i, j :: 0 <= i < j < |pods| ==> pods[i].uid != pods[j].uid
    ensures forall u :: multiset(Where(pods, p))[u] <= 1
    ensures forall u :: u in Where(pods, p) ==> exists i :: 0 <= i < |pods| && pods[i].uid == u
  {
    if pods != [] {
      StaleOnce(pods[1..], p);
      forall u | u in Where(pods, p)
        ensures exists i :: 0 <= i < |pods| && pods[i].uid == u
      {
        if u in Where(pods[1..], p) {
          var i :| 0 <= i < |pods[1..]| && pods[1..][i].uid == u;
          assert pods[i + 1].uid == u;
        }
      }
      forall u | u in Where(pods[1..], p)
        ensures u != pods[0].uid
      {
        var i :| 0 <= i < |pods[1..]| && pods[1..][i].uid == u;
        assert pods[0].uid != pods[i + 1].uid;
      }
      assert pods[0].uid !in Where(pods[1..], p);
      assert multiset(Where(pods, p)) ==
             (if p(pods[0]) then multiset{pods[0].uid} else multiset{}) + multiset(Where(pods[1..], p));
    }
  }

  lemma {:induction false} TwiceInSequence(s: seq<nat>, i: nat, j: nat)
    requires i < j < |s|
    ensures s[i] == s[j] ==> multiset(s)[s[i]] >= 2
  {
    assert s == s[..j] + ([s[j]] + s[j + 1..]);
    assert multiset(s) == multiset(s[..j]) + (multiset{s[j]} + multiset(s[j + 1..]));
    assert s[i] in s[..j];
  }
}
