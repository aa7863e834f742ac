/**
 Updating the Pods of one ReplicaSet in place: which Pods match, which are still settling, and one
 budgeted, oldest-first pass of patches, resizes and fallback deletions.
 */
module InPlace {
  import opened Containers
  import opened Counting
  import opened Metadata
  import opened Results
  import opened Sorting
  import opened Workload

  /** What a pass is run with: the metadata key names, the policy, the in-place revision of a template, the
      upstream image-name normalisation and the caller's eligibility filter. */
  datatype Config = Config(names: KeyNames, policy: Policy, revisionOf: Template -> string,
                           normalize: string -> string, eligible: Pod -> bool)

  /* ----- Classifying Pods ----- */

  predicate SpecMatches(cfg: Config, pod: Pod, t: Template) {
    && MetadataMatches(cfg.names, pod, t)
    && HasAll(Image, pod.initContainers, t.initContainers)
    && HasAll(Image, pod.containers, t.containers)
    && (cfg.policy.resizeResources ==> HasAll(CpuAndMemory, pod.containers, t.containers))
  }

  /** The image the kubelet reports for a container name, the last report winning. */
  function ReportedImage(statuses: seq<ContainerStatus>, name: string): Option<string> {
    if statuses == [] then None
    else if statuses[|statuses| - 1].name == name then Some(statuses[|statuses| - 1].image)
    else ReportedImage(statuses[..|statuses| - 1], name)
  }

  predicate StatusesHaveImages(cfg: Config, statuses: seq<ContainerStatus>, desired: seq<Container>) {
    forall i :: 0 <= i < |desired| ==>
      match ReportedImage(statuses, desired[i].name)
      case None => false
      case Some(image) => cfg.normalize(image) == cfg.normalize(desired[i].image)
  }

  /** The check as the controller runs it: index the statuses by name, then look every container up. */
  method CheckStatuses(cfg: Config, statuses: seq<ContainerStatus>, desired: seq<Container>) returns (ok: bool)
    ensures ok == StatusesHaveImages(cfg, statuses, desired)
  {
    var byName: map<string, string> := map[];
    for i := 0 to |statuses|
      invariant forall name :: name in byName <==> ReportedImage(statuses[..i], name).Some?
      invariant forall name :: name in byName ==> ReportedImage(statuses[..i], name) == Some(byName[name])
    {
      assert statuses[..i + 1][..i] == statuses[..i];
      byName := byName[statuses[i].name := statuses[i].image];
    }
    assert statuses[..|statuses|] == statuses;
    for i := 0 to |desired|
      invariant forall j :: 0 <= j < i ==>
        desired[j].name in byName && cfg.normalize(byName[desired[j].name]) == cfg.normalize(desired[j].image)
    {
      var name := desired[i].name;
      if name !in byName || cfg.normalize(byName[name]) != cfg.normalize(desired[i].image) {
        return false;
      }
    }
    return true;
  }

  predicate ReadyAndObserved(cfg: Config, pod: Pod, t: Template) {
    && SpecMatches(cfg, pod, t)
    && !(cfg.policy.resizeResources && pod.resize != NoResize)
    && pod.ready
    && StatusesHaveImages(cfg, pod.initStatuses, t.initContainers)
    && StatusesHaveImages(cfg, pod.statuses, t.containers)
  }

  predicate ResizeInfeasible(cfg: Config, pod: Pod) {
    cfg.policy.resizeResources && pod.resize == Infeasible
  }

  /** Updated and not yet settled: it occupies one slot of the budget. */
  predicate InFlight(cfg: Config, pod: Pod, t: Template) {
    && cfg.eligible(pod) && !ResizeInfeasible(cfg, pod)
    && SpecMatches(cfg, pod, t) && !ReadyAndObserved(cfg, pod, t)
  }

  function InFlightIn(cfg: Config, t: Template): Pod -> bool {
    (pod: Pod) => InFlight(cfg, pod, t)
  }

  function Created(pod: Pod): int { pod.created }

  /* ----- Updating one Pod ----- */

  /** What the image setters leave of a Pod: all images set, or those before a missing container. */
  function WithImages(pod: Pod, t: Template): (r: Pod)
    ensures r.uid == pod.uid && r.created == pod.created
  {
    var p := pod.(initContainers := Written(Image, pod.initContainers, t.initContainers));
    if SetAll(Image, pod.initContainers, t.initContainers).Err? then p
    else p.(containers := Written(Image, pod.containers, t.containers))
  }

  /** Images, metadata and revision annotation taken from the template. */
  function Patched(cfg: Config, pod: Pod, t: Template): (r: Result<Pod>)
    ensures r.Ok? ==> r.value.uid == pod.uid && r.value.created == pod.created
  {
    match SetAll(Image, pod.initContainers, t.initContainers)
    case Err(e) => Err(e)
    case Ok(init) =>
      match SetAll(Image, pod.containers, t.containers)
      case Err(e) => Err(e)
      case Ok(cs) =>
        Ok(Synced(cfg.names, pod.(initContainers := init, containers := cs), t, cfg.revisionOf(t)))
  }

  /** CPU and memory taken from the template. */
  function Resized(pod: Pod, t: Template): (r: Result<Pod>)
    ensures r.Ok? ==> r.value.uid == pod.uid && r.value.created == pod.created
  {
    match SetAll(CpuAndMemory, pod.containers, t.containers)
    case Err(e) => Err(e)
    case Ok(cs) => Ok(pod.(containers := cs))
  }

  predicate NeedsResize(cfg: Config, pod: Pod, t: Template) {
    cfg.policy.resizeResources && !HasAll(CpuAndMemory, pod.containers, t.containers)
  }

  /* ----- The API server ----- */

  datatype ResizeAnswer = ResizeTaken | ResizeRejected | ResizeFailed
  datatype DeleteAnswer = Deleted | AlreadyGone | DeleteFailed

  /** What the API server answers to the k-th call. */
  datatype Answers = Answers(patch: nat -> bool, resize: nat -> ResizeAnswer, delete: nat -> DeleteAnswer)

  datatype Entry =
    | PatchCall(pod: Pod, taken: bool)
    | ResizeCall(pod: Pod, answered: ResizeAnswer)
    | DeleteCall(uid: nat, outcome: DeleteAnswer)

  class Api {
    var log: seq<Entry>
    const answers: Answers

    constructor (answers: Answers)
      ensures log == [] && this.answers == answers
    {
      log := [];
      this.answers := answers;
    }

    method Patch(pod: Pod) returns (ok: bool)
      modifies this
      ensures ok == answers.patch(|old(log)|) && log == old(log) + [PatchCall(pod, ok)]
    {
      ok := answers.patch(|log|);
      log := log + [PatchCall(pod, ok)];
    }

    method ResizePod(pod: Pod) returns (answer: ResizeAnswer)
      modifies this
      ensures answer == answers.resize(|old(log)|) && log == old(log) + [ResizeCall(pod, answer)]
    {
      answer := answers.resize(|log|);
      log := log + [ResizeCall(pod, answer)];
    }

    method Delete(uid: nat) returns (answer: DeleteAnswer)
      modifies this
      ensures answer == answers.delete(|old(log)|) && log == old(log) + [DeleteCall(uid, answer)]
    {
      answer := answers.delete(|log|);
      log := log + [DeleteCall(uid, answer)];
    }
  }

  /* ----- One visit and one pass, as functions ----- */

  /** What the loop does at one Pod while there is budget: the Pod in memory afterwards, the calls, whether
      it took a slot, whether it failed, and the Pod the API server is left with, if any. */
  datatype Visit = Visit(pod: Pod, log: seq<Entry>, acted: bool, failed: bool, live: Option<Pod>)

  function VisitPod(cfg: Config, pod: Pod, t: Template, answers: Answers, at: nat): (v: Visit)
    ensures v.pod.uid == pod.uid && (v.live.Some? ==> v.live.value.uid == pod.uid)
  {
    if !cfg.eligible(pod) then Visit(pod, [], false, false, Some(pod))
    else if ResizeInfeasible(cfg, pod) then ReplaceVisit(pod, answers, at)
    else if SpecMatches(cfg, pod, t) then Visit(pod, [], false, false, Some(pod))
    else UpdateVisit(cfg, pod, WithImages(pod, t), Patched(cfg, pod, t), t, answers, at)
  }

  function ReplaceVisit(pod: Pod, answers: Answers, at: nat): Visit {
    var answer := answers.delete(at);
    Visit(pod, [DeleteCall(pod.uid, answer)], !answer.DeleteFailed?, answer.DeleteFailed?,
          if answer.DeleteFailed? then Some(pod) else None)
  }

  /** partial is what is left in memory when a container is missing. */
  function UpdateVisit(cfg: Config, pod: Pod, partial: Pod, patched: Result<Pod>, t: Template, answers: Answers, at: nat)
    : (v: Visit)
    requires partial.uid == pod.uid && (patched.Ok? ==> patched.value.uid == pod.uid)
    ensures v.pod.uid == pod.uid && (v.live.Some? ==> v.live.value.uid == pod.uid)
  {
    if patched.Err? then Visit(partial, [], false, true, Some(pod)) else SendVisit(cfg, pod, patched.value, t, answers, at)
  }

  /** was is what the API server keeps when it refuses the patch. */
  function SendVisit(cfg: Config, was: Pod, patched: Pod, t: Template, answers: Answers, at: nat): (v: Visit)
    requires patched.uid == was.uid
    ensures v.pod.uid == was.uid && (v.live.Some? ==> v.live.value.uid == was.uid)
  {
    var log := [PatchCall(patched, answers.patch(at))];
    if !answers.patch(at) then Visit(patched, log, false, true, Some(was))
    else if !NeedsResize(cfg, patched, t) then Visit(patched, log, true, false, Some(patched))
    else
      var v := ResizeVisit(patched, WithResources(patched, t), Resized(patched, t), answers, at + 1);
      v.(log := log + v.log)
  }

  function WithResources(pod: Pod, t: Template): Pod {
    pod.(containers := Written(CpuAndMemory, pod.containers, t.containers))
  }

  function ResizeVisit(patched: Pod, partial: Pod, resized: Result<Pod>, answers: Answers, at: nat): (v: Visit)
    requires partial.uid == patched.uid && (resized.Ok? ==> resized.value.uid == patched.uid)
    ensures v.pod.uid == patched.uid && (v.live.Some? ==> v.live.value.uid == patched.uid)
  {
    if resized.Err? then Visit(partial, [], false, true, Some(patched))
    else
      var log := [ResizeCall(resized.value, answers.resize(at))];
      match answers.resize(at)
      case ResizeTaken => Visit(resized.value, log, true, false, Some(resized.value))
      case ResizeFailed => Visit(resized.value, log, false, true, Some(patched))
      case ResizeRejected =>
        var v := ReplaceVisit(patched, answers, at + 1);
        v.(pod := resized.value, log := log + v.log)
  }

  function LiveOf(v: Visit): seq<Pod> {
    if v.live.Some? then [v.live.value] else []
  }

  /** A whole pass: the Pods in memory, the calls, whether it failed, the Pods left on the API server, and
      the identities acted on, in order. */
  datatype Pass = Pass(pods: seq<Pod>, log: seq<Entry>, failed: bool, live: seq<Pod>, acted: seq<nat>)

  /** A visit to a Pod, followed by the rest of the pass. */
  function Extend(pod: Pod, v: Visit, rest: Pass): Pass {
    Pass([v.pod] + rest.pods, v.log + rest.log, rest.failed, LiveOf(v) + rest.live,
         (if v.acted then [pod.uid] else []) + rest.acted)
  }

  function Update(visit: (Pod, nat) -> Visit, pods: seq<Pod>, parallelism: int, inFlight: int, at: nat): (r: Pass)
    ensures |r.pods| == |pods|
  {
    if pods == [] || inFlight >= parallelism then Pass(pods, [], false, pods, [])
    else
      var v := visit(pods[0], at);
      if v.failed then Pass([v.pod] + pods[1..], v.log, true, LiveOf(v) + pods[1..], [])
      else
        Extend(pods[0], v, Update(visit, pods[1..], parallelism, inFlight + (if v.acted then 1 else 0), at + |v.log|))
  }

  function VisitIn(cfg: Config, t: Template, answers: Answers): (Pod, nat) -> Visit {
    (pod: Pod, at: nat) => VisitPod(cfg, pod, t, answers, at)
  }

  /** The pass the controller runs: nothing without parallelism, and otherwise oldest first, with the slots
      already taken by Pods still settling. */
  function UpdatePass(cfg: Config, pods: seq<Pod>, t: Template, parallelism: int, answers: Answers, at: nat): (r: Pass)
    ensures |r.pods| == |pods|
  {
    if parallelism < 1 then Pass(pods, [], false, pods, [])
    else Update(VisitIn(cfg, t, answers), StableSort(pods, Created), parallelism, Count(pods, InFlightIn(cfg, t)), at)
  }

  /* ----- The loops ----- */

  method CountInFlight(cfg: Config, pods: array<Pod>, t: Template) returns (n: nat)
    ensures n == Count(pods[..], InFlightIn(cfg, t))
  {
    n := 0;
    for i := 0 to pods.Length
      invariant n == Count(pods[..i], InFlightIn(cfg, t))
    {
      CountStep(pods[..], i, InFlightIn(cfg, t));
      assert pods[..][..i] == pods[..i] && pods[..][..i + 1] == pods[..i + 1];
      if InFlight(cfg, pods[i], t) {
        n := n + 1;
      }
    }
    assert pods[..pods.Length] == pods[..];
  }

  /** The body of the loop at position i. */
  method UpdatePod(api: Api, pods: array<Pod>, i: nat, cfg: Config, t: Template, ghost visit: (Pod, nat) -> Visit)
    returns (acted: bool, failed: bool)
    requires i < pods.Length && visit == VisitIn(cfg, t, api.answers)
    modifies api, pods
    ensures Did(visit(old(pods[i]), |old(api.log)|), old(api.log), old(pods[..]), api.log, pods[..], i, acted, failed)
  {
    assert visit(pods[i], |api.log|) == VisitPod(cfg, pods[i], t, api.answers, |api.log|);
    if !cfg.eligible(pods[i]) {
      return false, false;
    }
    if ResizeInfeasible(cfg, pods[i]) {
      var answer := api.Delete(pods[i].uid);
      return !answer.DeleteFailed?, answer.DeleteFailed?;
    }
    if SpecMatches(cfg, pods[i], t) {
      return false, false;
    }
    acted, failed := PatchPod(api, pods, i, cfg, t);
  }

  /** A visit was carried out on the Pod at i: the calls, the outcome and the Pod in memory are those of the
      visit, and no other Pod changed. */
  ghost predicate Did(v: Visit, log: seq<Entry>, was: seq<Pod>, log': seq<Entry>, now: seq<Pod>, i: nat,
                      acted: bool, failed: bool)
  {
    && log' == log + v.log && acted == v.acted && failed == v.failed
    && i < |was| && now == was[i := v.pod]
  }

  /** Sets the images, by name; a missing container is an error that leaves the images set before it. */
  method SetPodImages(pods: array<Pod>, i: nat, t: Template) returns (failed: bool)
    requires i < pods.Length
    modifies pods
    ensures var pod := old(pods[i]);
      && failed == (SetAll(Image, pod.initContainers, t.initContainers).Err? || SetAll(Image, pod.containers, t.containers).Err?)
      && pods[..] == old(pods[..])[i := WithImages(pod, t)]
  {
    var init, missing := SetContainerImages(pods[i].initContainers, t.initContainers);
    pods[i] := pods[i].(initContainers := init);
    if missing {
      return true;
    }
    var containers;
    containers, missing := SetContainerImages(pods[i].containers, t.containers);
    pods[i] := pods[i].(containers := containers);
    return missing;
  }

  /** Images, metadata and revision annotation in memory. */
  method ApplyTemplate(pods: array<Pod>, i: nat, cfg: Config, t: Template) returns (failed: bool)
    requires i < pods.Length
    modifies pods
    ensures var r := Patched(cfg, old(pods[i]), t);
            && failed == r.Err?
            && pods[..] == old(pods[..])[i := if failed then WithImages(old(pods[i]), t) else r.value]
  {
    failed := SetPodImages(pods, i, t);
    if failed {
      return;
    }
    SetPodMetadata(cfg.names, pods, i, t);
    pods[i] := pods[i].(annotations := pods[i].annotations[cfg.names.revisionKey := cfg.revisionOf(t)]);
  }

  /** Sends the Pod as it is in memory, then resizes it if the policy asks for it. */
  method SendPod(api: Api, pods: array<Pod>, i: nat, cfg: Config, t: Template, ghost was: Pod)
    returns (acted: bool, failed: bool)
    requires i < pods.Length && was.uid == pods[i].uid
    modifies api, pods
    ensures Did(SendVisit(cfg, was, old(pods[i]), t, api.answers, |old(api.log)|),
                old(api.log), old(pods[..]), api.log, pods[..], i, acted, failed)
  {
    var taken := api.Patch(pods[i]);
    if !taken {
      return false, true;
    }
    if !NeedsResize(cfg, pods[i], t) {
      return true, false;
    }
    acted, failed := ResizeOrReplace(api, pods, i, t);
  }

  /** Patches images, metadata and revision annotation, then resizes if the policy asks for it. */
  method PatchPod(api: Api, pods: array<Pod>, i: nat, cfg: Config, t: Template) returns (acted: bool, failed: bool)
    requires i < pods.Length
    modifies api, pods
    ensures Did(UpdateVisit(cfg, old(pods[i]), WithImages(old(pods[i]), t), Patched(cfg, old(pods[i]), t), t,
                            api.answers, |old(api.log)|),
                old(api.log), old(pods[..]), api.log, pods[..], i, acted, failed)
  {
    ghost var pod, was, log := pods[i], pods[..], api.log;
    failed := ApplyTemplate(pods, i, cfg, t);
    if failed {
      return false, true;
    }
    ghost var patched := pods[i];
    acted, failed := SendPod(api, pods, i, cfg, t, pod);
    DidAfterUpdate(SendVisit(cfg, pod, patched, t, api.answers, |log|), log, was, patched, api.log, pods[..],
                   i, acted, failed);
  }

  lemma {:induction false} DidAfterUpdate(v: Visit, log: seq<Entry>, was: seq<Pod>, patched: Pod, log': seq<Entry>,
                                          now: seq<Pod>, i: nat, acted: bool, failed: bool)
    requires i < |was| && Did(v, log, was[i := patched], log', now, i, acted, failed)
    ensures Did(v, log, was, log', now, i, acted, failed)
  {
    assert was[i := patched][i := v.pod] == was[i := v.pod];
  }

  /** Requests the resize of a patched Pod, and deletes it when the resize is rejected. */
  method ResizeOrReplace(api: Api, pods: array<Pod>, i: nat, t: Template) returns (acted: bool, failed: bool)
    requires i < pods.Length
    modifies api, pods
    ensures Did(ResizeVisit(old(pods[i]), WithResources(old(pods[i]), t), Resized(old(pods[i]), t), api.answers,
                            |old(api.log)|),
                old(api.log), old(pods[..]), api.log, pods[..], i, acted, failed)
  {
    var containers, missing := SetPodResizableResources(pods[i].containers, t.containers);
    pods[i] := pods[i].(containers := containers);
    if missing {
      return false, true;
    }
    var answer := api.ResizePod(pods[i]);
    if answer.ResizeTaken? {
      return true, false;
    }
    if answer.ResizeFailed? {
      return false, true;
    }
    var gone := api.Delete(pods[i].uid);
    return !gone.DeleteFailed?, gone.DeleteFailed?;
  }

  /** Sorts the Pods in place, oldest first. */
  method SortOldestFirst(pods: array<Pod>)
    modifies pods
    ensures pods[..] == StableSort(old(pods[..]), Created)
  {
    var sorted := StableSort(pods[..], Created);
    forall i | 0 <= i < pods.Length {
      pods[i] := sorted[i];
    }
  }

  method UpdatePods(api: Api, pods: array<Pod>, cfg: Config, t: Template, parallelism: int) returns (failed: bool)
    modifies api, pods
    ensures var r := UpdatePass(cfg, old(pods[..]), t, parallelism, api.answers, |old(api.log)|);
            && failed == r.failed && api.log == old(api.log) + r.log
            && pods[..] == r.pods
  {
    if parallelism < 1 {
      return false;
    }
    var inFlight := CountInFlight(cfg, pods, t);
    SortOldestFirst(pods);
    failed := VisitAll(api, pods, cfg, t, parallelism, inFlight, VisitIn(cfg, t, api.answers));
  }

  /** The loop: visits the Pods in order until the budget is used up or a visit fails. */
  method VisitAll(api: Api, pods: array<Pod>, cfg: Config, t: Template, parallelism: int, started: int,
                  ghost visit: (Pod, nat) -> Visit)
    returns (failed: bool)
    requires visit == VisitIn(cfg, t, api.answers)
    modifies api, pods
    ensures var r := Update(visit, old(pods[..]), parallelism, started, |old(api.log)|);
            && failed == r.failed && api.log == old(api.log) + r.log
            && pods[..] == r.pods
  {
    ghost var whole, log := Update(visit, pods[..], parallelism, started, |api.log|), api.log;
    ghost var done, left: seq<Pod> := [], pods[..];
    var i, inFlight := 0, started;
    while i < pods.Length && inFlight < parallelism
      invariant i == |done| && pods[..] == done + left
      invariant Continues(whole, log, done, api.log, Update(visit, left, parallelism, inFlight, |api.log|))
    {
      ghost var v, was, now := visit(left[0], |api.log|), pods[..], api.log;
      assert pods[i] == left[0];
      var acted, bad := UpdatePod(api, pods, i, cfg, t, visit);
      TurnKeepsCourse(visit, v, was, now, done, left, parallelism, inFlight, whole, log, api.log, pods[..], i, acted, bad);
      if bad {
        return true;
      }
      done, left := done + [v.pod], left[1..];
      if acted {
        inFlight := inFlight + 1;
      }
      i := i + 1;
    }
    UpdateStops(visit, left, parallelism, inFlight, |api.log|);
    return false;
  }

  lemma {:induction false} UpdateStops(visit: (Pod, nat) -> Visit, pods: seq<Pod>, parallelism: int, inFlight: int, at: nat)
    requires pods == [] || inFlight >= parallelism
    ensures Update(visit, pods, parallelism, inFlight, at) == Pass(pods, [], false, pods, [])
  {
  }

  /** One turn of the loop keeps the pass on course. */
  lemma {:induction false} TurnKeepsCourse(
      visit: (Pod, nat) -> Visit, v: Visit, was: seq<Pod>, now: seq<Entry>, done: seq<Pod>, left: seq<Pod>,
      parallelism: int, inFlight: int, whole: Pass, log: seq<Entry>,
      log': seq<Entry>, pods: seq<Pod>, i: nat, acted: bool, bad: bool)
    requires left != [] && i == |done| && was == done + left && inFlight < parallelism
    requires v == visit(left[0], |now|) && Did(v, now, was, log', pods, i, acted, bad)
    requires Continues(whole, log, done, now, Update(visit, left, parallelism, inFlight, |now|))
    ensures bad ==> whole.failed && log' == log + whole.log && pods == whole.pods
    ensures !bad ==> pods == done + [v.pod] + left[1..]
    ensures !bad ==>
      Continues(whole, log, done + [v.pod], log',
                Update(visit, left[1..], parallelism, inFlight + (if acted then 1 else 0), |log'|))
  {
    UpdateStep(visit, left, parallelism, inFlight, |now|);
    assert pods == (done + left)[i := v.pod] == done + [v.pod] + left[1..];
    if bad {
      assert done + ([v.pod] + left[1..]) == done + [v.pod] + left[1..];
    } else {
      ContinuesStep(whole, log, done, now, v,
                    Update(visit, left, parallelism, inFlight, |now|),
                    Update(visit, left[1..], parallelism, inFlight + (if v.acted then 1 else 0), |log'|));
    }
  }

  /** The rest of a pass completes what has been done so far to the whole. */
  ghost predicate Continues(whole: Pass, log: seq<Entry>, done: seq<Pod>, now: seq<Entry>, rest: Pass) {
    log + whole.log == now + rest.log && whole.failed == rest.failed && whole.pods == done + rest.pods
  }

  lemma {:induction false} ContinuesStep(whole: Pass, log: seq<Entry>, done: seq<Pod>, now: seq<Entry>, v: Visit,
                                         r: Pass, rest: Pass)
    requires Continues(whole, log, done, now, r)
    requires r.log == v.log + rest.log && r.failed == rest.failed && r.pods == [v.pod] + rest.pods
    ensures Continues(whole, log, done + [v.pod], now + v.log, rest)
  {
  }

  /** One step of a pass with budget left. */
  lemma {:induction false} UpdateStep(visit: (Pod, nat) -> Visit, pods: seq<Pod>, parallelism: int, inFlight: int, at: nat)
    requires pods != [] && inFlight < parallelism
    ensures var v, r := visit(pods[0], at), Update(visit, pods, parallelism, inFlight, at);
            if v.failed then r.failed && r.log == v.log && r.pods == [v.pod] + pods[1..]
            else
              var rest := Update(visit, pods[1..], parallelism, inFlight + (if v.acted then 1 else 0), at + |v.log|);
              r.log == v.log + rest.log && r.failed == rest.failed && r.pods == [v.pod] + rest.pods
  {
  }
}
