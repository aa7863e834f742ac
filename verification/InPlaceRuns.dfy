/**
 What in-place passes promise: setters that establish the checks, exact oldest-first selection, and a
 disruption budget over whole runs.
 */
module InPlaceRuns {
  import opened Arith
  import opened Containers
  import opened Counting
  import opened InPlace
  import opened Matching
  import opened Metadata
  import opened Results
  import opened Sorting
  import opened Workload

  /* ----- Setters establish checkers ----- */

  /** Every template container exists in the Pod: all the setters ask. */
  predicate HasTemplateContainers(pod: Pod, t: Template) {
    && (forall i :: 0 <= i < |t.initContainers| ==> Has(pod.initContainers, t.initContainers[i].name))
    && (forall i :: 0 <= i < |t.containers| ==> Has(pod.containers, t.containers[i].name))
  }

  /** In addition containers of one name agree and the metadata can be recorded: what the checks ask. */
  predicate Fits(cfg: Config, pod: Pod, t: Template) {
    && PlainKeys(cfg.names, t) && t.annotations.Keys !! cfg.names.Internal() && cfg.names.Distinct()
    && Consistent(Image, t.initContainers) && Consistent(Image, t.containers) && Consistent(CpuAndMemory, t.containers)
    && HasTemplateContainers(pod, t)
  }

  /** The image setter succeeds exactly when no container is missing. */
  lemma {:induction false} PatchedOk(cfg: Config, pod: Pod, t: Template)
    ensures Patched(cfg, pod, t).Ok? <==> HasTemplateContainers(pod, t)
  {
    SetAllSucceeds(Image, pod.initContainers, t.initContainers);
    SetAllSucceeds(Image, pod.containers, t.containers);
  }

  /** After the image, metadata and revision setters, metadata and images match; resources are as before;
      containers the template does not name, and every other field, are untouched. */
  lemma {:induction false} PatchedMatches(cfg: Config, pod: Pod, t: Template)
    requires Fits(cfg, pod, t)
    ensures Patched(cfg, pod, t).Ok?
    ensures var q := Patched(cfg, pod, t).value;
      && MetadataMatches(cfg.names, q, t)
      && HasAll(Image, q.initContainers, t.initContainers) && HasAll(Image, q.containers, t.containers)
      && (HasAll(CpuAndMemory, q.containers, t.containers) <==> HasAll(CpuAndMemory, pod.containers, t.containers))
  {
    PatchedOk(cfg, pod, t);
    var init, cs := SetAll(Image, pod.initContainers, t.initContainers).value, SetAll(Image, pod.containers, t.containers).value;
    SetAllEstablishesHasAll(Image, pod.initContainers, t.initContainers);
    SetAllEstablishesHasAll(Image, pod.containers, t.containers);
    SetAllKeepsOther(Image, CpuAndMemory, pod.containers, t.containers, t.containers);
    SyncedMatches(cfg.names, pod.(initContainers := init, containers := cs), t, cfg.revisionOf(t));
  }

  /** One container before and after: nothing but its image may differ, and not even that when the template
      does not name it. */
  predicate OnlyImage(c: Container, was: Container, desired: seq<Container>) {
    && c == was.(image := c.image)
    && ((forall i :: 0 <= i < |desired| ==> desired[i].name != was.name) ==> c == was)
  }

  lemma {:induction false} PatchedFrame(cfg: Config, pod: Pod, t: Template)
    requires Patched(cfg, pod, t).Ok?
    ensures var q := Patched(cfg, pod, t).value;
      && q == pod.(labels := q.labels, annotations := q.annotations,
                   initContainers := q.initContainers, containers := q.containers)
      && SameNames(q.initContainers, pod.initContainers) && SameNames(q.containers, pod.containers)
      && (forall k :: 0 <= k < |pod.initContainers| ==>
            OnlyImage(q.initContainers[k], pod.initContainers[k], t.initContainers))
      && (forall k :: 0 <= k < |pod.containers| ==> OnlyImage(q.containers[k], pod.containers[k], t.containers))
  {
    var init, cs := SetAll(Image, pod.initContainers, t.initContainers).value, SetAll(Image, pod.containers, t.containers).value;
    SetAllSucceeds(Image, pod.initContainers, t.initContainers);
    SetAllSucceeds(Image, pod.containers, t.containers);
    forall k | 0 <= k < |pod.initContainers|
      ensures OnlyImage(init[k], pod.initContainers[k], t.initContainers)
    {
      SetAllFrame(Image, pod.initContainers, t.initContainers, k);
    }
    forall k | 0 <= k < |pod.containers|
      ensures OnlyImage(cs[k], pod.containers[k], t.containers)
    {
      SetAllFrame(Image, pod.containers, t.containers, k);
    }
  }

  /** For a Pod with all template containers both setters succeed. */
  lemma {:induction false} SettersSucceed(cfg: Config, pod: Pod, t: Template)
    requires HasTemplateContainers(pod, t)
    ensures Patched(cfg, pod, t).Ok? && Resized(Patched(cfg, pod, t).value, t).Ok?
  {
    PatchedOk(cfg, pod, t);
    PatchedFrame(cfg, pod, t);
    var q := Patched(cfg, pod, t).value;
    forall i | 0 <= i < |t.containers|
      ensures Has(q.containers, t.containers[i].name)
    {
      IndexOfByNames(pod.containers, q.containers, t.containers[i].name);
    }
    SetAllSucceeds(CpuAndMemory, q.containers, t.containers);
  }

  /** With the resize setter as well, the whole check holds, also under a policy that asks for less. */
  lemma {:induction false} SettersEstablishSpecMatches(cfg: Config, pod: Pod, t: Template)
    requires Fits(cfg, pod, t)
    ensures Patched(cfg, pod, t).Ok? && Resized(Patched(cfg, pod, t).value, t).Ok?
    ensures SpecMatches(cfg, Resized(Patched(cfg, pod, t).value, t).value, t)
    ensures !NeedsResize(cfg, Patched(cfg, pod, t).value, t) <==> SpecMatches(cfg, Patched(cfg, pod, t).value, t)
    ensures SpecMatches(cfg.(policy := Policy(false)), Patched(cfg, pod, t).value, t)
  {
    PatchedMatches(cfg, pod, t);
    SettersSucceed(cfg, pod, t);
    var q := Patched(cfg, pod, t).value;
    SetAllEstablishesHasAll(CpuAndMemory, q.containers, t.containers);
    SetAllKeepsOther(CpuAndMemory, Image, q.containers, t.containers, t.containers);
  }

  /** A patched Pod carries everything of the template but possibly CPU and memory, and its in-place revision; a
      patched and resized one carries all of it. */
  lemma {:induction false} SettersCarryTemplate(cfg: Config, pod: Pod, t: Template)
    requires Fits(cfg, pod, t)
    ensures Patched(cfg, pod, t).Ok? && Resized(Patched(cfg, pod, t).value, t).Ok?
    ensures CarriesAllButResources(cfg.names, Patched(cfg, pod, t).value, t)
    ensures Holds(Patched(cfg, pod, t).value.annotations, cfg.names.revisionKey, cfg.revisionOf(t))
    ensures CarriesTemplate(cfg, Resized(Patched(cfg, pod, t).value, t).value, t)
    ensures NeedsResize(cfg, Patched(cfg, pod, t).value, t) <==> !CarriesTemplate(cfg, Patched(cfg, pod, t).value, t)
  {
    SettersEstablishSpecMatches(cfg, pod, t);
    var q := Patched(cfg, pod, t).value;
    SpecMatchesMeans(cfg, q, t);
    SpecMatchesMeans(cfg.(policy := Policy(false)), q, t);
    SpecMatchesMeans(cfg, Resized(q, t).value, t);
  }

  /** All setters together leave injected containers, every other field of init and regular containers, other
      resource names and every other Pod field as they were. */
  lemma {:induction false} SettersFrame(cfg: Config, pod: Pod, t: Template, k: nat)
    requires Patched(cfg, pod, t).Ok? && Resized(Patched(cfg, pod, t).value, t).Ok?
    ensures var q := Resized(Patched(cfg, pod, t).value, t).value;
      && q == pod.(labels := q.labels, annotations := q.annotations,
                   initContainers := q.initContainers, containers := q.containers)
      && |q.initContainers| == |pod.initContainers| && |q.containers| == |pod.containers|
      && (k < |pod.initContainers| ==> OnlyImage(q.initContainers[k], pod.initContainers[k], t.initContainers))
      && (k < |pod.containers| ==>
          && q.containers[k].name == pod.containers[k].name && q.containers[k].rest == pod.containers[k].rest
          && FixedPart(q.containers[k].resources) == FixedPart(pod.containers[k].resources)
          && ((forall i :: 0 <= i < |t.containers| ==> t.containers[i].name != pod.containers[k].name) ==>
              q.containers[k] == pod.containers[k]))
  {
    PatchedFrame(cfg, pod, t);
    SetAllSucceeds(CpuAndMemory, Patched(cfg, pod, t).value.containers, t.containers);
    if k < |pod.containers| {
      SetAllFrame(CpuAndMemory, Patched(cfg, pod, t).value.containers, t.containers, k);
    }
  }

  /* ----- New Pods ----- */

  /** A Pod as it is sent to be created: the template's metadata and containers, synchronised and stamped with
      the in-place revision; nothing observed yet. */
  function CreatedPod(cfg: Config, t: Template, uid: nat, created: int): Pod {
    var bare := Pod(uid, created, t.labels, t.annotations, t.initContainers, t.containers, t.rest,
                    NoResize, false, [], []);
    Synced(cfg.names, bare, t, cfg.revisionOf(t))
  }

  /** Containers agree with themselves exactly when those of one name ask for one value. */
  lemma {:induction false} OwnContainersAgree(a: Aspect, cs: seq<Container>)
    ensures HasAll(a, cs, cs) <==> Consistent(a, cs)
  {
    forall i | 0 <= i < |cs|
      ensures Has(cs, cs[i].name) && IndexOf(cs, cs[i].name) >= i
    {
      HasMeansPresent(cs, cs[i].name);
    }
    if HasAll(a, cs, cs) {
      HasAllIsConsistent(a, cs, cs);
    } else if Consistent(a, cs) {
      forall i | 0 <= i < |cs|
        ensures Agrees(a, cs, cs[i])
      {
        var k := IndexOf(cs, cs[i].name);
        assert i < k ==> Same(a, cs[i], cs[k]);
      }
      assert false;
    }
  }

  /** A new Pod already matches the template it was created from, so it never needs an update of its own. */
  lemma {:induction false} CreatedPodMatches(cfg: Config, t: Template, uid: nat, created: int)
    requires cfg.names.Distinct() && PlainKeys(cfg.names, t) && t.annotations.Keys !! cfg.names.Internal()
    requires Consistent(Image, t.initContainers) && Consistent(Image, t.containers) && Consistent(CpuAndMemory, t.containers)
    ensures var pod := CreatedPod(cfg, t, uid, created);
      && CarriesTemplate(cfg, pod, t) && !Due(cfg, pod, t)
      && pod.initContainers == t.initContainers && pod.containers == t.containers && pod.rest == t.rest
      && Holds(pod.annotations, cfg.names.revisionKey, cfg.revisionOf(t))
  {
    SpecMatchesMeans(cfg, CreatedPod(cfg, t, uid, created), t);
    var bare := Pod(uid, created, t.labels, t.annotations, t.initContainers, t.containers, t.rest,
                    NoResize, false, [], []);
    SyncedMatches(cfg.names, bare, t, cfg.revisionOf(t));
    OwnContainersAgree(Image, t.initContainers);
    OwnContainersAgree(Image, t.containers);
    OwnContainersAgree(CpuAndMemory, t.containers);
  }

  /* ----- What one visit does ----- */

  /** A Pod that cannot be resized in place is deleted, and nothing else is called. */
  ghost predicate Replaces(v: Visit, pod: Pod, gone: DeleteAnswer) {
    && v.log == [DeleteCall(pod.uid, gone)]
    && v.failed == !v.acted == gone.DeleteFailed?
    && v.live == if gone.DeleteFailed? then Some(pod) else None
  }

  /** One patch sends everything but possibly CPU and memory. If these are still to be taken over, a resize request
      with the whole template follows; if it is rejected the Pod is deleted. A refused call ends the visit with the
      Pod as the call before left it. */
  ghost predicate Sends(cfg: Config, v: Visit, pod: Pod, t: Template, answers: Answers, at: nat) {
    && v.log != [] && v.log[0].PatchCall? && v.log[0].taken == answers.patch(at)
    && var q := v.log[0].pod;
    && q.uid == pod.uid && CarriesAllButResources(cfg.names, q, t)
    && Holds(q.annotations, cfg.names.revisionKey, cfg.revisionOf(t))
    && if !answers.patch(at) then
         |v.log| == 1 && v.failed && v.live == Some(pod)
       else if CarriesTemplate(cfg, q, t) then
         |v.log| == 1 && !v.failed && v.acted && v.live == Some(q)
       else
         && |v.log| >= 2 && v.log[1].ResizeCall? && v.log[1].answered == answers.resize(at + 1)
         && var r := v.log[1].pod;
         && r.uid == pod.uid && CarriesTemplate(cfg, r, t)
         && match answers.resize(at + 1)
            case ResizeTaken => |v.log| == 2 && !v.failed && v.acted && v.live == Some(r)
            case ResizeFailed => |v.log| == 2 && v.failed && v.live == Some(q)
            case ResizeRejected =>
              var gone := answers.delete(at + 2);
              && |v.log| == 3 && v.log[2] == DeleteCall(pod.uid, gone)
              && v.failed == !v.acted == gone.DeleteFailed?
              && v.live == if gone.DeleteFailed? then Some(q) else None
  }

  /** The calls and the Pod left when nothing has to be resized, or the patch is refused. */
  lemma {:induction false} PatchOnly(cfg: Config, pod: Pod, q: Pod, t: Template, answers: Answers, at: nat)
    requires q.uid == pod.uid && (answers.patch(at) ==> !NeedsResize(cfg, q, t))
    ensures SendVisit(cfg, pod, q, t, answers, at) ==
            if answers.patch(at) then Visit(q, [PatchCall(q, true)], true, false, Some(q))
            else Visit(q, [PatchCall(q, false)], false, true, Some(pod))
  {
  }

  /** And when the patch is accepted and a resize follows. */
  lemma {:induction false} PatchAndResize(cfg: Config, pod: Pod, q: Pod, t: Template, answers: Answers, at: nat)
    requires q.uid == pod.uid && answers.patch(at) && NeedsResize(cfg, q, t) && Resized(q, t).Ok?
    ensures var r, answered, gone := Resized(q, t).value, answers.resize(at + 1), answers.delete(at + 2);
            var log := [PatchCall(q, true), ResizeCall(r, answered)];
            SendVisit(cfg, pod, q, t, answers, at) ==
            match answered
            case ResizeTaken => Visit(r, log, true, false, Some(r))
            case ResizeFailed => Visit(r, log, false, true, Some(q))
            case ResizeRejected =>
              Visit(r, [log[0], log[1], DeleteCall(pod.uid, gone)], !gone.DeleteFailed?, gone.DeleteFailed?,
                    if gone.DeleteFailed? then Some(q) else None)
  {
  }

  /** What is sent for a Pod that carries all of the template but possibly resources. */
  lemma {:induction false} SendOutcome(cfg: Config, pod: Pod, q: Pod, t: Template, answers: Answers, at: nat)
    requires q.uid == pod.uid && CarriesAllButResources(cfg.names, q, t)
    requires Holds(q.annotations, cfg.names.revisionKey, cfg.revisionOf(t))
    requires Resized(q, t).Ok? && CarriesTemplate(cfg, Resized(q, t).value, t)
    requires NeedsResize(cfg, q, t) <==> !CarriesTemplate(cfg, q, t)
    ensures Sends(cfg, SendVisit(cfg, pod, q, t, answers, at), pod, t, answers, at)
  {
    if answers.patch(at) && NeedsResize(cfg, q, t) {
      PatchAndResize(cfg, pod, q, t, answers, at);
    } else {
      PatchOnly(cfg, pod, q, t, answers, at);
    }
  }

  /** One visit, whatever the API server answers, on a Pod that fits its template. */
  lemma {:induction false} VisitOutcome(cfg: Config, pod: Pod, t: Template, answers: Answers, at: nat)
    requires Fits(cfg, pod, t)
    ensures var v := VisitPod(cfg, pod, t, answers, at);
      && (!Due(cfg, pod, t) ==> v == Visit(pod, [], false, false, Some(pod)))
      && (Due(cfg, pod, t) && Stuck(cfg, pod) ==> Replaces(v, pod, answers.delete(at)))
      && (Due(cfg, pod, t) && !Stuck(cfg, pod) ==> Sends(cfg, v, pod, t, answers, at))
  {
    DueMeans(cfg, pod, t);
    SettersCarryTemplate(cfg, pod, t);
    SendOutcome(cfg, pod, Patched(cfg, pod, t).value, t, answers, at);
  }

  /** A Pod that lacks a container of its template is not sent at all: the visit fails, and only images set before
      the missing container are left changed in memory. */
  lemma {:induction false} MissingContainerStops(cfg: Config, pod: Pod, t: Template, answers: Answers, at: nat)
    requires Due(cfg, pod, t) && !Stuck(cfg, pod) && !HasTemplateContainers(pod, t)
    ensures var v := VisitPod(cfg, pod, t, answers, at);
            var init, regular := SetAll(Image, pod.initContainers, t.initContainers), SetAll(Image, pod.containers, t.containers);
      && v.failed && v.log == [] && v.live == Some(pod) && (init.Err? || regular.Err?)
      && v.pod == pod.(initContainers := v.pod.initContainers, containers := v.pod.containers)
      && v.pod.initContainers == Written(Image, pod.initContainers, t.initContainers)
      && v.pod.containers == if init.Err? then pod.containers else Written(Image, pod.containers, t.containers)
  {
    DueMeans(cfg, pod, t);
    PatchedOk(cfg, pod, t);
  }

  /* ----- Exact selection ----- */

  /** No call fails; a rejected resize falls back to a deletion and is not a failure. */
  ghost predicate NoErrors(answers: Answers) {
    forall k: nat :: answers.patch(k) && !answers.resize(k).ResizeFailed? && !answers.delete(k).DeleteFailed?
  }

  function UidOf(e: Entry): nat {
    match e
    case PatchCall(pod, _) => pod.uid
    case ResizeCall(pod, _) => pod.uid
    case DeleteCall(uid, _) => uid
  }

  /** A visit acts exactly on a candidate, calls the API only about it, and otherwise leaves it alone. */
  ghost predicate ActsOn(v: Visit, pod: Pod, candidate: bool) {
    && !v.failed && v.acted == candidate
    && (!v.acted ==> v == Visit(pod, [], false, false, Some(pod)))
    && (v.acted ==> v.log != [])
    && forall e :: e in v.log ==> UidOf(e) == pod.uid
  }

  lemma {:induction false} SendVisitActs(cfg: Config, pod: Pod, patched: Pod, t: Template, answers: Answers, at: nat)
    requires NoErrors(answers) && patched.uid == pod.uid && Resized(patched, t).Ok?
    ensures ActsOn(SendVisit(cfg, pod, patched, t, answers, at), pod, true)
  {
    assert answers.patch(at) && !answers.resize(at + 1).ResizeFailed?;
    assert !answers.delete(at + 2).DeleteFailed?;
  }

  lemma {:induction false} VisitActsOnCandidates(cfg: Config, pod: Pod, t: Template, answers: Answers, at: nat)
    requires NoErrors(answers) && HasTemplateContainers(pod, t)
    ensures ActsOn(VisitPod(cfg, pod, t, answers, at), pod, Due(cfg, pod, t))
  {
    DueMeans(cfg, pod, t);
    SettersSucceed(cfg, pod, t);
    assert !answers.delete(at).DeleteFailed?;
    SendVisitActs(cfg, pod, Patched(cfg, pod, t).value, t, answers, at);
  }

  /** The first n Pods that satisfy p, in order. */
  function First(pods: seq<Pod>, p: Pod -> bool, n: int): (r: seq<Pod>)
    ensures |r| == Min(Count(pods, p), Max(n, 0))
  {
    if pods == [] || n <= 0 then []
    else if p(pods[0]) then [pods[0]] + First(pods[1..], p, n - 1)
    else First(pods[1..], p, n)
  }

  function UidsOf(pods: seq<Pod>): (r: seq<nat>)
    ensures |r| == |pods|
  {
    if pods == [] then [] else [pods[0].uid] + UidsOf(pods[1..])
  }

  ghost predicate ActsOnAll(visit: (Pod, nat) -> Visit, pods: seq<Pod>, candidate: Pod -> bool) {
    forall i, at: nat :: 0 <= i < |pods| ==> ActsOn(visit(pods[i], at), pods[i], candidate(pods[i]))
  }

  lemma {:induction false} ActsOnTail(visit: (Pod, nat) -> Visit, pods: seq<Pod>, candidate: Pod -> bool, at: nat)
    requires pods != [] && ActsOnAll(visit, pods, candidate)
    ensures ActsOnAll(visit, pods[1..], candidate)
    ensures ActsOn(visit(pods[0], at), pods[0], candidate(pods[0]))
  {
    forall i, at: nat | 0 <= i < |pods[1..]|
      ensures ActsOn(visit(pods[1..][i], at), pods[1..][i], candidate(pods[1..][i]))
    {
      assert pods[1..][i] == pods[i + 1];
    }
  }

  /** The calls are about Pods acted on, and the others are left as they are. */
  ghost predicate LeavesOthers(r: Pass, pods: seq<Pod>) {
    && |r.pods| == |pods|
    && (forall e :: e in r.log ==> UidOf(e) in r.acted)
    && (forall i :: 0 <= i < |pods| && pods[i].uid !in r.acted ==> r.pods[i] == pods[i] && pods[i] in r.live)
  }

  /** A pass acted on precisely the first n candidates, called the API about no other Pod, and left every
      other Pod as it was. */
  ghost predicate Selected(r: Pass, pods: seq<Pod>, candidate: Pod -> bool, n: int) {
    !r.failed && r.acted == UidsOf(First(pods, candidate, n)) && LeavesOthers(r, pods)
  }

  lemma {:induction false} UpdateSelects(visit: (Pod, nat) -> Visit, pods: seq<Pod>, candidate: Pod -> bool,
                                         parallelism: int, inFlight: int, at: nat)
    requires ActsOnAll(visit, pods, candidate)
    ensures Selected(Update(visit, pods, parallelism, inFlight, at), pods, candidate, parallelism - inFlight)
  {
    UpdateActsOnFirst(visit, pods, candidate, parallelism, inFlight, at);
    UpdateLeavesOthers(visit, pods, candidate, parallelism, inFlight, at);
  }

  lemma {:induction false} UpdateActsOnFirst(visit: (Pod, nat) -> Visit, pods: seq<Pod>, candidate: Pod -> bool,
                                             parallelism: int, inFlight: int, at: nat)
    requires ActsOnAll(visit, pods, candidate)
    ensures var r := Update(visit, pods, parallelism, inFlight, at);
            !r.failed && r.acted == UidsOf(First(pods, candidate, parallelism - inFlight))
  {
    if pods != [] && inFlight < parallelism {
      var v := visit(pods[0], at);
      ActsOnTail(visit, pods, candidate, at);
      var inFlight', at' := inFlight + (if v.acted then 1 else 0), at + |v.log|;
      UpdateActsOnFirst(visit, pods[1..], candidate, parallelism, inFlight', at');
      ActsOnFirstStep(v, pods, Update(visit, pods[1..], parallelism, inFlight', at'), candidate, parallelism - inFlight);
    }
  }

  lemma {:induction false} ActsOnFirstStep(v: Visit, pods: seq<Pod>, rest: Pass, candidate: Pod -> bool, n: int)
    requires pods != [] && n > 0 && v.acted == candidate(pods[0])
    requires rest.acted == UidsOf(First(pods[1..], candidate, n - if v.acted then 1 else 0))
    ensures Extend(pods[0], v, rest).acted == UidsOf(First(pods, candidate, n))
  {
    if v.acted {
      var first := First(pods[1..], candidate, n - 1);
      assert ([pods[0]] + first)[1..] == first;
    }
  }

  lemma {:induction false} UpdateLeavesOthers(visit: (Pod, nat) -> Visit, pods: seq<Pod>, candidate: Pod -> bool,
                                              parallelism: int, inFlight: int, at: nat)
    requires ActsOnAll(visit, pods, candidate)
    ensures LeavesOthers(Update(visit, pods, parallelism, inFlight, at), pods)
  {
    if pods != [] && inFlight < parallelism {
      var v := visit(pods[0], at);
      ActsOnTail(visit, pods, candidate, at);
      var inFlight', at' := inFlight + (if v.acted then 1 else 0), at + |v.log|;
      UpdateLeavesOthers(visit, pods[1..], candidate, parallelism, inFlight', at');
      LeavesOthersStep(v, pods, Update(visit, pods[1..], parallelism, inFlight', at'), candidate(pods[0]));
    }
  }

  lemma {:induction false} LeavesOthersStep(v: Visit, pods: seq<Pod>, rest: Pass, candidate: bool)
    requires pods != [] && ActsOn(v, pods[0], candidate) && LeavesOthers(rest, pods[1..])
    ensures LeavesOthers(Extend(pods[0], v, rest), pods)
  {
    var whole := Extend(pods[0], v, rest);
    forall i | 0 < i < |pods| && pods[i].uid !in whole.acted
      ensures whole.pods[i] == pods[i] && pods[i] in whole.live
    {
      assert pods[1..][i - 1] == pods[i];
      assert rest.pods[i - 1] == pods[i] && pods[i] in rest.live;
    }
  }

  lemma {:induction false} VisitsActOnAll(cfg: Config, pods: seq<Pod>, t: Template, answers: Answers)
    requires NoErrors(answers) && forall i :: 0 <= i < |pods| ==> HasTemplateContainers(pods[i], t)
    ensures ActsOnAll(VisitIn(cfg, t, answers), StableSort(pods, Created), DueIn(cfg, t))
  {
    var oldest := StableSort(pods, Created);
    StableSortSorts(pods, Created);
    forall i, k: nat | 0 <= i < |oldest|
      ensures ActsOn(VisitIn(cfg, t, answers)(oldest[i], k), oldest[i], DueIn(cfg, t)(oldest[i]))
    {
      assert oldest[i] in multiset(oldest);
      assert oldest[i] in pods;
      VisitActsOnCandidates(cfg, oldest[i], t, answers, k);
    }
  }

  /** Oldest first, the pass acted on as many candidates as there are slots, or on all of them. */
  ghost predicate SelectedUpTo(r: Pass, pods: seq<Pod>, candidate: Pod -> bool, slots: int) {
    && Selected(r, StableSort(pods, Created), candidate, slots)
    && |r.acted| == Min(Count(pods, candidate), Max(slots, 0))
  }

  lemma {:induction false} OldestFirstSelects(visit: (Pod, nat) -> Visit, pods: seq<Pod>, candidate: Pod -> bool,
                                              parallelism: int, inFlight: int, at: nat)
    requires ActsOnAll(visit, StableSort(pods, Created), candidate)
    ensures SelectedUpTo(Update(visit, StableSort(pods, Created), parallelism, inFlight, at), pods, candidate,
                         parallelism - inFlight)
  {
    SortCounts(pods, candidate, Created);
    UpdateSelects(visit, StableSort(pods, Created), candidate, parallelism, inFlight, at);
  }

  /** What one call selects: nothing with parallelism below one, and otherwise the first of the Pods due, as many as
      the busy ones leave room for. */
  ghost predicate Selects(r: Pass, pods: seq<Pod>, due: Pod -> bool, busy: Pod -> bool, parallelism: int) {
    if parallelism < 1 then r == Pass(pods, [], false, pods, [])
    else SelectedUpTo(r, pods, due, parallelism - Count(pods, busy))
  }

  /** A pass with visits and classification kept abstract. */
  function PassOf(visit: (Pod, nat) -> Visit, pods: seq<Pod>, busy: Pod -> bool, parallelism: int, at: nat): Pass {
    if parallelism < 1 then Pass(pods, [], false, pods, [])
    else Update(visit, StableSort(pods, Created), parallelism, Count(pods, busy), at)
  }

  lemma {:induction false} PassSelects(visit: (Pod, nat) -> Visit, pods: seq<Pod>, due: Pod -> bool, busy: Pod -> bool,
                                       parallelism: int, at: nat)
    requires ActsOnAll(visit, StableSort(pods, Created), due)
    ensures Selects(PassOf(visit, pods, busy, parallelism, at), pods, due, busy, parallelism)
  {
    OldestFirstSelects(visit, pods, due, parallelism, Count(pods, busy), at);
  }

  /** The Pods created at one time, in order. */
  function CreatedAt(pods: seq<Pod>, time: int): seq<Pod> {
    if pods == [] then []
    else (if pods[0].created == time then [pods[0]] else []) + CreatedAt(pods[1..], time)
  }

  lemma {:induction false} CreatedAtIs(pods: seq<Pod>, time: int)
    ensures CreatedAt(pods, time) == WithKey(pods, Created, time)
  {
    if pods != [] {
      CreatedAtIs(pods[1..], time);
    }
  }

  /** The order of a pass: the same Pods by time of creation, those of one time as they were listed. */
  lemma {:induction false} OldestFirst(pods: seq<Pod>)
    ensures var order := StableSort(pods, Created);
      && multiset(order) == multiset(pods)
      && (forall i, j :: 0 <= i < j < |order| ==> order[i].created <= order[j].created)
      && forall time :: CreatedAt(order, time) == CreatedAt(pods, time)
  {
    StableSortSorts(pods, Created);
    var order := StableSort(pods, Created);
    forall time
      ensures CreatedAt(order, time) == CreatedAt(pods, time)
    {
      CreatedAtIs(order, time);
      CreatedAtIs(pods, time);
    }
    forall i, j | 0 <= i < j < |order|
      ensures order[i].created <= order[j].created
    {
      assert Created(order[i]) <= Created(order[j]);
    }
  }

  /** A pass visits the Pods oldest first, beginning with the slots the unsettled ones take. */
  lemma {:induction false} PassIs(cfg: Config, pods: seq<Pod>, t: Template, parallelism: int, answers: Answers, at: nat)
    ensures UpdatePass(cfg, pods, t, parallelism, answers, at) ==
            PassOf(VisitIn(cfg, t, answers), pods, UnsettledIn(cfg, t), parallelism, at)
  {
    InFlightCount(cfg, pods, t);
  }

  /** Exact selection: with no API error, and for any template whose containers the Pods have, one call acts on
      precisely the first of the Pods that are due, as many as the parallelism leaves beside the unsettled ones,
      in stable creation order, and touches no other Pod; with parallelism below one it acts on none. */
  lemma {:induction false} ExactSelection(cfg: Config, pods: seq<Pod>, t: Template, parallelism: int,
                                          answers: Answers, at: nat)
    requires NoErrors(answers) && forall i :: 0 <= i < |pods| ==> HasTemplateContainers(pods[i], t)
    ensures Selects(UpdatePass(cfg, pods, t, parallelism, answers, at), pods, DueIn(cfg, t), UnsettledIn(cfg, t), parallelism)
  {
    VisitsActOnAll(cfg, pods, t, answers);
    PassSelects(VisitIn(cfg, t, answers), pods, DueIn(cfg, t), UnsettledIn(cfg, t), parallelism, at);
    PassIs(cfg, pods, t, parallelism, answers, at);
  }

  /* ----- Failures ----- */

  /** The API server refused the call, or answered it with an error that has no fallback. */
  predicate Refused(e: Entry) {
    match e
    case PatchCall(_, taken) => !taken
    case ResizeCall(_, answered) => answered.ResizeFailed?
    case DeleteCall(_, outcome) => outcome.DeleteFailed?
  }

  /** The calls are about the Pod, and one of them was refused only if the visit failed. */
  ghost predicate CallsOwn(v: Visit, pod: Pod) {
    && (forall e :: e in v.log ==> UidOf(e) == pod.uid)
    && (!v.failed ==> forall e :: e in v.log ==> !Refused(e))
  }

  lemma {:induction false} VisitCallsOwn(cfg: Config, pod: Pod, t: Template, answers: Answers, at: nat)
    ensures CallsOwn(VisitPod(cfg, pod, t, answers, at), pod)
  {
    if Patched(cfg, pod, t).Ok? {
      SendCallsOwn(cfg, pod, Patched(cfg, pod, t).value, t, answers, at);
    }
  }

  lemma {:induction false} SendCallsOwn(cfg: Config, pod: Pod, q: Pod, t: Template, answers: Answers, at: nat)
    requires q.uid == pod.uid
    ensures CallsOwn(SendVisit(cfg, pod, q, t, answers, at), pod)
  {
    if answers.patch(at) && NeedsResize(cfg, q, t) {
      if Resized(q, t).Ok? {
        PatchAndResize(cfg, pod, q, t, answers, at);
      }
    } else {
      PatchOnly(cfg, pod, q, t, answers, at);
    }
  }

  /** The visit to the Pod at k failed, and nothing after it was touched or asked for. */
  ghost predicate StopsAt(visit: (Pod, nat) -> Visit, r: Pass, pods: seq<Pod>, k: nat) {
    && k < |pods| == |r.pods| && r.pods[k + 1..] == pods[k + 1..]
    && (exists at: nat :: visit(pods[k], at).failed)
    && forall e :: e in r.log ==> UidOf(e) in UidsOf(pods[..k + 1])
  }

  /** A pass that fails stops at the visit that failed; in one that does not, no call was refused. */
  ghost predicate StopsAtFailure(visit: (Pod, nat) -> Visit, r: Pass, pods: seq<Pod>) {
    if r.failed then exists k: nat :: StopsAt(visit, r, pods, k) else forall e :: e in r.log ==> !Refused(e)
  }

  lemma {:induction false} UpdateStopsAtFailure(visit: (Pod, nat) -> Visit, pods: seq<Pod>, parallelism: int,
                                                inFlight: int, at: nat)
    requires forall pod, k: nat :: CallsOwn(visit(pod, k), pod)
    ensures StopsAtFailure(visit, Update(visit, pods, parallelism, inFlight, at), pods)
  {
    if pods != [] && inFlight < parallelism {
      var v := visit(pods[0], at);
      assert CallsOwn(v, pods[0]);
      if v.failed {
        FailsAtFirst(visit, v, pods, at);
      } else {
        var inFlight', at' := inFlight + (if v.acted then 1 else 0), at + |v.log|;
        UpdateStopsAtFailure(visit, pods[1..], parallelism, inFlight', at');
        FailsLater(visit, v, pods, Update(visit, pods[1..], parallelism, inFlight', at'));
      }
    }
  }

  lemma {:induction false} FailsAtFirst(visit: (Pod, nat) -> Visit, v: Visit, pods: seq<Pod>, at: nat)
    requires pods != [] && v == visit(pods[0], at) && v.failed && CallsOwn(v, pods[0])
    ensures StopsAtFailure(visit, Pass([v.pod] + pods[1..], v.log, true, LiveOf(v) + pods[1..], []), pods)
  {
    var r := Pass([v.pod] + pods[1..], v.log, true, LiveOf(v) + pods[1..], []);
    assert pods[..0 + 1][0] == pods[0];
    assert UidsOf(pods[..0 + 1])[0] == pods[0].uid;
    assert StopsAt(visit, r, pods, 0);
  }

  lemma {:induction false} FailsLater(visit: (Pod, nat) -> Visit, v: Visit, pods: seq<Pod>, rest: Pass)
    requires pods != [] && !v.failed && CallsOwn(v, pods[0]) && StopsAtFailure(visit, rest, pods[1..])
    ensures StopsAtFailure(visit, Extend(pods[0], v, rest), pods)
  {
    var whole := Extend(pods[0], v, rest);
    if rest.failed {
      var k: nat :| StopsAt(visit, rest, pods[1..], k);
      assert pods[1..][k] == pods[k + 1] && pods[1..][k + 1..] == pods[k + 2..];
      assert whole.pods[k + 2..] == rest.pods[k + 1..];
      assert pods[..k + 2][1..] == pods[1..][..k + 1];
      assert UidsOf(pods[..k + 2]) == [pods[0].uid] + UidsOf(pods[1..][..k + 1]);
      assert StopsAt(visit, whole, pods, k + 1);
    }
  }

  /** Whatever the API server answers and whatever Pods and template there are: a call that fails ends the pass, the
      Pods after it in order stay as they are and nothing is asked about them; and a pass that reports no failure met
      none. */
  lemma {:induction false} FailureEndsPass(cfg: Config, pods: seq<Pod>, t: Template, parallelism: int, answers: Answers, at: nat)
    ensures StopsAtFailure(VisitIn(cfg, t, answers), UpdatePass(cfg, pods, t, parallelism, answers, at),
                           StableSort(pods, Created))
  {
    var visit := VisitIn(cfg, t, answers);
    forall pod, k: nat
      ensures CallsOwn(visit(pod, k), pod)
    {
      VisitCallsOwn(cfg, pod, t, answers, k);
    }
    if parallelism >= 1 {
      UpdateStopsAtFailure(visit, StableSort(pods, Created), parallelism, Count(pods, InFlightIn(cfg, t)), at);
    }
  }

  /* ----- The disruption budget ----- */

  /** A visit costs at most one unit, and only when it takes a slot: the Pod is gone, or newly in flight. */
  ghost predicate CostsAtMostASlot(v: Visit, pod: Pod, busy: Pod -> bool) {
    && (v.acted ==> !busy(pod))
    && (!v.acted || v.failed ==> v.live.Some? && (busy(v.live.value) ==> busy(pod)))
  }

  /** A Pod that was sent is in flight only if no resize is needed, and then nothing can fail after it. */
  lemma {:induction false} SendVisitCosts(cfg: Config, pod: Pod, patched: Pod, t: Template, answers: Answers, at: nat,
                                          busy: Pod -> bool)
    requires patched.uid == pod.uid && !busy(pod) && (NeedsResize(cfg, patched, t) ==> !busy(patched))
    ensures CostsAtMostASlot(SendVisit(cfg, pod, patched, t, answers, at), pod, busy)
  {
  }

  lemma {:induction false} VisitCostsAtMostASlot(cfg: Config, pod: Pod, t: Template, answers: Answers, at: nat)
    ensures CostsAtMostASlot(VisitPod(cfg, pod, t, answers, at), pod, UnsettledIn(cfg, t))
  {
    var busy := UnsettledIn(cfg, t);
    assert busy(pod) == Unsettled(cfg, pod, t);
    SpecMatchesMeans(cfg, pod, t);
    if cfg.eligible(pod) && !ResizeInfeasible(cfg, pod) && !SpecMatches(cfg, pod, t) && Patched(cfg, pod, t).Ok? {
      var q := Patched(cfg, pod, t).value;
      SpecMatchesMeans(cfg, q, t);
      assert NeedsResize(cfg, q, t) ==> !busy(q);
      SendVisitCosts(cfg, pod, q, t, answers, at, busy);
    }
  }

  lemma {:induction false} UpdateCosts(visit: (Pod, nat) -> Visit, pods: seq<Pod>, busy: Pod -> bool,
                                       parallelism: int, inFlight: int, at: nat)
    requires forall pod, k: nat :: CostsAtMostASlot(visit(pod, k), pod, busy)
    ensures var r := Update(visit, pods, parallelism, inFlight, at);
      && |r.live| <= |pods|
      && |pods| - |r.live| + Count(r.live, busy) <= Count(pods, busy) + Max(parallelism - inFlight, 0)
  {
    if pods != [] && inFlight < parallelism {
      var v := visit(pods[0], at);
      assert CostsAtMostASlot(v, pods[0], busy);
      if v.failed {
        CountOfConcat(LiveOf(v), pods[1..], busy);
      } else {
        var rest := Update(visit, pods[1..], parallelism, inFlight + (if v.acted then 1 else 0), at + |v.log|);
        UpdateCosts(visit, pods[1..], busy, parallelism, inFlight + (if v.acted then 1 else 0), at + |v.log|);
        CountOfConcat(LiveOf(v), rest.live, busy);
      }
    }
  }

  /** Pods missing from the desired count, plus busy ones. */
  function MissingOrBusy(pods: seq<Pod>, busy: Pod -> bool, desired: nat): nat {
    Max(desired - |pods|, 0) + Count(pods, busy)
  }

  /** Disruption of a ReplicaSet: Pods missing from the desired count, plus Pods that carry the template and have
      not settled. */
  ghost function Disruption(cfg: Config, pods: seq<Pod>, t: Template, desired: nat): nat {
    MissingOrBusy(pods, UnsettledIn(cfg, t), desired)
  }

  lemma {:induction false} PassCosts(visit: (Pod, nat) -> Visit, pods: seq<Pod>, busy: Pod -> bool, parallelism: int, at: nat)
    requires forall pod, k: nat :: CostsAtMostASlot(visit(pod, k), pod, busy)
    ensures var r := PassOf(visit, pods, busy, parallelism, at);
      && |r.live| <= |pods|
      && MissingOrBusy(r.live, busy, |pods|) <= Max(MissingOrBusy(pods, busy, |pods|), parallelism)
  {
    SortCounts(pods, busy, Created);
    UpdateCosts(visit, StableSort(pods, Created), busy, parallelism, Count(pods, busy), at);
  }

  /** A pass on the right number of Pods never disrupts more than its parallelism or what already was
      disrupted. */
  lemma {:induction false} UpdateStaysInBudget(cfg: Config, pods: seq<Pod>, t: Template, parallelism: int,
                                               answers: Answers, at: nat)
    ensures var r := UpdatePass(cfg, pods, t, parallelism, answers, at);
      && |r.live| <= |pods|
      && Disruption(cfg, r.live, t, |pods|) <= Max(Disruption(cfg, pods, t, |pods|), parallelism)
  {
    var visit, busy := VisitIn(cfg, t, answers), UnsettledIn(cfg, t);
    forall pod, k: nat
      ensures CostsAtMostASlot(visit(pod, k), pod, busy)
    {
      VisitCostsAtMostASlot(cfg, pod, t, answers, k);
    }
    PassCosts(visit, pods, busy, parallelism, at);
    PassIs(cfg, pods, t, parallelism, answers, at);
  }

  datatype Event =
    | Reconcile(created: seq<Pod>, deleted: nat, rank: Pod -> int, parallelism: int, answers: Answers)
    | Kubelet(i: nat, pod: Pod)

  /** Calls that create or delete may fail part of the way. A kubelet step does not by itself take a settled
      Pod out of service. */
  ghost predicate Enabled(cfg: Config, pods: seq<Pod>, t: Template, desired: nat, e: Event) {
    match e
    case Reconcile(created, deleted, _, _, _) =>
      |created| <= Max(desired - |pods|, 0) && deleted <= Max(|pods| - desired, 0)
    case Kubelet(i, pod) =>
      i < |pods| && (Unsettled(cfg, pod, t) ==> Unsettled(cfg, pods[i], t))
  }

  /** Parallelism is whatever the annotation held when it was read, however old: at most the budget. */
  ghost predicate WithinBudget(e: Event, budget: int) {
    e.Reconcile? ==> e.parallelism <= budget
  }

  /** One ReplicaSet pass: it creates while Pods are missing, deletes the first of the deletion order while
      there are too many, and runs updatePods only when the count is already right. */
  ghost function Next(cfg: Config, pods: seq<Pod>, t: Template, desired: nat, e: Event): seq<Pod>
    requires Enabled(cfg, pods, t, desired, e)
  {
    match e
    case Reconcile(created, deleted, rank, parallelism, answers) =>
      if |pods| < desired then pods + created
      else if |pods| > desired then StableSort(pods, rank)[deleted..]
      else UpdatePass(cfg, pods, t, parallelism, answers, 0).live
    case Kubelet(i, pod) => pods[i := pod]
  }

  /** Creating no more than are missing, deleting no more than there are too many, and a step of a Pod that does not
      make it busy, disrupt nothing more. */
  lemma {:induction false} CreatingCosts(pods: seq<Pod>, created: seq<Pod>, busy: Pod -> bool, desired: nat)
    requires |created| <= desired - |pods|
    ensures MissingOrBusy(pods + created, busy, desired) <= MissingOrBusy(pods, busy, desired)
  {
    CountOfConcat(pods, created, busy);
  }

  lemma {:induction false} DeletingCosts(pods: seq<Pod>, rank: Pod -> int, deleted: nat, busy: Pod -> bool, desired: nat)
    requires deleted <= |pods| - desired
    ensures MissingOrBusy(StableSort(pods, rank)[deleted..], busy, desired) <= MissingOrBusy(pods, busy, desired)
  {
    SortCounts(pods, busy, rank);
    var order := StableSort(pods, rank);
    CountOfConcat(order[..deleted], order[deleted..], busy);
    assert order == order[..deleted] + order[deleted..];
  }

  lemma {:induction false} ChangingCosts(pods: seq<Pod>, i: nat, pod: Pod, busy: Pod -> bool, desired: nat)
    requires i < |pods| && (busy(pod) ==> busy(pods[i]))
    ensures MissingOrBusy(pods[i := pod], busy, desired) <= MissingOrBusy(pods, busy, desired)
  {
    CountUpdate(pods, i, pod, busy);
  }

  lemma {:induction false} StepStaysInBudget(cfg: Config, pods: seq<Pod>, t: Template, desired: nat, budget: nat, e: Event)
    requires Enabled(cfg, pods, t, desired, e) && WithinBudget(e, budget)
    requires Disruption(cfg, pods, t, desired) <= budget
    ensures Disruption(cfg, Next(cfg, pods, t, desired, e), t, desired) <= budget
  {
    var busy := UnsettledIn(cfg, t);
    match e
    case Reconcile(created, deleted, rank, parallelism, answers) =>
      if |pods| < desired {
        CreatingCosts(pods, created, busy, desired);
      } else if |pods| > desired {
        DeletingCosts(pods, rank, deleted, busy, desired);
      } else {
        UpdateStaysInBudget(cfg, pods, t, parallelism, answers, 0);
      }
    case Kubelet(i, pod) =>
      ChangingCosts(pods, i, pod, busy, desired);
  }

  ghost predicate Possible(cfg: Config, pods: seq<Pod>, t: Template, desired: nat, events: seq<Event>)
    decreases |events|
  {
    |events| == 0 ||
    (&& Enabled(cfg, pods, t, desired, events[0])
     && Possible(cfg, Next(cfg, pods, t, desired, events[0]), t, desired, events[1..]))
  }

  ghost function After(cfg: Config, pods: seq<Pod>, t: Template, desired: nat, events: seq<Event>): seq<Pod>
    requires Possible(cfg, pods, t, desired, events)
    decreases |events|
  {
    if |events| == 0 then pods
    else After(cfg, Next(cfg, pods, t, desired, events[0]), t, desired, events[1..])
  }

  /** The in-place disruption budget over whole runs: for one ReplicaSet with a fixed template and count,
      from a start within the budget, missing Pods plus updated Pods that have not settled never exceed it,
      however stale the parallelism and wherever API calls fail or fall back. */
  lemma {:induction false} DisruptionStaysInBudget(cfg: Config, pods: seq<Pod>, t: Template, desired: nat,
                                                   budget: nat, events: seq<Event>)
    requires Possible(cfg, pods, t, desired, events) && forall k :: 0 <= k < |events| ==> WithinBudget(events[k], budget)
    requires Disruption(cfg, pods, t, desired) <= budget
    ensures Disruption(cfg, After(cfg, pods, t, desired, events), t, desired) <= budget
    decreases |events|
  {
    if |events| > 0 {
      StepStaysInBudget(cfg, pods, t, desired, budget, events[0]);
      DisruptionStaysInBudget(cfg, Next(cfg, pods, t, desired, events[0]), t, desired, budget, events[1..]);
    }
  }
}
