/**
 When a rollout is called complete: the progress a ReplicaSet reports is accepted only when it was computed
 from its present spec and in-place key, and then nothing is left to do.
 */
module Completion {
  import opened Counting
  import opened InPlace
  import opened Results
  import opened Revision
  import opened Rollout
  import M = Matching
  import R = Recreate
  import Sorting
  import W = Workload

  /* ----- Progress ----- */

  /** The progress as it is reported. An absent field reads as the empty revision, here None, or as zero. */
  datatype Progress = Progress(revision: Option<InPlaceKey>, updated: int, ready: int)

  function UpdatedIn(cfg: Config, t: W.Template): W.Pod -> bool {
    (pod: W.Pod) => cfg.eligible(pod) && SpecMatches(cfg, pod, t)
  }

  function ReadyIn(cfg: Config, t: W.Template): W.Pod -> bool {
    (pod: W.Pod) => cfg.eligible(pod) && ReadyAndObserved(cfg, pod, t)
  }

  function ProgressOf(cfg: Config, pods: seq<W.Pod>, t: W.Template): Progress {
    Progress(Some(InPlaceKeyOf(cfg.names, cfg.policy, t)), Count(pods, UpdatedIn(cfg, t)), Count(pods, ReadyIn(cfg, t)))
  }

  ghost function CarryingIn(cfg: Config, t: W.Template): W.Pod -> bool {
    (pod: W.Pod) => cfg.eligible(pod) && M.CarriesTemplate(cfg, pod, t)
  }

  ghost function SettledIn(cfg: Config, t: W.Template): W.Pod -> bool {
    (pod: W.Pod) => cfg.eligible(pod) && M.Settled(cfg, pod, t)
  }

  /** The counters are the eligible Pods that carry the template, and those of them that have settled. */
  lemma {:induction false} ProgressMeans(cfg: Config, pods: seq<W.Pod>, t: W.Template)
    ensures var p := ProgressOf(cfg, pods, t);
      && p.revision == Some(InPlaceKeyOf(cfg.names, cfg.policy, t))
      && p.updated == Count(pods, CarryingIn(cfg, t)) && p.ready == Count(pods, SettledIn(cfg, t))
  {
    forall i | 0 <= i < |pods|
      ensures UpdatedIn(cfg, t)(pods[i]) == CarryingIn(cfg, t)(pods[i]) && ReadyIn(cfg, t)(pods[i]) == SettledIn(cfg, t)(pods[i])
    {
      M.SpecMatchesMeans(cfg, pods[i], t);
      M.ReadyAndObservedMeans(cfg, pods[i], t);
    }
    SameCount(pods, UpdatedIn(cfg, t), CarryingIn(cfg, t));
    SameCount(pods, ReadyIn(cfg, t), SettledIn(cfg, t));
  }

  method CalculateProgress(cfg: Config, pods: seq<W.Pod>, t: W.Template) returns (progress: Progress, total: nat)
    ensures progress == ProgressOf(cfg, pods, t)
    ensures total == Count(pods, cfg.eligible)
    ensures 0 <= progress.ready <= progress.updated <= total
  {
    var key := InPlaceRevision(cfg.names, cfg.policy, t);
    var updated, ready := 0, 0;
    total := 0;
    for i := 0 to |pods|
      invariant total == Count(pods[..i], cfg.eligible)
      invariant updated == Count(pods[..i], UpdatedIn(cfg, t))
      invariant ready == Count(pods[..i], ReadyIn(cfg, t))
      invariant 0 <= ready <= updated <= total
    {
      CountStep(pods, i, cfg.eligible);
      CountStep(pods, i, UpdatedIn(cfg, t));
      CountStep(pods, i, ReadyIn(cfg, t));
      if !cfg.eligible(pods[i]) {
        continue;
      }
      total := total + 1;
      if !SpecMatches(cfg, pods[i], t) {
        continue;
      }
      updated := updated + 1;
      if ReadyAndObserved(cfg, pods[i], t) {
        ready := ready + 1;
      }
    }
    assert pods[..|pods|] == pods;
    progress := Progress(Some(key), updated, ready);
  }

  /* ----- A ReplicaSet and its status ----- */

  datatype Status = Status(observedGeneration: int, replicas: int, available: int, inPlace: Option<Progress>)

  datatype Set = Set(generation: int, replicas: int, template: W.Template, policy: W.Policy, status: Status)

  function KeyOf(cfg: Config, s: Set): InPlaceKey {
    InPlaceKeyOf(cfg.names, s.policy, s.template)
  }

  /** The reported progress, or none when it belongs to an older spec or another in-place key. */
  function ObservedInPlaceStatus(cfg: Config, s: Set): Progress {
    if || s.status.observedGeneration < s.generation || s.status.inPlace.None?
       || s.status.inPlace.value.revision != Some(KeyOf(cfg, s))
    then Progress(Some(KeyOf(cfg, s)), 0, 0)
    else s.status.inPlace.value
  }

  /** current is the ReplicaSet at c of the views. */
  predicate DeploymentComplete(cfg: Config, vs: seq<View>, c: nat, current: Set, desired: int)
    requires c < |vs|
  {
    && TotalOld(vs, vs[c].uid) == 0
    && TotalOldObserved(vs, vs[c].uid) == 0
    && current.replicas == desired
    && ObservedInPlaceStatus(cfg, current).updated == desired
    && ObservedInPlaceStatus(cfg, current).ready == desired
    && current.status.available == desired
  }

  /** The reported progress is accepted as it is. */
  predicate Accepted(cfg: Config, s: Set) {
    && s.status.observedGeneration >= s.generation && s.status.inPlace.Some?
    && s.status.inPlace.value.revision == Some(KeyOf(cfg, s))
  }

  /** Exactly when a Deployment is complete: no old ReplicaSet asks for or reports a Pod; the current one asks for
      desired and reports as many available; and its progress is accepted and counts all of them as updated and
      ready, which need not be when none is desired. */
  lemma {:induction false} CompleteExactly(cfg: Config, vs: seq<View>, c: nat, current: Set, desired: nat)
    requires c < |vs| && DistinctUids(vs) && NonNegative(vs) && R.CountsReported(vs)
    ensures DeploymentComplete(cfg, vs, c, current, desired) <==>
      && (forall i :: 0 <= i < |vs| && i != c ==> vs[i].replicas == vs[i].observed == vs[i].terminating == 0)
      && current.replicas == current.status.available == desired
      && if Accepted(cfg, current) then current.status.inPlace.value.updated == current.status.inPlace.value.ready == desired
         else desired == 0
  {
    OldAtZeroExactly(vs, c);
    R.ReportedSum(vs, c);
    NothingObserved(vs, c);
  }

  lemma {:induction false} NothingObserved(vs: seq<View>, c: nat)
    requires c < |vs| && R.CountsReported(vs)
    ensures TotalOldObserved(vs, vs[c].uid) >= 0
  {
    var f := OldOnly(Observed, vs[c].uid);
    forall k | 0 <= k < |vs|
      ensures f(vs[k]) >= 0
    {
      assert Observed(vs[k]) >= 0;
    }
    SumNonNegative(vs, f);
  }

  predicate IsViewOf(v: View, s: Set) {
    v.replicas == s.replicas && v.available == s.status.available
  }

  /* ----- Late status writes ----- */

  /** One ReplicaSet pass: the copy it read, the active Pods it listed and how many were available. */
  datatype Reading = Reading(copy: Set, pods: seq<W.Pod>, available: int)

  /** The status that pass computes. */
  function StatusOf(cfg: Config, r: Reading): Status {
    Status(r.copy.generation, |r.pods|, r.available,
           Some(ProgressOf(cfg.(policy := r.copy.policy), r.pods, r.copy.template)))
  }

  /** A merge patch computed against the copy: a field is written when it differs from the copy's. */
  function Merged<T(==)>(live: T, copy: T, computed: T): T {
    if computed == copy then live else computed
  }

  /** What an absent progress reads as: no revision and zero counts, as these fields are omitted when empty. */
  function OrBlank(progress: Option<Progress>): Progress {
    if progress.Some? then progress.value else Progress(None, 0, 0)
  }

  /** The nested progress is merged field by field, also when the copy or the live status has none. */
  function MergedProgress(live: Option<Progress>, copy: Option<Progress>, computed: Option<Progress>): Option<Progress> {
    if computed == copy then live
    else if computed.None? then None
    else
      var l, c, v := OrBlank(live), OrBlank(copy), computed.value;
      Some(Progress(Merged(l.revision, c.revision, v.revision), Merged(l.updated, c.updated, v.updated),
                    Merged(l.ready, c.ready, v.ready)))
  }

  function MergedStatus(live: Status, copy: Status, computed: Status): Status {
    Status(Merged(live.observedGeneration, copy.observedGeneration, computed.observedGeneration),
           Merged(live.replicas, copy.replicas, computed.replicas),
           Merged(live.available, copy.available, computed.available),
           MergedProgress(live.inPlace, copy.inPlace, computed.inPlace))
  }

  /** A field of the patch is sent, or need not be. */
  predicate Lands<T(==)>(live: T, copy: T, computed: T) {
    computed != copy || live == computed
  }

  /** A count of zero is not sent when the copy has no progress at all. */
  predicate ProgressLands(live: Option<Progress>, copy: Option<Progress>, computed: Option<Progress>) {
    if computed == copy then live == computed
    else if computed.None? then true
    else
      var l, c, v := OrBlank(live), OrBlank(copy), computed.value;
      && Lands(l.revision, c.revision, v.revision) && Lands(l.updated, c.updated, v.updated)
      && Lands(l.ready, c.ready, v.ready)
  }

  /** A merge patch leaves the status as it was computed exactly when every field that is not sent already is
      as computed; in particular when the status that was read is the live one. */
  lemma {:induction false} MergeReplacesWhole(live: Status, copy: Status, computed: Status)
    ensures MergedStatus(live, copy, computed) == computed <==>
      && Lands(live.observedGeneration, copy.observedGeneration, computed.observedGeneration)
      && Lands(live.replicas, copy.replicas, computed.replicas)
      && Lands(live.available, copy.available, computed.available)
      && ProgressLands(live.inPlace, copy.inPlace, computed.inPlace)
    ensures copy == live ==> MergedStatus(live, copy, computed) == computed
  {
  }

  /** The ReplicaSet, the passes that may still write, and the pass that wrote last, if any. */
  datatype World = World(current: Set, readings: seq<Reading>, basis: Option<Reading>)

  datatype Event =
    | ChangeSpec(replicas: int, template: W.Template)
    | ChangePolicy(policy: W.Policy)
    | Read(pods: seq<W.Pod>, available: int)
    | WriteStatus(k: nat)

  /** A pass gets as far as the status only with the number of Pods it read in the spec; it may write
      however late, whatever was written since it read. */
  predicate Enabled(w: World, e: Event) {
    match e
    case ChangeSpec(_, _) => true
    case ChangePolicy(_) => true
    case Read(pods, available) => |pods| == w.current.replicas && 0 <= available <= |pods|
    case WriteStatus(k) => k < |w.readings|
  }

  /** The event does not mix two passes in one status: a write leaves the status as it was computed. */
  predicate WritesWhole(cfg: Config, w: World, e: Event)
    requires Enabled(w, e)
  {
    e.WriteStatus? ==>
      var r := w.readings[e.k];
      MergedStatus(w.current.status, r.copy.status, StatusOf(cfg, r)) == StatusOf(cfg, r)
  }

  /** Changing the spec raises the generation; changing an annotation does not. */
  function Next(cfg: Config, w: World, e: Event): World
    requires Enabled(w, e)
  {
    match e
    case ChangeSpec(n, t) => w.(current := w.current.(replicas := n, template := t, generation := w.current.generation + 1))
    case ChangePolicy(p) => w.(current := w.current.(policy := p))
    case Read(pods, available) => w.(readings := w.readings + [Reading(w.current, pods, available)])
    case WriteStatus(k) =>
      var r := w.readings[k];
      w.(current := w.current.(status := MergedStatus(w.current.status, r.copy.status, StatusOf(cfg, r))), basis := Some(r))
  }

  /** A copy of the present generation has the present spec. */
  ghost predicate CopyOk(s: Set, r: Reading) {
    && r.copy.generation <= s.generation
    && (r.copy.generation == s.generation ==> r.copy.replicas == s.replicas && r.copy.template == s.template)
    && |r.pods| == r.copy.replicas
  }

  /** The status is the one computed by the pass that wrote last; before any write it reports nothing. */
  ghost predicate Grounded(cfg: Config, w: World) {
    && (forall k :: 0 <= k < |w.readings| ==> CopyOk(w.current, w.readings[k]))
    && match w.basis
       case None => w.current.status.inPlace.None?
       case Some(r) => CopyOk(w.current, r) && w.current.status == StatusOf(cfg, r)
  }

  /** Only a status write can take the ground away, and it does so exactly when it mixes two passes. */
  lemma {:induction false} StepStaysGrounded(cfg: Config, w: World, e: Event)
    requires Grounded(cfg, w) && Enabled(w, e)
    ensures Grounded(cfg, Next(cfg, w, e)) <==> WritesWhole(cfg, w, e)
  {
  }

  ghost predicate Possible(cfg: Config, w: World, events: seq<Event>)
    decreases |events|
  {
    |events| == 0 || (Enabled(w, events[0]) && Possible(cfg, Next(cfg, w, events[0]), events[1..]))
  }

  ghost function After(cfg: Config, w: World, events: seq<Event>): World
    requires Possible(cfg, w, events)
    decreases |events|
  {
    if |events| == 0 then w else After(cfg, Next(cfg, w, events[0]), events[1..])
  }

  /** Every write of the run leaves the status as it was computed. */
  ghost predicate AllWhole(cfg: Config, w: World, events: seq<Event>)
    requires Possible(cfg, w, events)
    decreases |events|
  {
    |events| == 0 || (WritesWhole(cfg, w, events[0]) && AllWhole(cfg, Next(cfg, w, events[0]), events[1..]))
  }

  /** Some run, whose writes may mix passes, leads from one world to the other. */
  ghost predicate Reaches(cfg: Config, w: World, last: World) {
    exists events :: Possible(cfg, w, events) && After(cfg, w, events) == last
  }

  lemma {:induction false} ReachesItself(cfg: Config, w: World)
    ensures Reaches(cfg, w, w)
  {
    assert Possible(cfg, w, []) && After(cfg, w, []) == w;
  }

  lemma {:induction false} ReachesAfter(cfg: Config, w: World, e: Event, next: World, last: World)
    requires Enabled(w, e) && next == Next(cfg, w, e) && Reaches(cfg, next, last)
    ensures Reaches(cfg, w, last)
  {
    var rest :| Possible(cfg, next, rest) && After(cfg, next, rest) == last;
    var events := [e] + rest;
    assert events[0] == e && events[1..] == rest;
    assert Possible(cfg, w, events) && After(cfg, w, events) == last;
  }

  lemma {:induction false} RunStaysGrounded(cfg: Config, w: World, events: seq<Event>)
    requires Grounded(cfg, w) && Possible(cfg, w, events) && AllWhole(cfg, w, events)
    ensures Grounded(cfg, After(cfg, w, events))
    decreases |events|
  {
    if |events| > 0 {
      StepStaysGrounded(cfg, w, events[0]);
      RunStaysGrounded(cfg, Next(cfg, w, events[0]), events[1..]);
    }
  }

  /** The pass r counted exactly the present spec and in-place key, and found every Pod there should be to carry
      the present template and to have settled in it. */
  ghost predicate Vouches(cfg: Config, r: Reading, s: Set, desired: nat) {
    var seen := cfg.(policy := r.copy.policy);
    && r.copy.generation == s.generation && r.copy.replicas == s.replicas == desired && r.copy.template == s.template
    && KeyOf(cfg, r.copy) == KeyOf(cfg, s)
    && |r.pods| == desired && r.available == desired
    && (s.template.containers != [] ==> r.copy.policy == s.policy)
    && forall i :: 0 <= i < |r.pods| ==> M.Settled(seen, r.pods[i], s.template)
  }

  lemma {:induction false} AcceptedIsPresent(cfg: Config, w: World, desired: nat)
    requires Grounded(cfg, w) && desired > 0 && w.current.replicas == desired && w.current.status.available == desired
    requires ObservedInPlaceStatus(cfg, w.current).updated == ObservedInPlaceStatus(cfg, w.current).ready == desired
    ensures w.basis.Some? && Vouches(cfg, w.basis.value, w.current, desired)
  {
    var s, r := w.current, w.basis.value;
    assert CopyOk(s, r) && s.status == StatusOf(cfg, r);
    var seen := cfg.(policy := r.copy.policy);
    ProgressMeans(seen, r.pods, s.template);
    FullCount(r.pods, SettledIn(seen, s.template));
    forall i | 0 <= i < |r.pods|
      ensures M.Settled(seen, r.pods[i], s.template)
    {
      assert SettledIn(seen, s.template)(r.pods[i]);
    }
    PolicyFlipChangesKey(cfg.names, s.template);
  }

  /** Completion is fenced: over any run of spec changes, policy flips and status writes however late, none of
      which mixes two passes, a Deployment that asks for at least one replica is complete only when the last
      status came from a pass over exactly the present spec and in-place key in which every Pod matched, was
      ready and was observed. */
  lemma {:induction false} CompletionIsFenced(cfg: Config, w: World, events: seq<Event>, vs: seq<View>, c: nat, desired: nat)
    requires Grounded(cfg, w) && Possible(cfg, w, events) && AllWhole(cfg, w, events) && c < |vs| && desired > 0
    requires DeploymentComplete(cfg, vs, c, After(cfg, w, events).current, desired)
    ensures var last := After(cfg, w, events);
            last.basis.Some? && Vouches(cfg, last.basis.value, last.current, desired)
  {
    RunStaysGrounded(cfg, w, events);
    AcceptedIsPresent(cfg, After(cfg, w, events), desired);
  }

  /** At zero replicas the fence is open: a complete Deployment is vouched for exactly when its progress is
      accepted, which completion itself does not ask for. */
  lemma {:induction false} CompletionAtZero(cfg: Config, w: World, vs: seq<View>, c: nat)
    requires Grounded(cfg, w) && c < |vs| && DeploymentComplete(cfg, vs, c, w.current, 0)
    ensures w.basis.Some? && Vouches(cfg, w.basis.value, w.current, 0) <==> Accepted(cfg, w.current)
  {
    PolicyFlipChangesKey(cfg.names, w.current.template);
  }

  /** So a ReplicaSet whose newest spec nobody has looked at yet can count as complete. */
  lemma {:induction false} UnseenSpecCanBeComplete(cfg: Config, t: W.Template)
    ensures var s := Set(2, 0, t, W.Policy(false), Status(1, 0, 0, None));
            DeploymentComplete(cfg, [View(1, 0, 0, 0, 0)], 0, s, 0) && s.status.observedGeneration < s.generation
  {
    assert [View(1, 0, 0, 0, 0)][..0] == [];
  }

  const KEEPING := W.Policy(false)
  const RESIZING := W.Policy(true)

  /** A ReplicaSet of one Pod, with a status from a pass that found it not matching yet. */
  function Unmatched(cfg: Config, t: W.Template, stale: W.Pod): World {
    var r := Reading(Set(1, 1, t, KEEPING, Status(0, 0, 0, None)), [stale], 1);
    World(r.copy.(status := StatusOf(cfg, r)), [r], Some(r))
  }

  /** The status a pass over one Pod computes. */
  lemma {:induction false} OnePodStatus(cfg: Config, r: Reading)
    requires |r.pods| == 1
    ensures var seen, t := cfg.(policy := r.copy.policy), r.copy.template;
      StatusOf(cfg, r) == Status(r.copy.generation, 1, r.available, Some(Progress(Some(InPlaceKeyOf(cfg.names, r.copy.policy, t)),
        if cfg.eligible(r.pods[0]) && SpecMatches(seen, r.pods[0], t) then 1 else 0,
        if cfg.eligible(r.pods[0]) && ReadyAndObserved(seen, r.pods[0], t) then 1 else 0)))
  {
    assert r.pods[1..] == [];
  }

  function FirstFlip(cfg: Config, t: W.Template, stale: W.Pod): Reading {
    Reading(Unmatched(cfg, t, stale).current.(policy := RESIZING), [stale], 1)
  }

  function SecondFlip(cfg: Config, t: W.Template, stale: W.Pod, matched: W.Pod): Reading {
    Reading(Unmatched(cfg, t, stale).current, [matched], 1)
  }

  /** The world the run ends in: the key of one pass with the counts of another. */
  function Mixed(cfg: Config, t: W.Template, stale: W.Pod, matched: W.Pod): World {
    var w, first, second := Unmatched(cfg, t, stale), FirstFlip(cfg, t, stale), SecondFlip(cfg, t, stale, matched);
    World(Set(1, 1, t, RESIZING, Status(1, 1, 1, Some(Progress(Some(InPlaceKeyOf(cfg.names, RESIZING, t)), 1, 1)))),
          w.readings + [first] + [second], Some(second))
  }

  /** The two late writes, given what they compute: the key of the first stays under the counts of the second. */
  lemma {:induction false} LateWrites(cfg: Config, w: World, a: InPlaceKey, b: InPlaceKey)
    requires a != b && |w.readings| == 3 && w.current.status == Status(1, 1, 1, Some(Progress(Some(a), 0, 0)))
    requires w.readings[1].copy.status == w.readings[2].copy.status == w.current.status
    requires StatusOf(cfg, w.readings[1]) == Status(1, 1, 1, Some(Progress(Some(b), 0, 0)))
    requires StatusOf(cfg, w.readings[2]) == Status(1, 1, 1, Some(Progress(Some(a), 1, 1)))
    ensures var status := Status(1, 1, 1, Some(Progress(Some(b), 0, 0)));
            var first := World(w.current.(status := status), w.readings, Some(w.readings[1]));
      && Next(cfg, w, WriteStatus(1)) == first
      && Next(cfg, first, WriteStatus(2)) ==
         World(w.current.(status := Status(1, 1, 1, Some(Progress(Some(b), 1, 1)))), w.readings, Some(w.readings[2]))
  {
  }

  /** From the two passes on: both write, then the policy flips once more. */
  lemma {:induction false} WritesReach(cfg: Config, w: World, a: InPlaceKey, b: InPlaceKey)
    requires a != b && |w.readings| == 3 && w.current.status == Status(1, 1, 1, Some(Progress(Some(a), 0, 0)))
    requires w.readings[1].copy.status == w.readings[2].copy.status == w.current.status
    requires StatusOf(cfg, w.readings[1]) == Status(1, 1, 1, Some(Progress(Some(b), 0, 0)))
    requires StatusOf(cfg, w.readings[2]) == Status(1, 1, 1, Some(Progress(Some(a), 1, 1)))
    ensures Reaches(cfg, w, World(w.current.(policy := RESIZING, status := Status(1, 1, 1, Some(Progress(Some(b), 1, 1)))),
                                  w.readings, Some(w.readings[2])))
  {
    LateWrites(cfg, w, a, b);
    var first := Next(cfg, w, WriteStatus(1));
    var second := Next(cfg, first, WriteStatus(2));
    var last := second.(current := second.current.(policy := RESIZING));
    ReachesItself(cfg, last);
    ReachesAfter(cfg, second, ChangePolicy(RESIZING), last, last);
    ReachesAfter(cfg, first, WriteStatus(2), second, last);
    ReachesAfter(cfg, w, WriteStatus(1), first, last);
  }

  /** Up to them: the policy flips, a pass reads the Pod as stale, the policy flips back, and a pass reads it as
      matched while it still holds the copy of the status from before the first one wrote. */
  lemma {:induction false} ReadsReach(cfg: Config, w: World, last: World, stale: W.Pod, matched: W.Pod)
    requires w.current.replicas == 1 && w.current.policy == KEEPING
    requires var first, second := Reading(w.current.(policy := RESIZING), [stale], 1), Reading(w.current, [matched], 1);
             Reaches(cfg, w.(readings := w.readings + [first] + [second]), last)
    ensures Reaches(cfg, w, last)
  {
    var w1 := w.(current := w.current.(policy := RESIZING));
    var w2 := w1.(readings := w.readings + [Reading(w1.current, [stale], 1)]);
    var w3 := w2.(current := w.current);
    var w4 := w3.(readings := w2.readings + [Reading(w.current, [matched], 1)]);
    ReachesAfter(cfg, w3, Read([matched], 1), w4, last);
    ReachesAfter(cfg, w2, ChangePolicy(KEEPING), w3, last);
    ReachesAfter(cfg, w1, Read([stale], 1), w2, last);
    ReachesAfter(cfg, w, ChangePolicy(RESIZING), w1, last);
  }

  lemma {:induction false} FlipsReachMixed(cfg: Config, t: W.Template, stale: W.Pod, matched: W.Pod)
    requires t.containers != [] && cfg.eligible(matched) && ReadyAndObserved(cfg.(policy := KEEPING), matched, t)
    requires !SpecMatches(cfg.(policy := KEEPING), stale, t)
    ensures Reaches(cfg, Unmatched(cfg, t, stale), Mixed(cfg, t, stale, matched))
  {
    var w := Unmatched(cfg, t, stale);
    var first, second := FirstFlip(cfg, t, stale), SecondFlip(cfg, t, stale, matched);
    PolicyFlipChangesKey(cfg.names, t);
    OnePodStatus(cfg, w.readings[0]);
    OnePodStatus(cfg, first);
    OnePodStatus(cfg, second);
    WritesReach(cfg, w.(readings := w.readings + [first] + [second]),
                InPlaceKeyOf(cfg.names, KEEPING, t), InPlaceKeyOf(cfg.names, RESIZING, t));
    ReadsReach(cfg, w, Mixed(cfg, t, stale, matched), stale, matched);
  }

  /** The fence is passed when a merge patch mixes two passes: from any grounded start of this kind a run ends
      complete although no pass of it, whether it wrote or not, vouches for the present key. */
  lemma {:induction false} MixedMergePassesFence(cfg: Config, t: W.Template, stale: W.Pod, matched: W.Pod)
    requires t.containers != [] && cfg.eligible(matched) && M.Settled(cfg.(policy := KEEPING), matched, t)
    requires !M.CarriesTemplate(cfg.(policy := KEEPING), stale, t)
    ensures var w, last := Unmatched(cfg, t, stale), Mixed(cfg, t, stale, matched);
      && Grounded(cfg, w) && Reaches(cfg, w, last)
      && DeploymentComplete(cfg, [View(1, 1, 1, 1, 0)], 0, last.current, 1) && IsViewOf(View(1, 1, 1, 1, 0), last.current)
      && forall k :: 0 <= k < |last.readings| ==> !Vouches(cfg, last.readings[k], last.current, 1)
  {
    M.ReadyAndObservedMeans(cfg.(policy := KEEPING), matched, t);
    M.SpecMatchesMeans(cfg.(policy := KEEPING), stale, t);
    FlipsReachMixed(cfg, t, stale, matched);
    PolicyFlipChangesKey(cfg.names, t);
    assert [View(1, 1, 1, 1, 0)][..0] == [];
  }

  /** A ReplicaSet of one Pod that has no status yet. */
  function Fresh(t: W.Template, policy: W.Policy): World {
    World(Set(1, 1, t, policy, Status(0, 0, 0, None)), [], None)
  }

  /** The passes of the run: one over the first template, one over the second, both on a copy without status. */
  function FirstReadings(t: W.Template, u: W.Template, policy: W.Policy, pod: W.Pod): seq<Reading> {
    var first := Fresh(t, policy).current;
    [Reading(first, [pod], 1), Reading(first.(template := u, generation := 2), [pod], 1)]
  }

  /** Where the run ends: the second key with the counts of the first pass. */
  function Inherited(cfg: Config, t: W.Template, u: W.Template, policy: W.Policy, pod: W.Pod): World {
    var readings := FirstReadings(t, u, policy, pod);
    World(Set(2, 1, u, policy, Status(2, 1, 1, Some(Progress(Some(InPlaceKeyOf(cfg.names, policy, u)), 1, 1)))),
          readings, Some(readings[1]))
  }

  /** The two first writes, given what they compute: the zero counts of the second are not sent. */
  lemma {:induction false} FirstWrites(cfg: Config, w: World, a: InPlaceKey, b: InPlaceKey)
    requires |w.readings| == 2 && w.current.status == Status(0, 0, 0, None)
    requires w.readings[0].copy.status == w.readings[1].copy.status == w.current.status
    requires StatusOf(cfg, w.readings[0]) == Status(1, 1, 1, Some(Progress(Some(a), 1, 1)))
    requires StatusOf(cfg, w.readings[1]) == Status(2, 1, 1, Some(Progress(Some(b), 0, 0)))
    ensures Reaches(cfg, w, World(w.current.(status := Status(2, 1, 1, Some(Progress(Some(b), 1, 1)))),
                                  w.readings, Some(w.readings[1])))
  {
    var first := Next(cfg, w, WriteStatus(0));
    assert first == World(w.current.(status := Status(1, 1, 1, Some(Progress(Some(a), 1, 1)))), w.readings, Some(w.readings[0]));
    var last := Next(cfg, first, WriteStatus(1));
    ReachesItself(cfg, last);
    ReachesAfter(cfg, first, WriteStatus(1), last, last);
    ReachesAfter(cfg, w, WriteStatus(0), first, last);
  }

  lemma {:induction false} FreshReachesInherited(cfg: Config, t: W.Template, u: W.Template, policy: W.Policy, pod: W.Pod)
    requires cfg.eligible(pod) && ReadyAndObserved(cfg.(policy := policy), pod, t)
    requires !SpecMatches(cfg.(policy := policy), pod, u)
    ensures Reaches(cfg, Fresh(t, policy), Inherited(cfg, t, u, policy, pod))
  {
    var w, last, readings := Fresh(t, policy), Inherited(cfg, t, u, policy, pod), FirstReadings(t, u, policy, pod);
    OnePodStatus(cfg, readings[0]);
    OnePodStatus(cfg, readings[1]);
    var w1 := w.(readings := [readings[0]]);
    var w2 := w1.(current := readings[1].copy);
    var w3 := w2.(readings := readings);
    FirstWrites(cfg, w3, InPlaceKeyOf(cfg.names, policy, t), InPlaceKeyOf(cfg.names, policy, u));
    ReachesAfter(cfg, w2, Read([pod], 1), w3, last);
    ReachesAfter(cfg, w1, ChangeSpec(1, u), w2, last);
    ReachesAfter(cfg, w, Read([pod], 1), w1, last);
  }

  /** So it is by the second status a ReplicaSet ever gets, without any flip of the policy: a pass that read the
      new spec before the first status was written omits its zero counts, and those of the first stay. */
  lemma {:induction false} SecondStatusPassesFence(cfg: Config, t: W.Template, u: W.Template, policy: W.Policy, pod: W.Pod)
    requires cfg.eligible(pod) && M.Settled(cfg.(policy := policy), pod, t)
    requires !M.CarriesTemplate(cfg.(policy := policy), pod, u)
    ensures var w, last := Fresh(t, policy), Inherited(cfg, t, u, policy, pod);
      && Grounded(cfg, w) && Reaches(cfg, w, last)
      && DeploymentComplete(cfg, [View(1, 1, 1, 1, 0)], 0, last.current, 1) && IsViewOf(View(1, 1, 1, 1, 0), last.current)
      && forall k :: 0 <= k < |last.readings| ==> !Vouches(cfg, last.readings[k], last.current, 1)
  {
    M.ReadyAndObservedMeans(cfg.(policy := policy), pod, t);
    M.SpecMatchesMeans(cfg.(policy := policy), pod, u);
    FreshReachesInherited(cfg, t, u, policy, pod);
    assert FirstReadings(t, u, policy, pod)[1].pods[0] == pod;
    assert [View(1, 1, 1, 1, 0)][..0] == [];
  }

  /* ----- Nothing is left to do ----- */

  /** A complete Deployment is quiescent: neither strategy changes any ReplicaSet. */
  lemma {:induction false} CompleteIsQuiescent(cfg: Config, vs: seq<View>, c: nat, s: Set, lim: Limits, pods: seq<R.PhasedPod>)
    requires c < |vs| && DistinctUids(vs) && NonNegative(vs) && ValidLimits(lim) && IsViewOf(vs[c], s)
    requires DeploymentComplete(cfg, vs, c, s, lim.desired)
    ensures Settled(vs, c, lim)
    ensures RollingDecision(vs, c, lim) == Keep
    ensures R.RecreateDecision(vs, c, pods, lim.desired) == Keep
  {
    SettledMeansNothingRemains(vs, c, lim);
    NoDeadlock(vs, c, lim);
  }

  /** A visit that leaves the Pod alone. */
  function Idle(pod: W.Pod): Visit { Visit(pod, [], false, false, Some(pod)) }

  lemma {:induction false} IdleVisitsCallNothing(visit: (W.Pod, nat) -> Visit, pods: seq<W.Pod>, parallelism: int,
                                                 inFlight: int, at: nat)
    requires forall i, k: nat :: 0 <= i < |pods| ==> visit(pods[i], k) == Idle(pods[i])
    ensures Update(visit, pods, parallelism, inFlight, at).log == []
    ensures Update(visit, pods, parallelism, inFlight, at).acted == []
  {
    if pods != [] && inFlight < parallelism {
      var rest := pods[1..];
      forall i, k: nat | 0 <= i < |rest|
        ensures visit(rest[i], k) == Idle(rest[i])
      {
        assert rest[i] == pods[i + 1];
      }
      assert visit(pods[0], at) == Idle(pods[0]);
      IdleVisitsCallNothing(visit, rest, parallelism, inFlight, at);
    }
  }

  lemma {:induction false} ReadyPodIsIdle(cfg: Config, pod: W.Pod, t: W.Template, answers: Answers, at: nat)
    requires ReadyAndObserved(cfg, pod, t)
    ensures VisitPod(cfg, pod, t, answers, at) == Idle(pod)
  {
  }

  /** Nor does a ReplicaSet pass over Pods that have all settled call the API about any of them. */
  lemma {:induction false} ReadyPodsAreLeftAlone(cfg: Config, pods: seq<W.Pod>, t: W.Template, parallelism: int,
                                                 answers: Answers, at: nat)
    requires forall i :: 0 <= i < |pods| ==> M.Settled(cfg, pods[i], t)
    ensures UpdatePass(cfg, pods, t, parallelism, answers, at).log == []
    ensures UpdatePass(cfg, pods, t, parallelism, answers, at).acted == []
  {
    var oldest := Sorting.StableSort(pods, InPlace.Created);
    Sorting.StableSortSorts(pods, InPlace.Created);
    var visit := VisitIn(cfg, t, answers);
    forall i, k: nat | 0 <= i < |oldest|
      ensures visit(oldest[i], k) == Idle(oldest[i])
    {
      assert oldest[i] in multiset(oldest);
      assert oldest[i] in pods;
      M.ReadyAndObservedMeans(cfg, oldest[i], t);
      ReadyPodIsIdle(cfg, oldest[i], t, answers, k);
    }
    IdleVisitsCallNothing(visit, oldest, parallelism, Count(pods, InFlightIn(cfg, t)), at);
  }
}
