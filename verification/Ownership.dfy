/**
 Claiming Pods: several ReplicaSet controllers read Pods and later adopt or release them by merge patches
 that replace the owner list whole (section 2 of RFC 7396) and are guarded by the resource version read.
 */
module Ownership {
  import opened Results

  datatype OwnerRef = OwnerRef(group: string, kind: string, name: string, uid: nat, controller: bool)

  /** version is the resource version; key is the namespaced name. */
  datatype OwnedPod = OwnedPod(key: string, version: nat, labels: map<string, string>, owners: seq<OwnerRef>)

  /** A ReplicaSet as one reconcile sees it. */
  datatype Workload = Workload(group: string, kind: string, name: string, uid: nat, deleting: bool,
                               selects: map<string, string> -> bool)

  /* ----- Owner references ----- */

  /** The controller is the first reference marked so. */
  function ControllerOf(owners: seq<OwnerRef>): Option<OwnerRef> {
    if owners == [] then None
    else if owners[0].controller then Some(owners[0])
    else ControllerOf(owners[1..])
  }

  predicate IsControlledBy(pod: OwnedPod, w: Workload) {
    var c := ControllerOf(pod.owners);
    c.Some? && c.value.uid == w.uid
  }

  function Controllers(owners: seq<OwnerRef>): (n: nat)
    ensures n == 0 <==> ControllerOf(owners).None?
  {
    if owners == [] then 0 else (if owners[0].controller then 1 else 0) + Controllers(owners[1..])
  }

  /** What a release removes. */
  predicate IsOwn(ref: OwnerRef, w: Workload) { ref.controller && ref.uid == w.uid }

  function WithoutOwn(owners: seq<OwnerRef>, w: Workload): seq<OwnerRef> {
    if owners == [] then []
    else if IsOwn(owners[0], w) then WithoutOwn(owners[1..], w)
    else [owners[0]] + WithoutOwn(owners[1..], w)
  }

  /** The upstream helper takes references of the same group, kind and name to mean the same owner. */
  predicate SameObject(ref: OwnerRef, w: Workload) {
    ref.group == w.group && ref.kind == w.kind && ref.name == w.name
  }

  function ReferenceTo(w: Workload): OwnerRef {
    OwnerRef(w.group, w.kind, w.name, w.uid, true)
  }

  /** The reference replaces the first one to the same owner, or is appended. */
  function Upsert(owners: seq<OwnerRef>, w: Workload): seq<OwnerRef> {
    if owners == [] then [ReferenceTo(w)]
    else if SameObject(owners[0], w) then [ReferenceTo(w)] + owners[1..]
    else [owners[0]] + Upsert(owners[1..], w)
  }

  /** The reference at i is the first one marked as the controller. */
  ghost predicate FirstController(owners: seq<OwnerRef>, i: nat) {
    i < |owners| && owners[i].controller && forall j :: 0 <= j < i ==> !owners[j].controller
  }

  lemma {:induction false} ControllerIs(owners: seq<OwnerRef>)
    ensures ControllerOf(owners).None? <==> forall i :: 0 <= i < |owners| ==> !owners[i].controller
    ensures forall i: nat :: FirstController(owners, i) ==> ControllerOf(owners) == Some(owners[i])
    ensures ControllerOf(owners).Some? ==> exists i: nat :: FirstController(owners, i)
  {
    if owners != [] {
      ControllerIs(owners[1..]);
      forall i: nat | FirstController(owners, i)
        ensures ControllerOf(owners) == Some(owners[i])
      {
        if i > 0 {
          assert !owners[0].controller && owners[1..][i - 1] == owners[i];
          assert forall j :: 0 <= j < i - 1 ==> owners[1..][j] == owners[j + 1];
          assert FirstController(owners[1..], i - 1);
        }
      }
      if owners[0].controller {
        assert FirstController(owners, 0);
      } else if ControllerOf(owners).Some? {
        var i: nat :| FirstController(owners[1..], i);
        assert forall j :: 0 < j < i + 1 ==> owners[j] == owners[1..][j - 1];
        assert FirstController(owners, i + 1);
      } else {
        assert forall i :: 0 < i < |owners| ==> owners[i] == owners[1..][i - 1];
      }
    }
  }

  /** Few controllers means that no two references are marked. */
  lemma {:induction false} ControllersAreFew(owners: seq<OwnerRef>)
    ensures Controllers(owners) <= 1 <==> forall i, j :: 0 <= i < j < |owners| ==> !(owners[i].controller && owners[j].controller)
  {
    if owners != [] {
      ControllersAreFew(owners[1..]);
      ControllerIs(owners[1..]);
      if forall i, j :: 0 <= i < j < |owners| ==> !(owners[i].controller && owners[j].controller) {
        forall i, j | 0 <= i < j < |owners[1..]|
          ensures !(owners[1..][i].controller && owners[1..][j].controller)
        {
          assert !(owners[i + 1].controller && owners[j + 1].controller);
        }
        forall j | 0 <= j < |owners[1..]| && owners[0].controller
          ensures !owners[1..][j].controller
        {
          assert !(owners[0].controller && owners[j + 1].controller);
        }
      } else {
        assert forall i :: 0 < i < |owners| ==> owners[i] == owners[1..][i - 1];
      }
    }
  }

  /** A release removes exactly the ReplicaSet's own controller references; every other reference stays, also
      one to an earlier object of the same name. */
  lemma {:induction false} RemovesOnlyOwn(owners: seq<OwnerRef>, w: Workload, ref: OwnerRef)
    ensures multiset(WithoutOwn(owners, w))[ref] == if ref.controller && ref.uid == w.uid then 0 else multiset(owners)[ref]
  {
    if owners != [] {
      RemovesOnlyOwn(owners[1..], w, ref);
      assert owners == [owners[0]] + owners[1..];
    }
  }

  /** The list without the reference at i, the others in order. */
  function WithoutAt(owners: seq<OwnerRef>, i: nat): seq<OwnerRef>
    requires i < |owners|
  {
    owners[..i] + owners[i + 1..]
  }

  /** With at most one controller the one reference a release removes is taken out of its place, and none is left. */
  lemma {:induction false} WithoutOwnKeeps(owners: seq<OwnerRef>, w: Workload)
    ensures forall ref ::
      multiset(WithoutOwn(owners, w))[ref] == if ref.controller && ref.uid == w.uid then 0 else multiset(owners)[ref]
    ensures forall i: nat :: FirstController(owners, i) && owners[i].uid == w.uid && Controllers(owners) <= 1 ==>
      WithoutOwn(owners, w) == WithoutAt(owners, i) && Controllers(WithoutAt(owners, i)) == 0
  {
    forall ref {
      RemovesOnlyOwn(owners, w, ref);
    }
    forall i: nat | FirstController(owners, i) && owners[i].uid == w.uid && Controllers(owners) <= 1
      ensures WithoutOwn(owners, w) == WithoutAt(owners, i) && Controllers(WithoutAt(owners, i)) == 0
    {
      OwnIsTakenOut(owners, w, i);
    }
  }

  lemma {:induction false} OwnIsTakenOut(owners: seq<OwnerRef>, w: Workload, i: nat)
    requires FirstController(owners, i) && owners[i].uid == w.uid && Controllers(owners) <= 1
    ensures WithoutOwn(owners, w) == WithoutAt(owners, i) && Controllers(WithoutAt(owners, i)) == 0
  {
    if i == 0 {
      WithoutNone(owners[1..], w);
      assert WithoutAt(owners, 0) == owners[1..];
    } else {
      ControllerBehind(owners, i);
      OwnIsTakenOut(owners[1..], w, i - 1);
    }
  }

  /** With a reference in front that is not marked. */
  lemma {:induction false} ControllerBehind(owners: seq<OwnerRef>, i: nat)
    requires FirstController(owners, i) && i > 0
    ensures !owners[0].controller && FirstController(owners[1..], i - 1) && owners[1..][i - 1] == owners[i]
    ensures WithoutAt(owners, i) == [owners[0]] + WithoutAt(owners[1..], i - 1)
    ensures Controllers(WithoutAt(owners, i)) == Controllers(WithoutAt(owners[1..], i - 1))
  {
    var rest := owners[1..];
    assert rest[i - 1] == owners[i] && forall j :: 0 <= j < i - 1 ==> rest[j] == owners[j + 1];
    assert rest[..i - 1] == owners[1..i] && rest[i..] == owners[i + 1..];
    assert WithoutAt(owners, i) == [owners[0]] + WithoutAt(rest, i - 1);
    assert WithoutAt(owners, i)[1..] == WithoutAt(rest, i - 1);
  }

  lemma {:induction false} WithoutNone(owners: seq<OwnerRef>, w: Workload)
    requires Controllers(owners) == 0
    ensures WithoutOwn(owners, w) == owners
  {
    if owners != [] {
      WithoutNone(owners[1..], w);
    }
  }

  /** The reference at i is the first of the ReplicaSet's group, kind and name. */
  ghost predicate FirstNamesake(owners: seq<OwnerRef>, w: Workload, i: nat) {
    && i < |owners| && owners[i].group == w.group && owners[i].kind == w.kind && owners[i].name == w.name
    && forall j :: 0 <= j < i ==> !(owners[j].group == w.group && owners[j].kind == w.kind && owners[j].name == w.name)
  }

  /** An adoption makes the ReplicaSet the controller by one reference, in place of the first one to an owner of its
      group, kind and name, or at the end; every other reference stays where it was. */
  ghost predicate Adopted(was: seq<OwnerRef>, now: seq<OwnerRef>, w: Workload) {
    var ref := OwnerRef(w.group, w.kind, w.name, w.uid, true);
    && (forall i: nat :: FirstNamesake(was, w, i) ==> now == was[i := ref])
    && ((forall i: nat :: !FirstNamesake(was, w, i)) ==> now == was + [ref])
  }

  lemma {:induction false} UpsertKeeps(owners: seq<OwnerRef>, w: Workload)
    requires ControllerOf(owners).None?
    ensures Adopted(owners, Upsert(owners, w), w)
    ensures Controllers(Upsert(owners, w)) == 1
    ensures ControllerOf(Upsert(owners, w)) == Some(OwnerRef(w.group, w.kind, w.name, w.uid, true))
  {
    if owners == [] {
      assert [ReferenceTo(w)][1..] == [];
    } else if SameObject(owners[0], w) {
      assert ([ReferenceTo(w)] + owners[1..])[1..] == owners[1..];
      assert FirstNamesake(owners, w, 0);
    } else {
      UpsertKeeps(owners[1..], w);
      assert ([owners[0]] + Upsert(owners[1..], w))[1..] == Upsert(owners[1..], w);
      AdoptedBehind(owners, Upsert(owners[1..], w), w);
    }
  }

  lemma {:induction false} AdoptedBehind(owners: seq<OwnerRef>, rest: seq<OwnerRef>, w: Workload)
    requires owners != [] && !SameObject(owners[0], w) && Adopted(owners[1..], rest, w)
    ensures Adopted(owners, [owners[0]] + rest, w)
  {
    var tail := owners[1..];
    forall i: nat | FirstNamesake(owners, w, i)
      ensures i > 0 && FirstNamesake(tail, w, i - 1)
    {
      assert forall j :: 0 <= j < i - 1 ==> tail[j] == owners[j + 1];
    }
    forall i: nat | FirstNamesake(tail, w, i)
      ensures FirstNamesake(owners, w, i + 1)
    {
      assert forall j :: 0 < j < i + 1 ==> owners[j] == tail[j - 1];
    }
  }

  /* ----- What a reconcile decides about one Pod ----- */

  datatype Claim = Release | Take | Skip | Adopt

  function ClaimOf(w: Workload, pod: OwnedPod): Claim {
    var controlled, matches := IsControlledBy(pod, w), w.selects(pod.labels);
    if controlled && !matches then Release
    else if controlled then Take
    else if !matches || ControllerOf(pod.owners).Some? || w.deleting then Skip
    else Adopt
  }

  /** The ReplicaSet's own uid is on the Pod's controller reference. */
  ghost predicate Owned(w: Workload, pod: OwnedPod) {
    exists i: nat :: FirstController(pod.owners, i) && pod.owners[i].uid == w.uid
  }

  /** What becomes of a Pod: an owned one is released or taken as its labels are selected or not; one that no
      reference controls is adopted when they are and the ReplicaSet is not being deleted; any other is skipped. */
  lemma {:induction false} ClaimsExactly(w: Workload, pod: OwnedPod)
    ensures ClaimOf(w, pod) ==
      if Owned(w, pod) then if w.selects(pod.labels) then Take else Release
      else if (forall i :: 0 <= i < |pod.owners| ==> !pod.owners[i].controller) && w.selects(pod.labels) && !w.deleting then Adopt
      else Skip
  {
    ControllerIs(pod.owners);
    if i: nat :| FirstController(pod.owners, i) {
      assert ControllerOf(pod.owners) == Some(pod.owners[i]);
    }
  }

  predicate Acts(w: Workload, pod: OwnedPod) { ClaimOf(w, pod).Release? || ClaimOf(w, pod).Adopt? }

  /** The owner list an acting claim writes. */
  function Rewritten(w: Workload, pod: OwnedPod): seq<OwnerRef> {
    if ClaimOf(w, pod).Release? then WithoutOwn(pod.owners, w) else Upsert(pod.owners, w)
  }

  /* ----- The API server ----- */

  type Live = map<string, OwnedPod>

  /** A guarded patch is accepted exactly when the Pod still has the version that was read. */
  predicate Accepts(live: Live, read: OwnedPod) {
    read.key in live && live[read.key].version == read.version
  }

  function Patched(live: Live, next: nat, read: OwnedPod, owners: seq<OwnerRef>): Live {
    if Accepts(live, read) then live[read.key := live[read.key].(owners := owners, version := next)] else live
  }

  class Server {
    var live: Live
    var next: nat

    constructor (live: Live, next: nat)
      ensures this.live == live && this.next == next
    {
      this.live, this.next := live, next;
    }

    method PatchOwners(read: OwnedPod, owners: seq<OwnerRef>) returns (ok: bool)
      modifies this
      ensures ok == Accepts(old(live), read)
      ensures live == Patched(old(live), old(next), read, owners)
      ensures next == if ok then old(next) + 1 else old(next)
    {
      if read.key !in live || live[read.key].version != read.version {
        return false;
      }
      live := live[read.key := live[read.key].(owners := owners, version := next)];
      next := next + 1;
      return true;
    }
  }

  /** The position of the first candidate the reconcile acts on, or |pods|. */
  function FirstActing(w: Workload, pods: seq<OwnedPod>): (r: nat)
    ensures r <= |pods| && (r < |pods| ==> Acts(w, pods[r]))
    ensures forall k :: 0 <= k < r ==> !Acts(w, pods[k])
  {
    if pods == [] then 0 else if Acts(w, pods[0]) then 0 else 1 + FirstActing(w, pods[1..])
  }

  function Taken(w: Workload, pods: seq<OwnedPod>): seq<OwnedPod> {
    if pods == [] then []
    else Taken(w, pods[..|pods| - 1]) + if ClaimOf(w, pods[|pods| - 1]).Take? then [pods[|pods| - 1]] else []
  }

  /** The recheck before an adoption: the ReplicaSet still exists, under the same identity, undeleted. */
  predicate CanAdopt(w: Workload, recheck: Option<Workload>) {
    recheck.Some? && recheck.value.uid == w.uid && !recheck.value.deleting
  }

  /** Claims the candidates in order: the first release or adoption is patched and ends the call; without one
      the controlled, selected Pods are returned. */
  method ClaimPods(server: Server, w: Workload, recheck: Option<Workload>, pods: seq<OwnedPod>)
    returns (r: Result<bool>, claimed: seq<OwnedPod>)
    modifies server
    ensures var i := FirstActing(w, pods);
      && (i == |pods| ==>
          r == Ok(false) && claimed == Taken(w, pods) && server.live == old(server.live) && server.next == old(server.next))
      && (i < |pods| && ClaimOf(w, pods[i]).Adopt? && !CanAdopt(w, recheck) ==>
          r.Err? && server.live == old(server.live) && server.next == old(server.next))
      && (i < |pods| && (ClaimOf(w, pods[i]).Release? || CanAdopt(w, recheck)) ==>
          && server.live == Patched(old(server.live), old(server.next), pods[i], Rewritten(w, pods[i]))
          && if Accepts(old(server.live), pods[i]) then r == Ok(true) else r.Err?)
      && (i < |pods| && ClaimOf(w, pods[i]).Adopt? && server.live != old(server.live) ==>
          recheck.Some? && recheck.value.uid == w.uid && !recheck.value.deleting)
  {
    claimed := [];
    for i := 0 to |pods|
      invariant forall k :: 0 <= k < i ==> !Acts(w, pods[k])
      invariant claimed == Taken(w, pods[..i])
      invariant server.live == old(server.live) && server.next == old(server.next)
    {
      var pod := pods[i];
      assert pods[..i + 1][..i] == pods[..i];
      var controlled, matches := IsControlledBy(pod, w), w.selects(pod.labels);
      if controlled && !matches {
        FirstActingIs(w, pods, i);
        var ok := server.PatchOwners(pod, WithoutOwn(pod.owners, w));
        return if ok then Ok(true) else Err("release Pod"), [];
      } else if controlled && matches {
        claimed := claimed + [pod];
      } else if !matches || ControllerOf(pod.owners).Some? || w.deleting {
        continue;
      } else {
        FirstActingIs(w, pods, i);
        if !CanAdopt(w, recheck) {
          return Err("recheck ReplicaSet before adoption"), [];
        }
        var ok := server.PatchOwners(pod, Upsert(pod.owners, w));
        return if ok then Ok(true) else Err("adopt Pod"), [];
      }
    }
    FirstActingIs(w, pods, |pods|);
    assert pods[..|pods|] == pods;
    return Ok(false), claimed;
  }

  lemma {:induction false} FirstActingIs(w: Workload, pods: seq<OwnedPod>, i: nat)
    requires i <= |pods| && (i < |pods| ==> Acts(w, pods[i]))
    requires forall k :: 0 <= k < i ==> !Acts(w, pods[k])
    ensures FirstActing(w, pods) == i
  {
  }

  /* ----- Racing controllers ----- */

  /** A Pod some ReplicaSet's reconcile has read, and may still act on once it is cleared to, if it has to be. */
  datatype Held = Held(w: Workload, pod: OwnedPod, cleared: bool)

  /** sets holds the ReplicaSets by name, as they are. */
  datatype World = World(live: Live, next: nat, sets: map<string, Workload>, held: seq<Held>)

  datatype Event =
    | Read(w: Workload, key: string)                                           // by any copy of a ReplicaSet
    | Recheck(k: nat)                                                          // the k-th reader asks again
    | Patch(k: nat)                                                            // the k-th reader acts
    | Replace(w: Workload)                                                     // a ReplicaSet is made or changed
    | Remove(name: string)
    | Edit(key: string, labels: map<string, string>, owners: seq<OwnerRef>)    // by anyone else
    | Create(key: string, labels: map<string, string>, owners: seq<OwnerRef>)
    | Delete(key: string)

  /** The API server itself admits at most one controller. */
  predicate Enabled(s: World, e: Event) {
    match e
    case Read(_, key) => key in s.live
    case Recheck(k) => k < |s.held| && ClaimOf(s.held[k].w, s.held[k].pod).Adopt?
    case Patch(k) =>
      && k < |s.held| && Acts(s.held[k].w, s.held[k].pod)
      && (ClaimOf(s.held[k].w, s.held[k].pod).Adopt? ==> s.held[k].cleared)
    case Replace(_) => true
    case Remove(name) => name in s.sets
    case Edit(key, _, owners) => key in s.live && Controllers(owners) <= 1
    case Create(key, _, owners) => key !in s.live && Controllers(owners) <= 1
    case Delete(key) => key in s.live
  }

  /** What the API server answers a recheck: the ReplicaSet that has the name now, if any. */
  function FreshCopy(s: World, w: Workload): Option<Workload> {
    if w.name in s.sets then Some(s.sets[w.name]) else None
  }

  function Next(s: World, e: Event): World
    requires Enabled(s, e)
  {
    match e
    case Read(w, key) => s.(held := s.held + [Held(w, s.live[key], false)])
    case Recheck(k) => s.(held := s.held[k := s.held[k].(cleared := CanAdopt(s.held[k].w, FreshCopy(s, s.held[k].w)))])
    case Replace(w) => s.(sets := s.sets[w.name := w])
    case Remove(name) => s.(sets := s.sets - {name})
    case Patch(k) =>
      var h := s.held[k];
      s.(live := Patched(s.live, s.next, h.pod, Rewritten(h.w, h.pod)), next := s.next + 1)
    case Edit(key, labels, owners) =>
      s.(live := s.live[key := OwnedPod(key, s.next, labels, owners)], next := s.next + 1)
    case Create(key, labels, owners) =>
      s.(live := s.live[key := OwnedPod(key, s.next, labels, owners)], next := s.next + 1)
    case Delete(key) => s.(live := s.live - {key})
  }

  ghost predicate LiveOk(live: Live, next: nat) {
    forall key :: key in live ==>
      live[key].key == key && live[key].version < next && Controllers(live[key].owners) <= 1
  }

  /** A version identifies a state of a Pod: what was read is what is live, or the version has moved on. */
  ghost predicate ReadOk(live: Live, next: nat, pod: OwnedPod) {
    && pod.version < next
    && (Accepts(live, pod) ==> live[pod.key] == pod)
  }

  ghost predicate Sound(s: World) {
    LiveOk(s.live, s.next) && forall k :: 0 <= k < |s.held| ==> ReadOk(s.live, s.next, s.held[k].pod)
  }

  /** What one accepted patch does to a Pod: never to one controlled by another; a release takes the ReplicaSet's
      controller reference out of the list and an adoption puts one in, every other reference staying in its place;
      the adopter is then the one controller, and after a release there is none; nothing else changes. */
  ghost predicate Respects(w: Workload, was: OwnedPod, now: OwnedPod) {
    && now == was.(owners := now.owners, version := now.version)
    && if w.selects(was.labels) then
         && (forall i :: 0 <= i < |was.owners| ==> !was.owners[i].controller) && !w.deleting
         && Adopted(was.owners, now.owners, w) && Controllers(now.owners) == 1
         && ControllerOf(now.owners) == Some(OwnerRef(w.group, w.kind, w.name, w.uid, true))
       else
         exists i: nat ::
           && FirstController(was.owners, i) && was.owners[i].uid == w.uid
           && now.owners == WithoutAt(was.owners, i) && Controllers(now.owners) == 0
  }

  lemma {:induction false} RewritingRespects(w: Workload, pod: OwnedPod, version: nat)
    requires Acts(w, pod) && Controllers(pod.owners) <= 1
    ensures Respects(w, pod, pod.(owners := Rewritten(w, pod), version := version))
  {
    ClaimsExactly(w, pod);
    if ClaimOf(w, pod).Release? {
      WithoutOwnKeeps(pod.owners, w);
    } else {
      ControllerIs(pod.owners);
      UpsertKeeps(pod.owners, w);
    }
  }

  lemma {:induction false} PatchRespects(s: World, k: nat)
    requires Sound(s) && Enabled(s, Patch(k))
    ensures var live', h := Next(s, Patch(k)).live, s.held[k];
      && live'.Keys == s.live.Keys
      && (forall key :: key in s.live && key != h.pod.key ==> live'[key] == s.live[key])
      && (Accepts(s.live, h.pod) ==> s.live[h.pod.key] == h.pod && Respects(h.w, h.pod, live'[h.pod.key]))
      && (!Accepts(s.live, h.pod) ==> live' == s.live)
  {
    var h := s.held[k];
    assert ReadOk(s.live, s.next, h.pod);
    if Accepts(s.live, h.pod) {
      RewritingRespects(h.w, h.pod, s.next);
    }
  }

  /** A Pod that carries a version handed out only now, or no Pod, keeps every earlier reading sound. */
  lemma {:induction false} FreshVersionKeepsReading(live: Live, next: nat, pod: OwnedPod, changed: OwnedPod)
    requires ReadOk(live, next, pod) && changed.version == next
    ensures ReadOk(live[changed.key := changed], next + 1, pod)
    ensures forall key :: ReadOk(live - {key}, next, pod)
    ensures ReadOk(live, next + 1, pod)
  {
  }

  /** Every event keeps an earlier reading sound. */
  lemma {:induction false} ReadingStaysOk(s: World, e: Event, pod: OwnedPod)
    requires Sound(s) && Enabled(s, e) && ReadOk(s.live, s.next, pod)
    ensures ReadOk(Next(s, e).live, Next(s, e).next, pod)
  {
    var t := Next(s, e);
    match e {
      case Patch(j) =>
        var read := s.held[j].pod;
        if Accepts(s.live, read) {
          PatchRespects(s, j);
          FreshVersionKeepsReading(s.live, s.next, pod, t.live[read.key]);
        }
      case Edit(key, _, _) => FreshVersionKeepsReading(s.live, s.next, pod, t.live[key]);
      case Create(key, _, _) => FreshVersionKeepsReading(s.live, s.next, pod, t.live[key]);
      case _ =>
    }
  }

  lemma {:induction false} LiveStaysOk(s: World, e: Event)
    requires Sound(s) && Enabled(s, e)
    ensures LiveOk(Next(s, e).live, Next(s, e).next)
  {
    if e.Patch? {
      PatchRespects(s, e.k);
    }
  }

  lemma {:induction false} StepStaysSound(s: World, e: Event)
    requires Sound(s) && Enabled(s, e)
    ensures Sound(Next(s, e))
  {
    var t := Next(s, e);
    LiveStaysOk(s, e);
    forall k | 0 <= k < |t.held|
      ensures ReadOk(t.live, t.next, t.held[k].pod)
    {
      if k < |s.held| {
        ReadingStaysOk(s, e, s.held[k].pod);
      }
    }
  }

  ghost predicate Possible(s: World, events: seq<Event>)
    decreases |events|
  {
    |events| == 0 || (Enabled(s, events[0]) && Possible(Next(s, events[0]), events[1..]))
  }

  ghost function After(s: World, events: seq<Event>): World
    requires Possible(s, events)
    decreases |events|
  {
    if |events| == 0 then s else After(Next(s, events[0]), events[1..])
  }

  /** In every reachable state each Pod has at most one controller, and every reading still to be acted on
      is either current or will be refused. */
  lemma {:induction false} OwnershipStaysSound(s: World, events: seq<Event>)
    requires Sound(s) && Possible(s, events)
    ensures Sound(After(s, events))
    decreases |events|
  {
    if |events| > 0 {
      StepStaysSound(s, events[0]);
      OwnershipStaysSound(Next(s, events[0]), events[1..]);
    }
  }

  /** No two references of a Pod are ever marked as the controller. */
  lemma {:induction false} OneControllerPerPod(s: World, events: seq<Event>, key: string, i: nat, j: nat)
    requires Sound(s) && Possible(s, events) && key in After(s, events).live && i < j < |After(s, events).live[key].owners|
    ensures var owners := After(s, events).live[key].owners; !(owners[i].controller && owners[j].controller)
  {
    OwnershipStaysSound(s, events);
    ControllersAreFew(After(s, events).live[key].owners);
  }

  /** In any run, whatever a reconcile read and however long ago, its patch respects the Pod: the theorem
      for the step that follows the run. */
  lemma {:induction false} EveryPatchRespects(s: World, events: seq<Event>, k: nat)
    requires Sound(s) && Possible(s, events) && Enabled(After(s, events), Patch(k))
    ensures var t := After(s, events);
            var h := t.held[k];
      Accepts(t.live, h.pod) ==> Respects(h.w, t.live[h.pod.key], Next(t, Patch(k)).live[h.pod.key])
  {
    OwnershipStaysSound(s, events);
    PatchRespects(After(s, events), k);
  }

  /* ----- The recheck ----- */

  /** The ReplicaSet exists, is the same object and is not being deleted. */
  predicate StillThere(s: World, w: Workload) {
    w.name in s.sets && s.sets[w.name].uid == w.uid && !s.sets[w.name].deleting
  }

  /** Somewhere in the run the k-th reader asked again and its ReplicaSet was still there. */
  ghost predicate RecheckedIn(s: World, events: seq<Event>, k: nat)
    requires Possible(s, events)
    decreases |events|
  {
    |events| > 0 &&
    (|| (events[0] == Recheck(k) && StillThere(s, s.held[k].w))
     || RecheckedIn(Next(s, events[0]), events[1..], k))
  }

  /** A recheck clears its reader exactly when the ReplicaSet is still there; no other event clears any. */
  lemma {:induction false} RecheckClears(s: World, e: Event, k: nat)
    requires Enabled(s, e) && k < |Next(s, e).held|
    ensures e == Recheck(k) ==> (Next(s, e).held[k].cleared <==> StillThere(s, s.held[k].w))
    ensures e != Recheck(k) ==> Next(s, e).held[k].cleared == (k < |s.held| && s.held[k].cleared)
    ensures k < |s.held| ==> Next(s, e).held[k].w == s.held[k].w && Next(s, e).held[k].pod == s.held[k].pod
  {
  }

  /** An adoption is never sent for a ReplicaSet that was deleted or replaced when it was rechecked: in any run that
      starts with nobody cleared, a reader who may adopt asked again after it read, and its ReplicaSet was there. */
  lemma {:induction false} AdoptionWasRechecked(s: World, events: seq<Event>, k: nat)
    requires Possible(s, events) && forall i :: 0 <= i < |s.held| ==> !s.held[i].cleared
    requires Enabled(After(s, events), Patch(k)) && !Owned(After(s, events).held[k].w, After(s, events).held[k].pod)
    ensures RecheckedIn(s, events, k)
  {
    var h := After(s, events).held[k];
    ClaimsExactly(h.w, h.pod);
    ClearedWasRechecked(s, events, k);
  }

  lemma {:induction false} ClearedWasRechecked(s: World, events: seq<Event>, k: nat)
    requires Possible(s, events) && k < |After(s, events).held| && After(s, events).held[k].cleared
    ensures (k < |s.held| && s.held[k].cleared) || RecheckedIn(s, events, k)
    decreases |events|
  {
    if |events| > 0 {
      var next := Next(s, events[0]);
      ClearedWasRechecked(next, events[1..], k);
      if k < |next.held| {
        RecheckClears(s, events[0], k);
      }
    }
  }

  /** The event is not another actor's write to the Pod, and not its own controller releasing it. */
  predicate LeavesToReplicaSets(s: World, e: Event, key: string, uid: nat) {
    match e
    case Read(_, _) => true
    case Recheck(_) => true
    case Replace(_) => true
    case Remove(_) => true
    case Patch(k) => k < |s.held| && s.held[k].w.uid != uid
    case Edit(k, _, _) => k != key
    case Create(k, _, _) => k != key
    case Delete(k) => k != key
  }

  ghost predicate OthersOnly(s: World, events: seq<Event>, key: string, uid: nat)
    requires Possible(s, events)
    decreases |events|
  {
    |events| == 0 ||
    (LeavesToReplicaSets(s, events[0], key, uid) && OthersOnly(Next(s, events[0]), events[1..], key, uid))
  }

  /** A controlled Pod is never modified, let alone taken over, by the claims of other ReplicaSets. */
  lemma {:induction false} ControlledPodIsLeftAlone(s: World, events: seq<Event>, key: string, ref: OwnerRef)
    requires Sound(s) && Possible(s, events) && key in s.live && ControllerOf(s.live[key].owners) == Some(ref)
    requires OthersOnly(s, events, key, ref.uid)
    ensures key in After(s, events).live && After(s, events).live[key] == s.live[key]
    decreases |events|
  {
    if |events| > 0 {
      StepStaysSound(s, events[0]);
      if events[0].Patch? {
        PatchRespects(s, events[0].k);
      }
      ControlledPodIsLeftAlone(Next(s, events[0]), events[1..], key, ref);
    }
  }

  /** Of two reconciles that read the same state of a Pod only the first to patch it succeeds. */
  lemma {:induction false} OneRacerWins(s: World, i: nat, j: nat)
    requires Sound(s) && i < |s.held| && j < |s.held| && s.held[i].pod == s.held[j].pod
    requires Enabled(s, Patch(i)) && Accepts(s.live, s.held[i].pod) && Enabled(s, Patch(j))
    ensures Next(Next(s, Patch(i)), Patch(j)).live == Next(s, Patch(i)).live != s.live
  {
    var pod := s.held[i].pod;
    assert ReadOk(s.live, s.next, pod);
    assert Next(s, Patch(i)).live[pod.key].version == s.next;
  }
}
