/**
 Which Pods a ReplicaSet looks at: the whole namespace, or the live Pods its selector matches together with
 those a cached index says it controls, each read live again. The two agree on every claim.
 */
module Candidates {
  import opened ManagedKeys
  import opened Ownership

  /* ----- Specification ----- */

  function Selected(live: Live, w: Workload): set<string> {
    set key | key in live && w.selects(live[key].labels)
  }

  function KeysOf(pods: seq<OwnedPod>): set<string> {
    set pod | pod in pods :: pod.key
  }

  /** The Pods of the keys, ascending by key. */
  function Listing(live: Live, keys: set<string>): (r: seq<OwnedPod>)
    requires keys <= live.Keys
    ensures |r| == |keys|
  {
    Lift(live, Sorted(keys))
  }

  function Lift(live: Live, keys: seq<string>): (r: seq<OwnedPod>)
    requires forall k :: k in keys ==> k in live
    ensures |r| == |keys| && forall i :: 0 <= i < |keys| ==> r[i] == live[keys[i]]
  {
    seq(|keys|, i requires 0 <= i < |keys| => live[keys[i]])
  }

  /** A listing has each key once, in ascending order, with the live Pod. */
  lemma {:induction false} ListingIsSorted(live: Live, keys: set<string>)
    requires keys <= live.Keys && forall key :: key in live ==> live[key].key == key
    ensures var r := Listing(live, keys);
      && (forall i, j :: 0 <= i < j < |r| ==> Before(r[i].key, r[j].key))
      && forall pod :: pod in r <==> pod.key in keys && pod == live[pod.key]
  {
    var ks, r := Sorted(keys), Listing(live, keys);
    SortedIsStrict(keys);
    forall i, j | 0 <= i < j < |r|
      ensures Before(r[i].key, r[j].key)
    {
      assert ks[i] in keys && ks[j] in keys;
      OrderIsLexical(ks[i], ks[j]);
    }
    forall pod
      ensures pod in r <==> pod.key in keys && pod == live[pod.key]
    {
      if pod in r {
        var i :| 0 <= i < |r| && r[i] == pod;
        assert ks[i] in ks;
      }
      if pod.key in keys && pod == live[pod.key] {
        assert pod.key in ks;
        var i :| 0 <= i < |ks| && ks[i] == pod.key;
        assert r[i] == pod;
      }
    }
  }

  lemma {:induction false} SortedIsStrict(keys: set<string>)
    ensures forall i, j :: 0 <= i < j < |Sorted(keys)| ==> Sorted(keys)[i] != Sorted(keys)[j]
    decreases |keys|
  {
    if keys != {} {
      SortedIsStrict(keys - {Least(keys)});
      var rest := Sorted(keys - {Least(keys)});
      forall j | 0 <= j < |rest|
        ensures rest[j] != Least(keys)
      {
        assert rest[j] in rest;
      }
    }
  }

  /** The keys the indexed path ends up with, whatever the cache holds. */
  function IndexedKeys(live: Live, w: Workload, cached: seq<OwnedPod>): (r: set<string>)
    ensures Selected(live, w) <= r <= live.Keys
  {
    Selected(live, w) + (KeysOf(cached) * live.Keys)
  }

  /** The live Pod of that key is selected by its labels, or the cache has a Pod of that key. */
  ghost predicate Found(live: Live, w: Workload, cached: seq<OwnedPod>, key: string) {
    key in live && (w.selects(live[key].labels) || exists i :: 0 <= i < |cached| && cached[i].key == key)
  }

  /** The listed Pods are the live ones that the selector matches. */
  ghost predicate Matching(live: Live, w: Workload, pods: seq<OwnedPod>) {
    forall pod :: pod in pods <==> pod.key in live && pod == live[pod.key] && w.selects(pod.labels)
  }

  lemma {:induction false} IndexedKeysAre(live: Live, w: Workload, cached: seq<OwnedPod>, key: string)
    ensures key in IndexedKeys(live, w, cached) <==> Found(live, w, cached, key)
  {
    if i: nat :| i < |cached| && cached[i].key == key {
      assert cached[i] in cached;
    }
  }

  /* ----- The loops ----- */

  /** Merges the matching Pods with the indexed ones, which are read live again unless already present and
      skipped when gone. */
  method MergeCandidates(live: Live, w: Workload, matching: seq<OwnedPod>, cached: seq<OwnedPod>)
    returns (candidates: map<string, OwnedPod>)
    requires forall key :: key in live ==> live[key].key == key
    requires Matching(live, w, matching)
    ensures candidates.Keys == IndexedKeys(live, w, cached)
    ensures forall key :: key in candidates <==> Found(live, w, cached, key)
    ensures forall key :: key in candidates ==> candidates[key] == live[key]
  {
    candidates := map[];
    for i := 0 to |matching|
      invariant candidates.Keys == KeysOf(matching[..i])
      invariant forall key :: key in candidates ==> key in live && candidates[key] == live[key]
    {
      assert matching[i] in matching;
      assert matching[..i + 1] == matching[..i] + [matching[i]];
      candidates := candidates[matching[i].key := matching[i]];
    }
    assert matching[..|matching|] == matching;
    MatchingKeys(live, w, matching);
    for i := 0 to |cached|
      invariant candidates.Keys == Selected(live, w) + (KeysOf(cached[..i]) * live.Keys)
      invariant forall key :: key in candidates ==> key in live && candidates[key] == live[key]
    {
      assert cached[..i + 1] == cached[..i] + [cached[i]];
      var key := cached[i].key;
      if key in candidates || key !in live {
        continue;
      }
      candidates := candidates[key := live[key]];
    }
    assert cached[..|cached|] == cached;
    forall key {
      IndexedKeysAre(live, w, cached, key);
    }
  }

  method ListInOrder(candidates: map<string, OwnedPod>, keys: seq<string>) returns (r: seq<OwnedPod>)
    requires forall k :: k in keys ==> k in candidates
    ensures r == Lift(candidates, keys)
  {
    r := [];
    for i := 0 to |keys|
      invariant r == Lift(candidates, keys)[..i]
    {
      r := r + [candidates[keys[i]]];
    }
  }

  /** The candidates, sorted by key: the merged ones with an index, and otherwise the whole namespace. */
  method PodCandidates(live: Live, w: Workload, indexed: bool, matching: seq<OwnedPod>, cached: seq<OwnedPod>)
    returns (r: seq<OwnedPod>)
    requires forall key :: key in live ==> live[key].key == key
    requires Matching(live, w, matching)
    ensures r == Listing(live, if indexed then IndexedKeys(live, w, cached) else live.Keys)
  {
    if !indexed {
      return Listing(live, live.Keys);
    }
    var candidates := MergeCandidates(live, w, matching, cached);
    r := ListInOrder(candidates, Sorted(candidates.Keys));
  }

  lemma {:induction false} MatchingKeys(live: Live, w: Workload, matching: seq<OwnedPod>)
    requires forall key :: key in live ==> live[key].key == key
    requires Matching(live, w, matching)
    ensures KeysOf(matching) == Selected(live, w)
  {
    forall key | key in Selected(live, w)
      ensures key in KeysOf(matching)
    {
      assert live[key] in matching;
    }
  }

  /* ----- Agreement ----- */

  function Filter(keys: seq<string>, p: string -> bool): (r: seq<string>)
    ensures forall k :: k in r <==> k in keys && p(k)
  {
    if keys == [] then []
    else (if p(keys[0]) then [keys[0]] else []) + Filter(keys[1..], p)
  }

  function Those(keys: set<string>, p: string -> bool): set<string> {
    set k | k in keys && p(k)
  }

  /** Filtering the sorted keys gives the sorted filtered keys. */
  lemma {:induction false} FilterSorted(keys: set<string>, p: string -> bool)
    ensures Filter(Sorted(keys), p) == Sorted(Those(keys, p))
    decreases |keys|
  {
    if keys != {} {
      var k := Least(keys);
      FilterSorted(keys - {k}, p);
      if p(k) {
        LeastOfSubset(keys, Those(keys, p));
        assert Those(keys, p) - {k} == Those(keys - {k}, p);
      } else {
        assert Those(keys, p) == Those(keys - {k}, p);
      }
    } else {
      assert Those(keys, p) == {};
    }
  }

  lemma {:induction false} LeastOfSubset(keys: set<string>, some: set<string>)
    requires some <= keys && keys != {} && Least(keys) in some
    ensures Least(some) == Least(keys)
  {
    AtMostAntisymmetric(Least(some), Least(keys));
  }

  /** Two key sets with the same members satisfying p list those in the same order. */
  lemma {:induction false} FiltersAgree(a: set<string>, b: set<string>, p: string -> bool)
    requires Those(a, p) == Those(b, p)
    ensures Filter(Sorted(a), p) == Filter(Sorted(b), p)
  {
    FilterSorted(a, p);
    FilterSorted(b, p);
  }

  function TakenIn(live: Live, w: Workload): string -> bool {
    (key: string) => key in live && ClaimOf(w, live[key]).Take?
  }

  function ActingIn(live: Live, w: Workload): string -> bool {
    (key: string) => key in live && Acts(w, live[key])
  }

  lemma {:induction false} LiftCons(live: Live, key: string, keys: seq<string>)
    requires key in live && forall k :: k in keys ==> k in live
    ensures Lift(live, [key] + keys) == [live[key]] + Lift(live, keys)
  {
  }

  lemma {:induction false} TakenIsFiltered(live: Live, w: Workload, keys: seq<string>)
    requires forall k :: k in keys ==> k in live
    ensures Taken(w, Lift(live, keys)) == Lift(live, Filter(keys, TakenIn(live, w)))
  {
    if keys != [] {
      var key, rest := keys[0], keys[1..];
      TakenIsFiltered(live, w, rest);
      TakenFromFront(w, Lift(live, keys));
      assert Lift(live, keys)[1..] == Lift(live, rest);
      LiftCons(live, key, Filter(rest, TakenIn(live, w)));
      assert TakenIn(live, w)(key) == ClaimOf(w, live[key]).Take?;
    }
  }

  lemma {:induction false} TakenFromFront(w: Workload, pods: seq<OwnedPod>)
    ensures pods != [] ==>
      Taken(w, pods) == (if ClaimOf(w, pods[0]).Take? then [pods[0]] else []) + Taken(w, pods[1..])
  {
    if |pods| > 1 {
      var last := |pods| - 1;
      TakenFromFront(w, pods[..last]);
      assert pods[..last][1..] == pods[1..][..last - 1];
    } else if |pods| == 1 {
      assert pods[..0] == [] && pods[1..] == [];
    }
  }

  /** The first acting Pod is the first of the filtered keys. */
  lemma {:induction false} FirstActingIsFiltered(live: Live, w: Workload, keys: seq<string>)
    requires forall k :: k in keys ==> k in live
    ensures var pods, acting := Lift(live, keys), Filter(keys, ActingIn(live, w));
      && (FirstActing(w, pods) == |pods| <==> acting == [])
      && (acting != [] ==> pods[FirstActing(w, pods)] == live[acting[0]])
  {
    if keys != [] {
      FirstActingIsFiltered(live, w, keys[1..]);
      assert Lift(live, keys)[1..] == Lift(live, keys[1..]);
    }
  }

  lemma {:induction false} LiftedMembers(live: Live, w: Workload, keys: seq<string>)
    requires forall key :: key in live ==> live[key].key == key
    requires forall k :: k in keys <==> k in live && ClaimOf(w, live[k]).Take?
    ensures forall pod :: pod in Lift(live, keys) <==>
      pod.key in live && pod == live[pod.key] && IsControlledBy(pod, w) && w.selects(pod.labels)
  {
    forall pod
      ensures pod in Lift(live, keys) <==>
        pod.key in live && pod == live[pod.key] && IsControlledBy(pod, w) && w.selects(pod.labels)
    {
      if pod in Lift(live, keys) {
        var i :| 0 <= i < |keys| && live[keys[i]] == pod;
        assert keys[i] in keys;
      }
      if pod.key in live && pod == live[pod.key] && IsControlledBy(pod, w) && w.selects(pod.labels) {
        assert ClaimOf(w, live[pod.key]).Take?;
        var i :| 0 <= i < |keys| && keys[i] == pod.key;
        assert Lift(live, keys)[i] == pod;
      }
    }
  }

  /** The keys p is about are among the indexed ones, so both paths list them alike. */
  lemma {:induction false} IndexedAgree(live: Live, w: Workload, cached: seq<OwnedPod>, p: string -> bool)
    requires forall k :: k in live && p(k) ==> k in Selected(live, w) || k in KeysOf(cached)
    ensures Filter(Sorted(IndexedKeys(live, w, cached)), p) == Filter(Sorted(live.Keys), p)
  {
    var keys := IndexedKeys(live, w, cached);
    forall k | k in live && p(k)
      ensures k in keys
    {
    }
    assert Those(keys, p) == Those(live.Keys, p);
    FiltersAgree(keys, live.Keys, p);
  }

  lemma {:induction false} TakenAgree(live: Live, w: Workload, a: seq<string>, b: seq<string>)
    requires forall key :: key in live ==> live[key].key == key
    requires (forall k :: k in a ==> k in live) && (forall k :: k in b <==> k in live)
    requires Filter(a, TakenIn(live, w)) == Filter(b, TakenIn(live, w))
    ensures Taken(w, Lift(live, a)) == Taken(w, Lift(live, b))
    ensures forall pod :: pod in Taken(w, Lift(live, b)) <==>
      pod.key in live && pod == live[pod.key] && IsControlledBy(pod, w) && w.selects(pod.labels)
  {
    TakenIsFiltered(live, w, a);
    TakenIsFiltered(live, w, b);
    LiftedMembers(live, w, Filter(b, TakenIn(live, w)));
  }

  /** Whatever the cache holds: when the indexed path finds nothing to change, it claims exactly the live
      Pods that are controlled and selected, in the order of the namespace-wide list. */
  lemma {:induction false} IndexedClaimsAgree(live: Live, w: Workload, cached: seq<OwnedPod>)
    requires forall key :: key in live ==> live[key].key == key
    ensures Taken(w, Listing(live, IndexedKeys(live, w, cached))) == Taken(w, Listing(live, live.Keys))
    ensures forall pod :: pod in Taken(w, Listing(live, live.Keys)) <==>
      pod.key in live && pod == live[pod.key] && IsControlledBy(pod, w) && w.selects(pod.labels)
  {
    forall k | k in live && TakenIn(live, w)(k)
      ensures k in Selected(live, w)
    {
    }
    IndexedAgree(live, w, cached, TakenIn(live, w));
    TakenAgree(live, w, Sorted(IndexedKeys(live, w, cached)), Sorted(live.Keys));
  }

  /** The index lists every Pod the ReplicaSet controls, and possibly others. */
  ghost predicate Covers(live: Live, w: Workload, cached: seq<OwnedPod>) {
    forall key :: key in live && IsControlledBy(live[key], w) ==> key in KeysOf(cached)
  }

  /** The reconcile finds something to change. */
  predicate Changes(w: Workload, pods: seq<OwnedPod>) { FirstActing(w, pods) < |pods| }

  ghost predicate SameChange(w: Workload, some: seq<OwnedPod>, all: seq<OwnedPod>) {
    && (Changes(w, some) <==> Changes(w, all))
    && (Changes(w, all) ==> some[FirstActing(w, some)] == all[FirstActing(w, all)])
  }

  /** Over some of the Pods a change is found only if one is found over all; and the same one when the acting
      Pods are the same. */
  lemma {:induction false} ActingAgree(live: Live, w: Workload, a: seq<string>, b: seq<string>)
    requires (forall k :: k in a ==> k in live) && (forall k :: k in b <==> k in live)
    ensures Changes(w, Lift(live, a)) ==> Changes(w, Lift(live, b))
    ensures Filter(a, ActingIn(live, w)) == Filter(b, ActingIn(live, w)) ==> SameChange(w, Lift(live, a), Lift(live, b))
  {
    FirstActingIsFiltered(live, w, a);
    FirstActingIsFiltered(live, w, b);
    var acting := Filter(a, ActingIn(live, w));
    if acting != [] {
      assert acting[0] in acting;
      assert acting[0] in Filter(b, ActingIn(live, w));
    }
  }

  lemma {:induction false} CoveredActingAgree(live: Live, w: Workload, cached: seq<OwnedPod>)
    requires Covers(live, w, cached)
    ensures Filter(Sorted(IndexedKeys(live, w, cached)), ActingIn(live, w)) == Filter(Sorted(live.Keys), ActingIn(live, w))
  {
    forall k | k in live && ActingIn(live, w)(k)
      ensures k in Selected(live, w) || k in KeysOf(cached)
    {
      assert w.selects(live[k].labels) || IsControlledBy(live[k], w);
    }
    IndexedAgree(live, w, cached, ActingIn(live, w));
  }

  /** With any cache the indexed path changes something only if the namespace-wide path would; with an index
      that covers the controlled Pods it does exactly then, and acts on the very same Pod. */
  lemma {:induction false} IndexedChangesAgree(live: Live, w: Workload, cached: seq<OwnedPod>)
    ensures Changes(w, Listing(live, IndexedKeys(live, w, cached))) ==> Changes(w, Listing(live, live.Keys))
    ensures Covers(live, w, cached) ==>
      SameChange(w, Listing(live, IndexedKeys(live, w, cached)), Listing(live, live.Keys))
  {
    ActingAgree(live, w, Sorted(IndexedKeys(live, w, cached)), Sorted(live.Keys));
    if Covers(live, w, cached) {
      CoveredActingAgree(live, w, cached);
    }
  }

  /** The indexed path reports a change exactly when the namespace-wide path does if and only if, whenever some
      live Pod is due for a release or an adoption, one of those due is selected or indexed. */
  lemma {:induction false} IndexedChangesExactly(live: Live, w: Workload, cached: seq<OwnedPod>)
    ensures
      (Changes(w, Listing(live, IndexedKeys(live, w, cached))) <==> Changes(w, Listing(live, live.Keys))) <==>
      ((exists k :: k in live && Acts(w, live[k])) ==>
        exists k :: Found(live, w, cached, k) && Acts(w, live[k]))
  {
    forall k {
      IndexedKeysAre(live, w, cached, k);
    }
    ChangesExactly(live, w, Sorted(IndexedKeys(live, w, cached)));
    ChangesExactly(live, w, Sorted(live.Keys));
    assert forall k :: k in Sorted(live.Keys) <==> k in live;
    assert forall k :: k in Sorted(IndexedKeys(live, w, cached)) <==> Found(live, w, cached, k);
  }

  /** A change is found exactly when one of the listed Pods is due for it. */
  lemma {:induction false} ChangesExactly(live: Live, w: Workload, keys: seq<string>)
    requires forall k :: k in keys ==> k in live
    ensures Changes(w, Lift(live, keys)) <==> exists k :: k in keys && Acts(w, live[k])
  {
    if Changes(w, Lift(live, keys)) {
      assert keys[FirstActing(w, Lift(live, keys))] in keys;
    } else {
      forall k | k in keys
        ensures !Acts(w, live[k])
      {
        var i :| 0 <= i < |keys| && keys[i] == k;
        assert !Acts(w, Lift(live, keys)[i]);
      }
    }
  }

  /** Over some of the Pods the same one is acted on as over all if and only if the first due for a change is
      among them. */
  lemma {:induction false} IndexedActsOnSameExactly(live: Live, w: Workload, cached: seq<OwnedPod>)
    requires forall key :: key in live ==> live[key].key == key
    ensures var some, all := Listing(live, IndexedKeys(live, w, cached)), Listing(live, live.Keys);
      SameChange(w, some, all) <==> (Changes(w, all) ==> Found(live, w, cached, all[FirstActing(w, all)].key))
  {
    forall k {
      IndexedKeysAre(live, w, cached, k);
    }
    var keys, p := IndexedKeys(live, w, cached), ActingIn(live, w);
    FirstIsLeast(live, w, keys);
    FirstIsLeast(live, w, live.Keys);
    if Those(live.Keys, p) != {} && Least(Those(live.Keys, p)) in keys {
      LeastOfSubset(Those(live.Keys, p), Those(keys, p));
    }
  }

  lemma {:induction false} FirstIsLeast(live: Live, w: Workload, keys: set<string>)
    requires keys <= live.Keys
    ensures var pods, due := Listing(live, keys), Those(keys, ActingIn(live, w));
      && (Changes(w, pods) <==> due != {})
      && (due != {} ==> pods[FirstActing(w, pods)] == live[Least(due)])
  {
    var p := ActingIn(live, w);
    FirstActingIsFiltered(live, w, Sorted(keys));
    FilterSorted(keys, p);
  }
}
