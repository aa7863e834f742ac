/**
 The split of a Pod template into a structural key, which selects the ReplicaSet, and an in-place key, which
 the Pods of a ReplicaSet are updated to. A key is the record the controllers hash; hashing is taken to be
 injective.
 */
module Revision {
  import opened Results
  import opened Workload

  datatype StructuralKey = StructuralKey(template: Template, resourcePolicy: string, redeploy: string,
                                         workloadRestart: string, templateRestart: string)

  datatype RevisionContainer = RevisionContainer(name: string, image: string, resources: Option<Resources>, init: bool)

  datatype InPlaceKey = InPlaceKey(labels: StringMap, annotations: StringMap, containers: seq<RevisionContainer>)

  /* ----- Specification ----- */

  /** The template without what the controllers add to it. */
  function Clean(n: KeyNames, t: Template): Template {
    t.(labels := t.labels - {n.structuralLabel}, annotations := t.annotations - n.Internal())
  }

  function ResourcePolicy(p: Policy): string {
    if p.resizeResources then BEST_EFFORT else ""
  }

  function StripContainer(c: Container, resizable: bool): Container {
    c.(image := "", resources := if resizable then FixedPart(c.resources) else c.resources)
  }

  function StripContainers(cs: seq<Container>, resizable: bool): (r: seq<Container>)
    ensures |r| == |cs| && forall i :: 0 <= i < |cs| ==> r[i] == StripContainer(cs[i], resizable)
  {
    seq(|cs|, i requires 0 <= i < |cs| => StripContainer(cs[i], resizable))
  }

  function Stripped(p: Policy, t: Template): Template {
    t.(labels := map[], annotations := map[],
       initContainers := StripContainers(t.initContainers, false),
       containers := StripContainers(t.containers, p.resizeResources))
  }

  /** annotations are those of the Deployment. */
  function StructuralKeyOf(n: KeyNames, annotations: StringMap, t: Template): StructuralKey {
    var p, clean := PolicyFor(annotations), Clean(n, t);
    StructuralKey(Stripped(p, clean), ResourcePolicy(p), Lookup(annotations, n.redeployKey),
                  Lookup(annotations, n.restartedAtKey), Lookup(clean.annotations, n.restartedAtKey))
  }

  function InitEntry(c: Container): RevisionContainer {
    RevisionContainer(c.name, c.image, None, true)
  }

  function Entry(c: Container, p: Policy): RevisionContainer {
    RevisionContainer(c.name, c.image, if p.resizeResources then Some(ResizablePart(c.resources)) else None, false)
  }

  function InitEntries(cs: seq<Container>): (r: seq<RevisionContainer>)
    ensures |r| == |cs| && forall i :: 0 <= i < |cs| ==> r[i] == InitEntry(cs[i])
  {
    seq(|cs|, i requires 0 <= i < |cs| => InitEntry(cs[i]))
  }

  function Entries(cs: seq<Container>, p: Policy): (r: seq<RevisionContainer>)
    ensures |r| == |cs| && forall i :: 0 <= i < |cs| ==> r[i] == Entry(cs[i], p)
  {
    seq(|cs|, i requires 0 <= i < |cs| => Entry(cs[i], p))
  }

  function InPlaceKeyOf(n: KeyNames, p: Policy, t: Template): InPlaceKey {
    InPlaceKey(Clean(n, t).labels, Clean(n, t).annotations, InitEntries(t.initContainers) + Entries(t.containers, p))
  }

  /* ----- The loops ----- */

  method ClearImages(cs: seq<Container>) returns (r: seq<Container>)
    ensures r == StripContainers(cs, false)
  {
    r := cs;
    for i := 0 to |cs|
      invariant |r| == |cs|
      invariant forall k :: 0 <= k < |cs| ==> r[k] == if k < i then StripContainer(cs[k], false) else cs[k]
    {
      r := r[i := r[i].(image := "")];
    }
  }

  method ClearResizableResources(cs: seq<Container>) returns (r: seq<Container>)
    ensures |r| == |cs| && forall i :: 0 <= i < |cs| ==> r[i] == cs[i].(resources := FixedPart(cs[i].resources))
  {
    r := cs;
    for i := 0 to |cs|
      invariant |r| == |cs|
      invariant forall k :: 0 <= k < |cs| ==>
        r[k] == if k < i then cs[k].(resources := FixedPart(cs[k].resources)) else cs[k]
    {
      var requests := r[i].resources.requests - {CPU, MEMORY};
      var limits := r[i].resources.limits - {CPU, MEMORY};
      assert requests == FixedPart(cs[i].resources).requests;
      assert limits == FixedPart(cs[i].resources).limits;
      r := r[i := r[i].(resources := Resources(requests, limits))];
    }
  }

  /** Strips a clean copy of the template step by step and collects the tokens. */
  method StructuralRevision(n: KeyNames, annotations: StringMap, t: Template) returns (key: StructuralKey)
    ensures key == StructuralKeyOf(n, annotations, t)
  {
    var copy := Clean(n, t);
    var policy := PolicyFor(annotations);
    var templateRestart := Lookup(copy.annotations, n.restartedAtKey);
    copy := copy.(labels := map[], annotations := map[]);
    var init := ClearImages(copy.initContainers);
    var regular := ClearImages(copy.containers);
    if policy.resizeResources {
      regular := ClearResizableResources(regular);
    }
    assert regular == StripContainers(t.containers, policy.resizeResources);
    copy := copy.(initContainers := init, containers := regular);
    key := StructuralKey(copy, ResourcePolicy(policy), Lookup(annotations, n.redeployKey),
                         Lookup(annotations, n.restartedAtKey), templateRestart);
  }

  /** Lists init containers, then regular ones with their CPU and memory when the policy updates them. */
  method InPlaceRevision(n: KeyNames, p: Policy, t: Template) returns (key: InPlaceKey)
    ensures key == InPlaceKeyOf(n, p, t)
  {
    var containers: seq<RevisionContainer> := [];
    for i := 0 to |t.initContainers|
      invariant containers == InitEntries(t.initContainers)[..i]
    {
      containers := containers + [InitEntry(t.initContainers[i])];
    }
    for i := 0 to |t.containers|
      invariant containers == InitEntries(t.initContainers) + Entries(t.containers, p)[..i]
    {
      var item := RevisionContainer(t.containers[i].name, t.containers[i].image, None, false);
      if p.resizeResources {
        item := item.(resources := Some(ResizablePart(t.containers[i].resources)));
      }
      containers := containers + [item];
    }
    var clean := Clean(n, t);
    key := InPlaceKey(clean.labels, clean.annotations, containers);
  }

  /* ----- What the structural key sees ----- */

  /** The same container up to its image and, when resizable, its CPU and memory. */
  ghost predicate SameButInPlace(c: Container, d: Container, resizable: bool) {
    && c.name == d.name && c.rest == d.rest
    && if resizable then SameOtherResources(c.resources, d.resources) else c.resources == d.resources
  }

  ghost predicate AllSameButInPlace(cs: seq<Container>, ds: seq<Container>, resizable: bool) {
    |cs| == |ds| && forall i :: 0 <= i < |cs| ==> SameButInPlace(cs[i], ds[i], resizable)
  }

  /** Two templates differ only in labels, annotations, images and, when resizable, the CPU and memory of
      regular containers. */
  ghost predicate StructurallySame(t: Template, u: Template, resizable: bool) {
    && t.rest == u.rest
    && AllSameButInPlace(t.initContainers, u.initContainers, false)
    && AllSameButInPlace(t.containers, u.containers, resizable)
  }

  lemma {:induction false} StripSees(cs: seq<Container>, ds: seq<Container>, resizable: bool)
    ensures StripContainers(cs, resizable) == StripContainers(ds, resizable) <==> AllSameButInPlace(cs, ds, resizable)
  {
    var a, b := StripContainers(cs, resizable), StripContainers(ds, resizable);
    if a == b {
      forall i | 0 <= i < |cs|
        ensures SameButInPlace(cs[i], ds[i], resizable)
      {
        assert a[i] == b[i];
        StrippedContainer(cs[i], ds[i], resizable);
      }
    }
    if AllSameButInPlace(cs, ds, resizable) {
      forall i | 0 <= i < |cs|
        ensures a[i] == b[i]
      {
        assert SameButInPlace(cs[i], ds[i], resizable);
        StrippedContainer(cs[i], ds[i], resizable);
      }
      assert a == b;
    }
  }

  lemma {:induction false} StrippedContainer(c: Container, d: Container, resizable: bool)
    ensures StripContainer(c, resizable) == StripContainer(d, resizable) <==> SameButInPlace(c, d, resizable)
  {
    FixedPartIs(c.resources, d.resources);
  }

  lemma {:induction false} StrippedSees(p: Policy, t: Template, u: Template)
    ensures Stripped(p, t) == Stripped(p, u) <==> StructurallySame(t, u, p.resizeResources)
  {
    StripSees(t.initContainers, u.initContainers, false);
    StripSees(t.containers, u.containers, p.resizeResources);
  }

  /** The two Deployments ask for the same restarts. */
  predicate SameRestarts(n: KeyNames, w: StringMap, x: StringMap) {
    Lookup(w, n.redeployKey) == Lookup(x, n.redeployKey) && Lookup(w, n.restartedAtKey) == Lookup(x, n.restartedAtKey)
  }

  /** Two Deployments select the same ReplicaSet exactly when both or neither opted in to in-place resources, they
      ask for the same restarts, and their templates differ only in labels, annotations, images and, if they opted
      in, the CPU and memory of regular containers. */
  lemma {:induction false} StructuralKeySees(n: KeyNames, w: StringMap, t: Template, x: StringMap, u: Template)
    requires n.Distinct()
    ensures StructuralKeyOf(n, w, t) == StructuralKeyOf(n, x, u) <==>
      && (OptedIn(w) <==> OptedIn(x)) && SameRestarts(n, w, x)
      && Lookup(t.annotations, n.restartedAtKey) == Lookup(u.annotations, n.restartedAtKey)
      && StructurallySame(t, u, OptedIn(w))
  {
    PolicyFollowsAnnotation(w);
    PolicyFollowsAnnotation(x);
    PolicyIsNamed(PolicyFor(w), PolicyFor(x));
    StrippedSees(PolicyFor(w), Clean(n, t), Clean(n, u));
  }

  lemma {:induction false} PolicyIsNamed(p: Policy, q: Policy)
    ensures ResourcePolicy(p) == ResourcePolicy(q) <==> p == q
  {
    assert |BEST_EFFORT| == 11;
  }

  /* ----- What the in-place key sees ----- */

  /** The same name and image, and the same CPU and memory when resizable. */
  predicate SameInPlace(c: Container, d: Container, resizable: bool) {
    c.name == d.name && c.image == d.image && (resizable ==> SameCpuAndMemory(c.resources, d.resources))
  }

  predicate AllSameInPlace(cs: seq<Container>, ds: seq<Container>, resizable: bool) {
    |cs| == |ds| && forall i :: 0 <= i < |cs| ==> SameInPlace(cs[i], ds[i], resizable)
  }

  /** The template's own labels and annotations: all but the structural label and the three internal annotations. */
  ghost predicate SameMetadata(n: KeyNames, t: Template, u: Template) {
    && SameBut(t.labels, u.labels, {n.structuralLabel})
    && SameBut(t.annotations, u.annotations, {n.revisionKey, n.labelKeysKey, n.annotationKeysKey})
  }

  lemma {:induction false} WithoutSees(a: StringMap, b: StringMap, some: set<string>)
    ensures a - some == b - some <==> SameBut(a, b, some)
  {
    if a - some == b - some {
      forall k | k !in some
        ensures SameAt(a, b, k)
      {
        assert k in a <==> k in a - some;
        assert k in b <==> k in b - some;
      }
    }
    if SameBut(a, b, some) {
      assert forall k :: k in a - some <==> k in a && k !in some && SameAt(a, b, k);
      assert a - some == b - some;
    }
  }

  lemma {:induction false} CleanSees(n: KeyNames, t: Template, u: Template)
    ensures Clean(n, t).labels == Clean(n, u).labels && Clean(n, t).annotations == Clean(n, u).annotations <==>
            SameMetadata(n, t, u)
  {
    WithoutSees(t.labels, u.labels, {n.structuralLabel});
    WithoutSees(t.annotations, u.annotations, n.Internal());
  }

  lemma {:induction false} EntrySees(c: Container, p: Policy, d: Container)
    ensures Entry(c, p) == Entry(d, p) <==> SameInPlace(c, d, p.resizeResources)
    ensures InitEntry(c) == InitEntry(d) <==> SameInPlace(c, d, false)
  {
    ResizablePartIs(c.resources, d.resources);
  }

  lemma {:induction false} EntriesSee(cs: seq<Container>, p: Policy, ds: seq<Container>)
    ensures Entries(cs, p) == Entries(ds, p) <==> AllSameInPlace(cs, ds, p.resizeResources)
    ensures InitEntries(cs) == InitEntries(ds) <==> AllSameInPlace(cs, ds, false)
  {
    forall i | 0 <= i < |cs| && i < |ds|
      ensures Entries(cs, p)[i] == Entries(ds, p)[i] <==> SameInPlace(cs[i], ds[i], p.resizeResources)
      ensures InitEntries(cs)[i] == InitEntries(ds)[i] <==> SameInPlace(cs[i], ds[i], false)
    {
      EntrySees(cs[i], p, ds[i]);
    }
  }

  /** In the listing exactly the entries of init containers are marked so. */
  lemma {:induction false} InitEntriesFirst(a: seq<Container>, b: seq<Container>, p: Policy, k: nat)
    requires k < |a| + |b|
    ensures (InitEntries(a) + Entries(b, p))[k].init <==> k < |a|
  {
  }

  lemma {:induction false} ListingSees(a: seq<Container>, b: seq<Container>, c: seq<Container>, d: seq<Container>, p: Policy)
    ensures InitEntries(a) + Entries(b, p) == InitEntries(c) + Entries(d, p) <==>
            InitEntries(a) == InitEntries(c) && Entries(b, p) == Entries(d, p)
  {
    if InitEntries(a) + Entries(b, p) == InitEntries(c) + Entries(d, p) {
      assert |a| + |b| == |InitEntries(a) + Entries(b, p)| == |c| + |d|;
      var k := if |a| <= |c| then |a| else |c|;
      if k < |a| + |b| {
        InitEntriesFirst(a, b, p, k);
        InitEntriesFirst(c, d, p, k);
      }
      ListingSplits(InitEntries(a), Entries(b, p), InitEntries(c), Entries(d, p));
    }
  }

  /** Two templates have one in-place key exactly when they have the same metadata of their own, the same init and
      regular containers by name and image, and, under the policy, the same CPU and memory of regular ones. */
  lemma {:induction false} InPlaceKeySees(n: KeyNames, p: Policy, t: Template, u: Template)
    ensures InPlaceKeyOf(n, p, t) == InPlaceKeyOf(n, p, u) <==>
      && SameMetadata(n, t, u)
      && AllSameInPlace(t.initContainers, u.initContainers, false)
      && AllSameInPlace(t.containers, u.containers, p.resizeResources)
  {
    CleanSees(n, t, u);
    EntriesSee(t.initContainers, p, u.initContainers);
    EntriesSee(t.containers, p, u.containers);
    ListingSees(t.initContainers, t.containers, u.initContainers, u.containers, p);
  }

  /* ----- Nothing is lost ----- */

  /** A map is what it holds at some keys and at the others. */
  lemma {:induction false} PartsMakeWhole<V>(a: map<string, V>, b: map<string, V>, some: set<string>)
    ensures SameBut(a, b, some) && (forall k :: k in some ==> SameAt(a, b, k)) <==> a == b
  {
    if SameBut(a, b, some) && forall k :: k in some ==> SameAt(a, b, k) {
      forall k
        ensures k in a <==> k in b
        ensures k in a ==> a[k] == b[k]
      {
        assert SameAt(a, b, k);
      }
    }
  }

  /** A container is what each key keeps of it. */
  lemma {:induction false} ContainerIsDetermined(c: Container, d: Container, resizable: bool)
    ensures SameButInPlace(c, d, resizable) && SameInPlace(c, d, resizable) <==> c == d
  {
    PartsMakeWhole(c.resources.requests, d.resources.requests, {"cpu", "memory"});
    PartsMakeWhole(c.resources.limits, d.resources.limits, {"cpu", "memory"});
  }

  lemma {:induction false} ContainersAreDetermined(cs: seq<Container>, ds: seq<Container>, resizable: bool)
    ensures AllSameButInPlace(cs, ds, resizable) && AllSameInPlace(cs, ds, resizable) <==> cs == ds
  {
    if |cs| == |ds| {
      forall i | 0 <= i < |cs|
        ensures SameButInPlace(cs[i], ds[i], resizable) && SameInPlace(cs[i], ds[i], resizable) <==> cs[i] == ds[i]
      {
        ContainerIsDetermined(cs[i], ds[i], resizable);
      }
    }
  }

  lemma {:induction false} ListingSplits(a: seq<RevisionContainer>, b: seq<RevisionContainer>,
                                         c: seq<RevisionContainer>, d: seq<RevisionContainer>)
    requires |a| == |c| && a + b == c + d
    ensures a == c && b == d
  {
    assert a == (a + b)[..|a|] && b == (a + b)[|a|..];
    assert c == (c + d)[..|c|] && d == (c + d)[|c|..];
  }

  /** The split is lossless: the two keys agree exactly when both or neither Deployment opted in, they ask for the
      same restarts, and their templates are the same, the structural label and the three internal annotations
      aside. */
  lemma {:induction false} SplitIsLossless(n: KeyNames, w: StringMap, t: Template, x: StringMap, u: Template)
    requires n.Distinct()
    ensures
      (&& StructuralKeyOf(n, w, t) == StructuralKeyOf(n, x, u)
       && InPlaceKeyOf(n, PolicyFor(w), t) == InPlaceKeyOf(n, PolicyFor(x), u)) <==>
      (&& (OptedIn(w) <==> OptedIn(x)) && SameRestarts(n, w, x) && SameMetadata(n, t, u)
       && t.initContainers == u.initContainers && t.containers == u.containers && t.rest == u.rest)
  {
    StructuralKeySees(n, w, t, x, u);
    PolicyFollowsAnnotation(w);
    PolicyFollowsAnnotation(x);
    InPlaceKeySees(n, PolicyFor(w), t, u);
    ContainersAreDetermined(t.initContainers, u.initContainers, false);
    ContainersAreDetermined(t.containers, u.containers, OptedIn(w));
    if SameMetadata(n, t, u) {
      assert SameAt(t.annotations, u.annotations, n.restartedAtKey);
    }
  }

  lemma {:induction false} RestartSurvivesCleaning(n: KeyNames, t: Template)
    requires n.Distinct()
    ensures Lookup(Clean(n, t).annotations, n.restartedAtKey) == Lookup(t.annotations, n.restartedAtKey)
  {
  }

  /** Flipping the policy alone changes the in-place key exactly when there is a regular container. */
  lemma {:induction false} PolicyFlipChangesKey(n: KeyNames, t: Template)
    ensures InPlaceKeyOf(n, Policy(true), t) != InPlaceKeyOf(n, Policy(false), t) <==> t.containers != []
  {
    var a, b := Entries(t.containers, Policy(true)), Entries(t.containers, Policy(false));
    var init := InitEntries(t.initContainers);
    if t.containers != [] {
      assert (init + a)[|init|] == Entry(t.containers[0], Policy(true));
      assert (init + b)[|init|] == Entry(t.containers[0], Policy(false));
    }
  }

  /** The template as a ReplicaSet holds it: the Deployment's, with the revision stamped on. */
  function Stamped(n: KeyNames, t: Template, stamp: string): Template {
    t.(labels := t.labels[n.structuralLabel := stamp])
  }

  /** Stamping changes neither key, so the ReplicaSet's in-place key is the Deployment's. */
  lemma {:induction false} StampingKeepsKeys(n: KeyNames, w: StringMap, p: Policy, t: Template, stamp: string)
    ensures StructuralKeyOf(n, w, Stamped(n, t, stamp)) == StructuralKeyOf(n, w, t)
    ensures InPlaceKeyOf(n, p, Stamped(n, t, stamp)) == InPlaceKeyOf(n, p, t)
  {
    assert Clean(n, Stamped(n, t, stamp)).labels == Clean(n, t).labels;
  }
}
