/**
 Pod templates and Pods as the controllers see them. Nil and empty maps are one value: the JSON the
 controllers hash omits both, and the equality they use identifies them.
 */
module Workload {
  const IN_PLACE_RESOURCES_ANNOTATION := "churnless.io/in-place-resources"
  const BEST_EFFORT := "best-effort"
  const CPU := "cpu"
  const MEMORY := "memory"

  /** The metadata keys the controllers give a meaning of their own: the label that holds the structural
      revision, the three internal annotations, and the two annotations that ask for a restart. */
  datatype KeyNames = KeyNames(structuralLabel: string, revisionKey: string, labelKeysKey: string,
                               annotationKeysKey: string, restartedAtKey: string, redeployKey: string)
  {
    function Internal(): set<string> { {revisionKey, labelKeysKey, annotationKeysKey} }

    predicate Distinct() {
      && revisionKey != labelKeysKey && revisionKey != annotationKeysKey && labelKeysKey != annotationKeysKey
      && restartedAtKey !in Internal()
    }
  }

  const CHURNLESS_KEYS := KeyNames("churnless.io/structural-revision", "churnless.io/in-place-revision",
                                   "churnless.io/managed-template-label-keys",
                                   "churnless.io/managed-template-annotation-keys",
                                   "kubectl.kubernetes.io/restartedAt", "churnless.io/redeploy-at")

  lemma {:induction false} ChurnlessKeysAreDistinct()
    ensures CHURNLESS_KEYS.Distinct()
  {
    var n := CHURNLESS_KEYS;
    assert |n.revisionKey| == 30 && |n.labelKeysKey| == 40 && |n.annotationKeysKey| == 45 && |n.restartedAtKey| == 33;
  }

  type StringMap = map<string, string>

  /** Quantities are compared by value, so a canonical number stands for each. */
  type ResourceList = map<string, int>

  datatype Resources = Resources(requests: ResourceList, limits: ResourceList)

  /** rest stands for every field the controllers neither patch nor split off. */
  datatype Container = Container(name: string, image: string, resources: Resources, rest: string)

  datatype Template = Template(labels: StringMap, annotations: StringMap,
                               initContainers: seq<Container>, containers: seq<Container>, rest: string)

  datatype Resize = NoResize | InProgress | Deferred | Infeasible

  datatype ContainerStatus = ContainerStatus(name: string, image: string)

  datatype Pod = Pod(uid: nat, created: int, labels: StringMap, annotations: StringMap,
                     initContainers: seq<Container>, containers: seq<Container>, rest: string,
                     resize: Resize, ready: bool,
                     initStatuses: seq<ContainerStatus>, statuses: seq<ContainerStatus>)

  /** Reading a key that is absent yields the empty string. */
  function Lookup(m: StringMap, key: string): string {
    if key in m then m[key] else ""
  }

  /** Which fields a ReplicaSet may change in place. */
  datatype Policy = Policy(resizeResources: bool)

  function PolicyFor(annotations: StringMap): Policy {
    Policy(Lookup(annotations, IN_PLACE_RESOURCES_ANNOTATION) == BEST_EFFORT)
  }

  /** The user asks for CPU and memory to be changed in place. */
  predicate OptedIn(annotations: StringMap) {
    && "churnless.io/in-place-resources" in annotations
    && annotations["churnless.io/in-place-resources"] == "best-effort"
  }

  /** Any other value of the annotation, or none, keeps resources structural. */
  lemma {:induction false} PolicyFollowsAnnotation(annotations: StringMap)
    ensures PolicyFor(annotations).resizeResources <==> OptedIn(annotations)
  {
  }

  predicate Resizable(name: string) { name == CPU || name == MEMORY }

  function ResizablePart(r: Resources): Resources {
    Resources(map k | k in r.requests && Resizable(k) :: r.requests[k],
              map k | k in r.limits && Resizable(k) :: r.limits[k])
  }

  function FixedPart(r: Resources): Resources {
    Resources(map k | k in r.requests && !Resizable(k) :: r.requests[k],
              map k | k in r.limits && !Resizable(k) :: r.limits[k])
  }

  /* ----- Equal in part ----- */

  /** Two maps hold the same at a key. */
  predicate SameAt<V(==)>(a: map<string, V>, b: map<string, V>, k: string) {
    (k in a <==> k in b) && (k in a ==> a[k] == b[k])
  }

  /** Two maps hold the same at every key but some. */
  ghost predicate SameBut<V>(a: map<string, V>, b: map<string, V>, some: set<string>) {
    forall k :: k !in some ==> SameAt(a, b, k)
  }

  /** The same CPU and memory are requested, and the same limited. */
  predicate SameCpuAndMemory(r: Resources, s: Resources) {
    && SameAt(r.requests, s.requests, "cpu") && SameAt(r.requests, s.requests, "memory")
    && SameAt(r.limits, s.limits, "cpu") && SameAt(r.limits, s.limits, "memory")
  }

  /** The same of everything else is requested and limited. */
  ghost predicate SameOtherResources(r: Resources, s: Resources) {
    SameBut(r.requests, s.requests, {"cpu", "memory"}) && SameBut(r.limits, s.limits, {"cpu", "memory"})
  }

  lemma {:induction false} ResizablePartIs(r: Resources, s: Resources)
    ensures ResizablePart(r) == ResizablePart(s) <==> SameCpuAndMemory(r, s)
  {
    assert Resizable("cpu") && Resizable("memory");
    ListPartIs(r.requests, s.requests, ResizablePart(r).requests, ResizablePart(s).requests, {"cpu", "memory"});
    ListPartIs(r.limits, s.limits, ResizablePart(r).limits, ResizablePart(s).limits, {"cpu", "memory"});
  }

  /** The parts of two lists that hold the given keys are equal exactly when the lists are the same at them. */
  lemma {:induction false} ListPartIs(a: ResourceList, b: ResourceList, a': ResourceList, b': ResourceList, keys: set<string>)
    requires a' == (map k | k in a && k in keys :: a[k]) && b' == (map k | k in b && k in keys :: b[k])
    ensures a' == b' <==> forall k :: k in keys ==> SameAt(a, b, k)
  {
    if a' == b' {
      forall k | k in keys
        ensures SameAt(a, b, k)
      {
        assert k in a <==> k in a';
        assert k in b <==> k in b';
      }
    }
    if forall k :: k in keys ==> SameAt(a, b, k) {
      assert forall k :: k in a' <==> k in a && k in keys;
      assert a' == b';
    }
  }

  lemma {:induction false} FixedPartIs(r: Resources, s: Resources)
    ensures FixedPart(r) == FixedPart(s) <==> SameOtherResources(r, s)
  {
    assert forall k :: Resizable(k) <==> k in {"cpu", "memory"};
    FixedListIs(r.requests, s.requests, FixedPart(r).requests, FixedPart(s).requests, {"cpu", "memory"});
    FixedListIs(r.limits, s.limits, FixedPart(r).limits, FixedPart(s).limits, {"cpu", "memory"});
  }

  lemma {:induction false} FixedListIs(a: ResourceList, b: ResourceList, a': ResourceList, b': ResourceList, keys: set<string>)
    requires a' == (map k | k in a && k !in keys :: a[k]) && b' == (map k | k in b && k !in keys :: b[k])
    ensures a' == b' <==> SameBut(a, b, keys)
  {
    if a' == b' {
      forall k | k !in keys
        ensures SameAt(a, b, k)
      {
        assert k in a <==> k in a';
        assert k in b <==> k in b';
      }
    }
    if SameBut(a, b, keys) {
      assert forall k :: k in a' <==> k in a && k !in keys;
      assert a' == b';
    }
  }
}
