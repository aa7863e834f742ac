/**
 What it means for a Pod to carry a template, to have settled in it, and to be due for a change, said on the
 labels, annotations, containers and statuses themselves. The checks the controllers run mean exactly this.
 */
module Matching {
  import opened Containers
  import opened Counting
  import opened InPlace
  import opened ManagedKeys
  import opened Metadata
  import opened Results
  import opened Workload

  /* ----- Containers ----- */

  /** The container at k is the last one of that name. */
  ghost predicate LastNamed(cs: seq<Container>, name: string, k: nat) {
    k < |cs| && cs[k].name == name && forall j :: k < j < |cs| ==> cs[j].name != name
  }

  ghost predicate Unnamed(cs: seq<Container>, name: string) {
    forall k :: 0 <= k < |cs| ==> cs[k].name != name
  }

  /** The last container of the name has the image; without one, no image is asked for. */
  ghost predicate ImageCarried(cs: seq<Container>, d: Container) {
    && (forall k: nat :: LastNamed(cs, d.name, k) ==> cs[k].image == d.image)
    && (Unnamed(cs, d.name) ==> d.image == "")
  }

  /** There is a container of the name, and the last one has the CPU and memory. */
  ghost predicate AmountsCarried(cs: seq<Container>, d: Container) {
    exists k: nat :: LastNamed(cs, d.name, k) && SameCpuAndMemory(cs[k].resources, d.resources)
  }

  ghost predicate ImagesCarried(cs: seq<Container>, desired: seq<Container>) {
    forall i :: 0 <= i < |desired| ==> ImageCarried(cs, desired[i])
  }

  ghost predicate ResourcesCarried(cs: seq<Container>, desired: seq<Container>) {
    forall i :: 0 <= i < |desired| ==> AmountsCarried(cs, desired[i])
  }

  lemma {:induction false} IndexIsLast(cs: seq<Container>, name: string)
    ensures Has(cs, name) ==> LastNamed(cs, name, IndexOf(cs, name))
    ensures Unnamed(cs, name) <==> !Has(cs, name)
    ensures forall k: nat :: LastNamed(cs, name, k) ==> k == IndexOf(cs, name)
  {
    forall k: nat | LastNamed(cs, name, k)
      ensures k == IndexOf(cs, name)
    {
      assert cs[k].name == name;
    }
  }

  /** The checks by name mean that each desired container is carried. */
  lemma {:induction false} ImagesMean(cs: seq<Container>, desired: seq<Container>)
    ensures HasAll(Image, cs, desired) <==> ImagesCarried(cs, desired)
  {
    forall i | 0 <= i < |desired|
      ensures Agrees(Image, cs, desired[i]) <==> ImageCarried(cs, desired[i])
    {
      IndexIsLast(cs, desired[i].name);
    }
  }

  lemma {:induction false} ResourcesMean(cs: seq<Container>, desired: seq<Container>)
    ensures HasAll(CpuAndMemory, cs, desired) <==> ResourcesCarried(cs, desired)
  {
    forall i | 0 <= i < |desired|
      ensures Agrees(CpuAndMemory, cs, desired[i]) <==> AmountsCarried(cs, desired[i])
    {
      AmountsMean(cs, desired[i]);
    }
  }

  lemma {:induction false} AmountsMean(cs: seq<Container>, d: Container)
    ensures Agrees(CpuAndMemory, cs, d) <==> AmountsCarried(cs, d)
  {
    IndexIsLast(cs, d.name);
    var k := IndexOf(cs, d.name);
    if k < |cs| {
      ResizablePartIs(cs[k].resources, d.resources);
    }
  }

  /* ----- Metadata ----- */

  /** The map holds the value at the key, an absent key holding the empty string. */
  predicate Holds(m: StringMap, key: string, value: string) {
    if key in m then m[key] == value else value == ""
  }

  ghost predicate HoldsAll(m: StringMap, template: StringMap) {
    forall k :: k in template ==> Holds(m, k, template[k])
  }

  /** The annotation lists exactly these keys, as text, and reads back as no other. */
  ghost predicate Lists(annotations: StringMap, key: string, keys: set<string>) {
    && Holds(annotations, key, Encode(keys))
    && (key in annotations ==> forall k :: k in Decode(annotations[key]) ==> k in keys)
  }

  /** Every template label and annotation has its value, and the Pod records the template's keys: all labels but
      the structural one, and all annotations but the three internal ones. */
  ghost predicate MetadataCarried(n: KeyNames, pod: Pod, t: Template) {
    && HoldsAll(pod.labels, t.labels) && HoldsAll(pod.annotations, t.annotations)
    && Lists(pod.annotations, n.labelKeysKey, t.labels.Keys - {n.structuralLabel})
    && Lists(pod.annotations, n.annotationKeysKey,
             t.annotations.Keys - {n.revisionKey, n.labelKeysKey, n.annotationKeysKey})
  }

  lemma {:induction false} CarriesMeans(m: StringMap, template: StringMap)
    ensures Carries(m, template) <==> HoldsAll(m, template)
  {
    forall k | k in template
      ensures Lookup(m, k) == template[k] <==> Holds(m, k, template[k])
    {
    }
  }

  lemma {:induction false} ListsMeans(annotations: StringMap, key: string, keys: set<string>)
    ensures Recorded(annotations, key) <= keys && Lookup(annotations, key) == Encode(keys) <==> Lists(annotations, key, keys)
  {
    assert Decode("") == [];
  }

  lemma {:induction false} MetadataMeans(n: KeyNames, pod: Pod, t: Template)
    ensures MetadataMatches(n, pod, t) <==> MetadataCarried(n, pod, t)
  {
    CarriesMeans(pod.labels, t.labels);
    CarriesMeans(pod.annotations, t.annotations);
    ListsMeans(pod.annotations, n.labelKeysKey, ManagedLabelKeys(n, t.labels));
    ListsMeans(pod.annotations, n.annotationKeysKey, ManagedAnnotationKeys(n, t.annotations));
  }

  /* ----- Carrying a template ----- */

  /** Labels, annotations, the recorded keys and the images of init and regular containers are the template's. */
  ghost predicate CarriesAllButResources(n: KeyNames, pod: Pod, t: Template) {
    && MetadataCarried(n, pod, t)
    && ImagesCarried(pod.initContainers, t.initContainers) && ImagesCarried(pod.containers, t.containers)
  }

  /** So are, under the resize policy, the CPU and memory of regular containers. */
  ghost predicate CarriesTemplate(cfg: Config, pod: Pod, t: Template) {
    && CarriesAllButResources(cfg.names, pod, t)
    && (cfg.policy.resizeResources ==> ResourcesCarried(pod.containers, t.containers))
  }

  /** The check of a Pod against its template means that the Pod carries it. */
  lemma {:induction false} SpecMatchesMeans(cfg: Config, pod: Pod, t: Template)
    ensures SpecMatches(cfg, pod, t) <==> CarriesTemplate(cfg, pod, t)
  {
    MetadataMeans(cfg.names, pod, t);
    ImagesMean(pod.initContainers, t.initContainers);
    ImagesMean(pod.containers, t.containers);
    ResourcesMean(pod.containers, t.containers);
  }

  /* ----- Settling ----- */

  ghost predicate LastReport(statuses: seq<ContainerStatus>, name: string, k: nat) {
    k < |statuses| && statuses[k].name == name && forall j :: k < j < |statuses| ==> statuses[j].name != name
  }

  /** The kubelet's last report of the container is of the desired image, whatever way it is written. */
  ghost predicate Reported(cfg: Config, statuses: seq<ContainerStatus>, d: Container) {
    exists k: nat :: LastReport(statuses, d.name, k) && cfg.normalize(statuses[k].image) == cfg.normalize(d.image)
  }

  lemma {:induction false} ReportIsLast(statuses: seq<ContainerStatus>, name: string)
    ensures ReportedImage(statuses, name).None? <==> forall k: nat :: !LastReport(statuses, name, k)
    ensures forall k: nat :: LastReport(statuses, name, k) ==> ReportedImage(statuses, name) == Some(statuses[k].image)
  {
    if statuses != [] {
      var last := |statuses| - 1;
      ReportIsLast(statuses[..last], name);
      if statuses[last].name == name {
        assert LastReport(statuses, name, last);
      } else {
        assert forall k: nat :: LastReport(statuses, name, k) <==> LastReport(statuses[..last], name, k);
      }
    }
  }

  lemma {:induction false} StatusesMean(cfg: Config, statuses: seq<ContainerStatus>, desired: seq<Container>)
    ensures StatusesHaveImages(cfg, statuses, desired) <==>
            forall i :: 0 <= i < |desired| ==> Reported(cfg, statuses, desired[i])
  {
    forall i | 0 <= i < |desired|
      ensures Reported(cfg, statuses, desired[i]) <==>
        match ReportedImage(statuses, desired[i].name)
        case None => false
        case Some(image) => cfg.normalize(image) == cfg.normalize(desired[i].image)
    {
      ReportIsLast(statuses, desired[i].name);
    }
  }

  /** The Pod carries the template, is ready, has no resize pending under the policy, and its containers are
      reported with the images of the template. */
  ghost predicate Settled(cfg: Config, pod: Pod, t: Template) {
    && CarriesTemplate(cfg, pod, t) && pod.ready
    && (cfg.policy.resizeResources ==> pod.resize == NoResize)
    && (forall i :: 0 <= i < |t.initContainers| ==> Reported(cfg, pod.initStatuses, t.initContainers[i]))
    && (forall i :: 0 <= i < |t.containers| ==> Reported(cfg, pod.statuses, t.containers[i]))
  }

  lemma {:induction false} ReadyAndObservedMeans(cfg: Config, pod: Pod, t: Template)
    ensures ReadyAndObserved(cfg, pod, t) <==> Settled(cfg, pod, t)
  {
    SpecMatchesMeans(cfg, pod, t);
    StatusesMean(cfg, pod.initStatuses, t.initContainers);
    StatusesMean(cfg, pod.statuses, t.containers);
  }

  /* ----- What a Pod is due for ----- */

  /** Under the resize policy the node has found that the resize can never be done. */
  predicate Stuck(cfg: Config, pod: Pod) {
    cfg.policy.resizeResources && pod.resize == Infeasible
  }

  /** Carries the template but has not settled: it occupies one slot of the budget. */
  ghost predicate Unsettled(cfg: Config, pod: Pod, t: Template) {
    cfg.eligible(pod) && !Stuck(cfg, pod) && CarriesTemplate(cfg, pod, t) && !Settled(cfg, pod, t)
  }

  /** Needs an action: a replacement when stuck, or else an update. */
  ghost predicate Due(cfg: Config, pod: Pod, t: Template) {
    cfg.eligible(pod) && (Stuck(cfg, pod) || !CarriesTemplate(cfg, pod, t))
  }

  ghost function UnsettledIn(cfg: Config, t: Template): Pod -> bool {
    (pod: Pod) => Unsettled(cfg, pod, t)
  }

  ghost function DueIn(cfg: Config, t: Template): Pod -> bool {
    (pod: Pod) => Due(cfg, pod, t)
  }

  lemma {:induction false} InFlightMeans(cfg: Config, pod: Pod, t: Template)
    ensures InFlight(cfg, pod, t) <==> Unsettled(cfg, pod, t)
  {
    SpecMatchesMeans(cfg, pod, t);
    ReadyAndObservedMeans(cfg, pod, t);
  }

  /** The Pods the loop counts as in flight are the unsettled ones. */
  lemma {:induction false} InFlightCount(cfg: Config, pods: seq<Pod>, t: Template)
    ensures Count(pods, InFlightIn(cfg, t)) == Count(pods, UnsettledIn(cfg, t))
  {
    forall i | 0 <= i < |pods|
      ensures InFlightIn(cfg, t)(pods[i]) == UnsettledIn(cfg, t)(pods[i])
    {
      InFlightMeans(cfg, pods[i], t);
    }
    SameCount(pods, InFlightIn(cfg, t), UnsettledIn(cfg, t));
  }

  /** A visit acts on a Pod exactly when it is due. */
  lemma {:induction false} DueMeans(cfg: Config, pod: Pod, t: Template)
    ensures Due(cfg, pod, t) <==> cfg.eligible(pod) && (ResizeInfeasible(cfg, pod) || !SpecMatches(cfg, pod, t))
  {
    SpecMatchesMeans(cfg, pod, t);
  }
}
