/**
 Synchronising Pod labels and annotations with a template. The Pod itself remembers, in two annotations,
 which keys its last template contributed, so that a key dropped from the template is dropped from the Pod
 while keys injected by others stay.
 */
module Metadata {
  import opened Workload
  import opened ManagedKeys

  /* ----- Specification ----- */

  function ManagedLabelKeys(n: KeyNames, labels: StringMap): set<string> {
    labels.Keys - {n.structuralLabel}
  }

  function ManagedAnnotationKeys(n: KeyNames, annotations: StringMap): set<string> {
    annotations.Keys - n.Internal()
  }

  /** The keys a Pod remembers under one of the two annotations. */
  function Recorded(annotations: StringMap, key: string): (keys: set<string>)
  {
    set k | k in Decode(Lookup(annotations, key))
  }

  /** Three-way merge: drop what was recorded and is no longer managed, then take over the template. */
  function Merge(current: StringMap, recorded: set<string>, managed: set<string>, template: StringMap): StringMap {
    (current - (recorded - managed)) + template
  }

  function MergedLabels(n: KeyNames, pod: Pod, t: Template): StringMap {
    Merge(pod.labels, Recorded(pod.annotations, n.labelKeysKey), ManagedLabelKeys(n, t.labels), t.labels)
  }

  function TemplateAnnotations(n: KeyNames, pod: Pod, t: Template): StringMap {
    Merge(pod.annotations, Recorded(pod.annotations, n.annotationKeysKey),
          ManagedAnnotationKeys(n, t.annotations), t.annotations)
  }

  function MergedAnnotations(n: KeyNames, pod: Pod, t: Template): StringMap {
    TemplateAnnotations(n, pod, t)
    [n.labelKeysKey := Encode(ManagedLabelKeys(n, t.labels))]
    [n.annotationKeysKey := Encode(ManagedAnnotationKeys(n, t.annotations))]
  }

  function WithMetadata(n: KeyNames, pod: Pod, t: Template): Pod {
    pod.(labels := MergedLabels(n, pod, t), annotations := MergedAnnotations(n, pod, t))
  }

  /** The Pod carries every template key with the template's value (an absent key reads as empty). */
  predicate Carries(m: StringMap, template: StringMap) {
    forall k :: k in template ==> Lookup(m, k) == template[k]
  }

  predicate MetadataMatches(n: KeyNames, pod: Pod, t: Template) {
    && Carries(pod.labels, t.labels)
    && Carries(pod.annotations, t.annotations)
    && Recorded(pod.annotations, n.labelKeysKey) <= ManagedLabelKeys(n, t.labels)
    && Recorded(pod.annotations, n.annotationKeysKey) <= ManagedAnnotationKeys(n, t.annotations)
    && Lookup(pod.annotations, n.labelKeysKey) == Encode(ManagedLabelKeys(n, t.labels))
    && Lookup(pod.annotations, n.annotationKeysKey) == Encode(ManagedAnnotationKeys(n, t.annotations))
  }

  /* ----- The loops ----- */

  /** Deletes the recorded keys that are no longer managed. */
  method DropUnmanaged(current: StringMap, recorded: seq<string>, managed: set<string>) returns (m: StringMap)
    ensures m == current - ((set k | k in recorded) - managed)
  {
    m := current;
    for i := 0 to |recorded|
      invariant m == current - ((set k | k in recorded[..i]) - managed)
    {
      assert recorded[..i + 1] == recorded[..i] + [recorded[i]];
      if recorded[i] !in managed {
        m := m - {recorded[i]};
      }
    }
    assert recorded[..|recorded|] == recorded;
  }

  /** Synchronises the metadata of the Pod at i in place. */
  method SetPodMetadata(n: KeyNames, pods: array<Pod>, i: nat, t: Template)
    requires i < pods.Length
    modifies pods
    ensures pods[..] == old(pods[..])[i := WithMetadata(n, old(pods[i]), t)]
  {
    var pod := pods[i];
    var managedLabels := ManagedLabelKeys(n, t.labels);
    var labels := DropUnmanaged(pod.labels, Decode(Lookup(pod.annotations, n.labelKeysKey)), managedLabels);
    labels := labels + t.labels;
    var managedAnnotations := ManagedAnnotationKeys(n, t.annotations);
    var annotations := DropUnmanaged(
      pod.annotations, Decode(Lookup(pod.annotations, n.annotationKeysKey)), managedAnnotations);
    annotations := annotations + t.annotations;
    annotations := annotations[n.labelKeysKey := Encode(managedLabels)];
    annotations := annotations[n.annotationKeysKey := Encode(managedAnnotations)];
    pods[i] := pod.(labels := labels, annotations := annotations);
  }

  method CheckCarries(m: StringMap, template: StringMap) returns (ok: bool)
    ensures ok == Carries(m, template)
  {
    var keys := template.Keys;
    while keys != {}
      invariant keys <= template.Keys
      invariant forall k :: k in template && k !in keys ==> Lookup(m, k) == template[k]
      decreases |keys|
    {
      var k :| k in keys;
      if Lookup(m, k) != template[k] {
        return false;
      }
      keys := keys - {k};
    }
    return true;
  }

  method CheckManaged(recorded: seq<string>, managed: set<string>) returns (ok: bool)
    ensures ok <==> (set k | k in recorded) <= managed
  {
    for i := 0 to |recorded|
      invariant forall j :: 0 <= j < i ==> recorded[j] in managed
    {
      if recorded[i] !in managed {
        assert recorded[i] in set k | k in recorded;
        return false;
      }
    }
    return true;
  }

  method PodMetadataMatches(n: KeyNames, pod: Pod, t: Template) returns (ok: bool)
    ensures ok == MetadataMatches(n, pod, t)
  {
    ok := CheckCarries(pod.labels, t.labels);
    if !ok { return; }
    ok := CheckCarries(pod.annotations, t.annotations);
    if !ok { return; }
    ok := CheckManaged(Decode(Lookup(pod.annotations, n.labelKeysKey)), ManagedLabelKeys(n, t.labels));
    if !ok { return; }
    ok := CheckManaged(
      Decode(Lookup(pod.annotations, n.annotationKeysKey)), ManagedAnnotationKeys(n, t.annotations));
    if !ok { return; }
    ok := Lookup(pod.annotations, n.labelKeysKey) == Encode(ManagedLabelKeys(n, t.labels))
      && Lookup(pod.annotations, n.annotationKeysKey) == Encode(ManagedAnnotationKeys(n, t.annotations));
  }

  /* ----- The setter establishes the checker ----- */

  /** Template keys are Kubernetes keys: every character stands for itself in JSON. */
  predicate PlainKeys(n: KeyNames, t: Template) {
    AllPlain(ManagedLabelKeys(n, t.labels)) && AllPlain(ManagedAnnotationKeys(n, t.annotations))
  }

  /** One synchronisation as updatePods and createPod do it: the metadata, then the in-place revision. */
  function Synced(n: KeyNames, pod: Pod, t: Template, revision: string): Pod {
    var p := WithMetadata(n, pod, t);
    p.(annotations := p.annotations[n.revisionKey := revision])
  }

  /** The value an internal annotation has after a synchronisation. */
  function InternalValue(n: KeyNames, t: Template, revision: string, key: string): string {
    if key == n.revisionKey then revision
    else if key == n.labelKeysKey then Encode(ManagedLabelKeys(n, t.labels))
    else Encode(ManagedAnnotationKeys(n, t.annotations))
  }

  lemma {:induction false} EncodedIsRecorded(annotations: StringMap, key: string, keys: set<string>)
    requires AllPlain(keys) && Lookup(annotations, key) == Encode(keys)
    ensures Recorded(annotations, key) == keys
  {
    DecodeEncode(keys);
  }

  /** A synchronised Pod records exactly the keys of its template. */
  lemma {:induction false} SyncedRecords(n: KeyNames, pod: Pod, t: Template, revision: string)
    requires n.Distinct() && PlainKeys(n, t)
    ensures var p := Synced(n, pod, t, revision);
            && Recorded(p.annotations, n.labelKeysKey) == ManagedLabelKeys(n, t.labels)
            && Recorded(p.annotations, n.annotationKeysKey) == ManagedAnnotationKeys(n, t.annotations)
  {
    var p := Synced(n, pod, t, revision);
    EncodedIsRecorded(p.annotations, n.labelKeysKey, ManagedLabelKeys(n, t.labels));
    EncodedIsRecorded(p.annotations, n.annotationKeysKey, ManagedAnnotationKeys(n, t.annotations));
  }

  /** One key after a merge. */
  lemma {:induction false} MergeAt(current: StringMap, recorded: set<string>, managed: set<string>,
                                   template: StringMap, k: string)
    ensures var m := Merge(current, recorded, managed, template);
            && (k in m <==> k in template || (k in current && (k in recorded ==> k in managed)))
            && (k in m ==> m[k] == if k in template then template[k] else current[k])
  {
  }

  /** The three internal keys written over a map. */
  function WithInternal(n: KeyNames, m: StringMap, labelKeys: string, annotationKeys: string, revision: string): StringMap {
    m[n.labelKeysKey := labelKeys][n.annotationKeysKey := annotationKeys][n.revisionKey := revision]
  }

  lemma {:induction false} InternalKeysWritten(n: KeyNames, m: StringMap, labelKeys: string, annotationKeys: string,
                                               revision: string, k: string)
    requires n.Distinct()
    ensures var r := WithInternal(n, m, labelKeys, annotationKeys, revision);
      && (k !in n.Internal() ==> (k in r <==> k in m) && (k in m ==> r[k] == m[k]))
      && (k in n.Internal() ==>
          && k in r
          && r[k] == if k == n.revisionKey then revision else if k == n.labelKeysKey then labelKeys else annotationKeys)
  {
  }

  lemma {:induction false} SyncedAnnotationsAre(n: KeyNames, pod: Pod, t: Template, revision: string)
    ensures Synced(n, pod, t, revision).annotations ==
            WithInternal(n, TemplateAnnotations(n, pod, t), Encode(ManagedLabelKeys(n, t.labels)),
                         Encode(ManagedAnnotationKeys(n, t.annotations)), revision)
  {
  }

  /** An annotation after a synchronisation. */
  lemma {:induction false} SyncedAnnotation(n: KeyNames, pod: Pod, t: Template, revision: string, k: string)
    requires n.Distinct()
    ensures var a, m := Synced(n, pod, t, revision).annotations, TemplateAnnotations(n, pod, t);
            if k in n.Internal() then k in a && a[k] == InternalValue(n, t, revision, k)
            else (k in a <==> k in m) && (k in m ==> a[k] == m[k])
  {
    SyncedAnnotationsAre(n, pod, t, revision);
    InternalKeysWritten(n, TemplateAnnotations(n, pod, t), Encode(ManagedLabelKeys(n, t.labels)),
                        Encode(ManagedAnnotationKeys(n, t.annotations)), revision, k);
  }

  /** Labels and annotations that the template neither sets nor set last time, such as injected ones, stay. */
  lemma {:induction false} UnmanagedMetadataStays(n: KeyNames, pod: Pod, t: Template, revision: string, k: string)
    requires n.Distinct()
    ensures var p := Synced(n, pod, t, revision);
      && (k !in t.labels && k !in Recorded(pod.annotations, n.labelKeysKey) ==>
          (k in p.labels <==> k in pod.labels) && (k in pod.labels ==> p.labels[k] == pod.labels[k]))
      && (k !in t.annotations && k !in n.Internal() && k !in Recorded(pod.annotations, n.annotationKeysKey) ==>
          (k in p.annotations <==> k in pod.annotations) && (k in pod.annotations ==> p.annotations[k] == pod.annotations[k]))
  {
    MergeAt(pod.labels, Recorded(pod.annotations, n.labelKeysKey), ManagedLabelKeys(n, t.labels), t.labels, k);
    SyncedAnnotation(n, pod, t, revision, k);
    MergeAt(pod.annotations, Recorded(pod.annotations, n.annotationKeysKey),
            ManagedAnnotationKeys(n, t.annotations), t.annotations, k);
  }

  /** A synchronised Pod matches its template exactly when the template does not itself carry an internal
      annotation with another value; without internal annotations it always matches. */
  lemma {:induction false} SyncedMatches(n: KeyNames, pod: Pod, t: Template, revision: string)
    requires n.Distinct() && PlainKeys(n, t)
    ensures MetadataMatches(n, Synced(n, pod, t, revision), t) <==>
            forall k :: k in n.Internal() && k in t.annotations ==>
              t.annotations[k] == InternalValue(n, t, revision, k)
  {
    SyncedRecords(n, pod, t, revision);
    var p := Synced(n, pod, t, revision);
    forall k | k in t.labels
      ensures Lookup(p.labels, k) == t.labels[k]
    {
      MergeAt(pod.labels, Recorded(pod.annotations, n.labelKeysKey), ManagedLabelKeys(n, t.labels), t.labels, k);
    }
    forall k
      ensures k in n.Internal() ==> Lookup(p.annotations, k) == InternalValue(n, t, revision, k)
      ensures k !in n.Internal() && k in t.annotations ==> Lookup(p.annotations, k) == t.annotations[k]
    {
      SyncedAnnotation(n, pod, t, revision, k);
      MergeAt(pod.annotations, Recorded(pod.annotations, n.annotationKeysKey),
              ManagedAnnotationKeys(n, t.annotations), t.annotations, k);
    }
  }

  lemma {:induction false} MergeTwice(current: StringMap, recorded: set<string>, managed: set<string>, template: StringMap)
    ensures var m := Merge(current, recorded, managed, template);
            Merge(m, managed, managed, template) == m
  {
  }

  /** Synchronising again with the same template changes nothing. */
  lemma {:induction false} SyncedTwice(n: KeyNames, pod: Pod, t: Template, revision: string)
    requires n.Distinct() && PlainKeys(n, t)
    ensures Synced(n, Synced(n, pod, t, revision), t, revision) == Synced(n, pod, t, revision)
  {
    SyncedRecords(n, pod, t, revision);
    var p := Synced(n, pod, t, revision);
    var q := Synced(n, p, t, revision);
    MergeTwice(pod.labels, Recorded(pod.annotations, n.labelKeysKey), ManagedLabelKeys(n, t.labels), t.labels);
    assert q.labels == p.labels;
    forall k
      ensures k in q.annotations <==> k in p.annotations
      ensures k in p.annotations ==> q.annotations[k] == p.annotations[k]
    {
      SyncedAnnotation(n, pod, t, revision, k);
      SyncedAnnotation(n, p, t, revision, k);
      var managed := ManagedAnnotationKeys(n, t.annotations);
      MergeAt(pod.annotations, Recorded(pod.annotations, n.annotationKeysKey), managed, t.annotations, k);
      MergeAt(p.annotations, managed, managed, t.annotations, k);
    }
    assert q.annotations == p.annotations;
  }

  /* ----- History ----- */

  datatype Sync = Sync(template: Template, revision: string)

  predicate CleanSync(n: KeyNames, s: Sync) {
    PlainKeys(n, s.template) && s.template.annotations.Keys !! n.Internal()
  }

  function Replay(n: KeyNames, pod: Pod, history: seq<Sync>): Pod {
    if history == [] then pod
    else
      var last := |history| - 1;
      Synced(n, Replay(n, pod, history[..last]), history[last].template, history[last].revision)
  }

  /** What a key must hold after templates values[0..n), given what it held before. */
  ghost predicate HeldBy(before: StringMap, after: StringMap, values: seq<StringMap>, k: string) {
    var n := |values|;
    && (n > 0 && k in values[n - 1] ==> k in after && after[k] == values[n - 1][k])
    && (n > 0 && k !in values[n - 1] && (exists i :: 0 <= i < n && k in values[i]) ==> k !in after)
    && ((forall i :: 0 <= i < n ==> k !in values[i]) ==>
        (k in after <==> k in before) && (k in before ==> after[k] == before[k]))
  }

  function LabelsOf(history: seq<Sync>): (r: seq<StringMap>)
    ensures |r| == |history| && forall i :: 0 <= i < |r| ==> r[i] == history[i].template.labels
  {
    seq(|history|, i requires 0 <= i < |history| => history[i].template.labels)
  }

  function AnnotationsOf(history: seq<Sync>): (r: seq<StringMap>)
    ensures |r| == |history| && forall i :: 0 <= i < |r| ==> r[i] == history[i].template.annotations
  {
    seq(|history|, i requires 0 <= i < |history| => history[i].template.annotations)
  }

  /** The Pod starts without records, as one that no template has been applied to. */
  predicate Unrecorded(n: KeyNames, pod: Pod) {
    n.labelKeysKey !in pod.annotations && n.annotationKeysKey !in pod.annotations
  }

  function RecordedAfter(values: seq<StringMap>, unmanaged: set<string>): set<string> {
    if values == [] then {} else values[|values| - 1].Keys - unmanaged
  }

  /** What the Pod remembers after a history is what its last template contributed. */
  lemma {:induction false} ReplayRecords(n: KeyNames, pod: Pod, history: seq<Sync>)
    requires n.Distinct() && Unrecorded(n, pod)
    requires forall i :: 0 <= i < |history| ==> CleanSync(n, history[i])
    ensures var p := Replay(n, pod, history);
            && Recorded(p.annotations, n.labelKeysKey) == RecordedAfter(LabelsOf(history), {n.structuralLabel})
            && Recorded(p.annotations, n.annotationKeysKey) == RecordedAfter(AnnotationsOf(history), n.Internal())
  {
    if history != [] {
      var last := |history| - 1;
      SyncedRecords(n, Replay(n, pod, history[..last]), history[last].template, history[last].revision);
    }
  }

  /** Merging a sequence of template maps, each time recording the keys just taken over, except the
      unmanaged ones. */
  function MergeAll(before: StringMap, values: seq<StringMap>, unmanaged: set<string>): StringMap {
    if values == [] then before
    else
      var last := |values| - 1;
      Merge(MergeAll(before, values[..last], unmanaged), RecordedAfter(values[..last], unmanaged),
            values[last].Keys - unmanaged, values[last])
  }

  /** The account of a key is kept by every merge. */
  lemma {:induction false} MergeAllHolds(before: StringMap, values: seq<StringMap>, unmanaged: set<string>, k: string)
    requires k !in unmanaged
    ensures HeldBy(before, MergeAll(before, values, unmanaged), values, k)
  {
    if values != [] {
      var last := |values| - 1;
      MergeAllHolds(before, values[..last], unmanaged, k);
      MergeAt(MergeAll(before, values[..last], unmanaged), RecordedAfter(values[..last], unmanaged),
              values[last].Keys - unmanaged, values[last], k);
    }
  }

  /** The key is in the last of the maps that have it at i. */
  predicate LastSetAt(values: seq<StringMap>, k: string, i: nat) {
    i < |values| && k in values[i] && forall j :: i < j < |values| ==> k !in values[j]
  }

  /** What a key that is never dropped must hold: the last value given, or what it held before. */
  ghost predicate HeldForGood(before: StringMap, after: StringMap, values: seq<StringMap>, k: string) {
    && (forall i: nat :: LastSetAt(values, k, i) ==> k in after && after[k] == values[i][k])
    && ((forall i :: 0 <= i < |values| ==> k !in values[i]) ==>
        (k in after <==> k in before) && (k in before ==> after[k] == before[k]))
    && (k in before ==> k in after)
  }

  lemma {:induction false} HeldForGoodStep(before: StringMap, was: StringMap, now: StringMap, values: seq<StringMap>, k: string)
    requires values != [] && HeldForGood(before, was, values[..|values| - 1], k)
    requires var v := values[|values| - 1];
      && (k in now <==> k in v || k in was) && (k in now ==> now[k] == if k in v then v[k] else was[k])
    ensures HeldForGood(before, now, values, k)
  {
    var last := |values| - 1;
    forall i: nat | LastSetAt(values, k, i)
      ensures k in now && now[k] == values[i][k]
    {
      if i < last {
        assert k !in values[last] && LastSetAt(values[..last], k, i);
      }
    }
    if forall i :: 0 <= i < |values| ==> k !in values[i] {
      assert k !in values[last];
      assert forall i :: 0 <= i < last ==> values[..last][i] == values[i];
    }
  }

  /** An unmanaged key is never dropped. */
  lemma {:induction false} UnmanagedHolds(before: StringMap, values: seq<StringMap>, unmanaged: set<string>, k: string)
    requires k in unmanaged
    ensures HeldForGood(before, MergeAll(before, values, unmanaged), values, k)
  {
    if values != [] {
      var last := |values| - 1;
      var was := MergeAll(before, values[..last], unmanaged);
      UnmanagedHolds(before, values[..last], unmanaged, k);
      MergeAt(was, RecordedAfter(values[..last], unmanaged), values[last].Keys - unmanaged, values[last], k);
      HeldForGoodStep(before, was, MergeAll(before, values, unmanaged), values, k);
    }
  }

  /** Merging one more template onto what the earlier ones left. */
  lemma {:induction false} MergeAllStep(before: StringMap, values: seq<StringMap>, unmanaged: set<string>,
                                        current: StringMap, recorded: set<string>)
    requires values != [] && current == MergeAll(before, values[..|values| - 1], unmanaged)
    requires recorded == RecordedAfter(values[..|values| - 1], unmanaged)
    ensures var last := |values| - 1;
            MergeAll(before, values, unmanaged) == Merge(current, recorded, values[last].Keys - unmanaged, values[last])
  {
  }

  lemma {:induction false} ReplayStep(n: KeyNames, pod: Pod, history: seq<Sync>)
    requires history != []
    ensures var last := |history| - 1;
            var p, t := Replay(n, pod, history[..last]), history[last].template;
            && Replay(n, pod, history) == Synced(n, p, t, history[last].revision)
            && Replay(n, pod, history).labels ==
               Merge(p.labels, Recorded(p.annotations, n.labelKeysKey), t.labels.Keys - {n.structuralLabel}, t.labels)
  {
  }

  /** The Pod's labels after a history are the merged template labels. */
  lemma {:induction false} ReplayedLabels(n: KeyNames, pod: Pod, history: seq<Sync>)
    requires n.Distinct() && Unrecorded(n, pod)
    requires forall i :: 0 <= i < |history| ==> CleanSync(n, history[i])
    ensures Replay(n, pod, history).labels == MergeAll(pod.labels, LabelsOf(history), {n.structuralLabel})
  {
    if history != [] {
      var last, values := |history| - 1, LabelsOf(history);
      var p := Replay(n, pod, history[..last]);
      ReplayedLabels(n, pod, history[..last]);
      ReplayRecords(n, pod, history[..last]);
      ReplayStep(n, pod, history);
      assert values[..last] == LabelsOf(history[..last]);
      MergeAllStep(pod.labels, values, {n.structuralLabel}, p.labels, Recorded(p.annotations, n.labelKeysKey));
    }
  }

  lemma {:induction false} MergeAgrees(a: StringMap, b: StringMap, recorded: set<string>, managed: set<string>,
                                       template: StringMap, k: string)
    requires SameAt(a, b, k)
    ensures SameAt(Merge(a, recorded, managed, template), Merge(b, recorded, managed, template), k)
  {
    MergeAt(a, recorded, managed, template, k);
    MergeAt(b, recorded, managed, template, k);
  }

  /** Synchronising a Pod does to an annotation that is not internal what merging does. */
  lemma {:induction false} SyncedAgrees(n: KeyNames, pod: Pod, t: Template, revision: string, m: StringMap,
                                        recorded: set<string>, k: string)
    requires n.Distinct() && k !in n.Internal() && SameAt(pod.annotations, m, k)
    requires recorded == Recorded(pod.annotations, n.annotationKeysKey)
    ensures SameAt(Synced(n, pod, t, revision).annotations,
                    Merge(m, recorded, ManagedAnnotationKeys(n, t.annotations), t.annotations), k)
  {
    SyncedAnnotation(n, pod, t, revision, k);
    MergeAgrees(pod.annotations, m, recorded, ManagedAnnotationKeys(n, t.annotations), t.annotations, k);
  }

  /** So are its annotations, apart from the internal ones. */
  lemma {:induction false} ReplayedAnnotation(n: KeyNames, pod: Pod, history: seq<Sync>, k: string)
    requires n.Distinct() && Unrecorded(n, pod) && k !in n.Internal()
    requires forall i :: 0 <= i < |history| ==> CleanSync(n, history[i])
    ensures SameAt(Replay(n, pod, history).annotations,
                    MergeAll(pod.annotations, AnnotationsOf(history), n.Internal()), k)
  {
    if history != [] {
      var last, values := |history| - 1, AnnotationsOf(history);
      var p, s := Replay(n, pod, history[..last]), history[last];
      var m, recorded := MergeAll(pod.annotations, values[..last], n.Internal()), Recorded(p.annotations, n.annotationKeysKey);
      assert values[..last] == AnnotationsOf(history[..last]);
      ReplayedAnnotation(n, pod, history[..last], k);
      ReplayRecords(n, pod, history[..last]);
      SyncedAgrees(n, p, s.template, s.revision, m, recorded, k);
      MergeAllStep(pod.annotations, values, n.Internal(), m, recorded);
      ReplayStep(n, pod, history);
    }
  }

  /** Metadata history: after any templates, each label other than the structural one, and each annotation
      other than the internal ones, has the last template's value, is gone if only an earlier template had
      it, and is as it was if none did. */
  lemma {:induction false} MetadataHistory(n: KeyNames, pod: Pod, history: seq<Sync>, k: string)
    requires n.Distinct() && Unrecorded(n, pod)
    requires forall i :: 0 <= i < |history| ==> CleanSync(n, history[i])
    ensures k != n.structuralLabel ==>
      HeldBy(pod.labels, Replay(n, pod, history).labels, LabelsOf(history), k)
    ensures k !in n.Internal() ==>
      HeldBy(pod.annotations, Replay(n, pod, history).annotations, AnnotationsOf(history), k)
  {
    if k != n.structuralLabel {
      ReplayedLabels(n, pod, history);
      MergeAllHolds(pod.labels, LabelsOf(history), {n.structuralLabel}, k);
    }
    if k !in n.Internal() {
      ReplayedAnnotation(n, pod, history, k);
      MergeAllHolds(pod.annotations, AnnotationsOf(history), n.Internal(), k);
    }
  }

  /** The structural label is never recorded, so it is never removed, whoever set it: it has the value of the
      last template that sets it, and is as it was before when none does. */
  lemma {:induction false} StructuralLabelStays(n: KeyNames, pod: Pod, history: seq<Sync>)
    requires n.Distinct() && Unrecorded(n, pod)
    requires forall i :: 0 <= i < |history| ==> CleanSync(n, history[i])
    ensures HeldForGood(pod.labels, Replay(n, pod, history).labels, LabelsOf(history), n.structuralLabel)
  {
    ReplayedLabels(n, pod, history);
    UnmanagedHolds(pod.labels, LabelsOf(history), {n.structuralLabel}, n.structuralLabel);
  }

  /** Reapplying the last template of a history changes nothing. */
  lemma {:induction false} ReplayIsIdempotent(n: KeyNames, pod: Pod, history: seq<Sync>)
    requires n.Distinct() && history != [] && CleanSync(n, history[|history| - 1])
    ensures Replay(n, pod, history + [history[|history| - 1]]) == Replay(n, pod, history)
  {
    var last := |history| - 1;
    var s := history[last];
    assert (history + [s])[..last + 1] == history;
    SyncedTwice(n, Replay(n, pod, history[..last]), s.template, s.revision);
  }
}
