/**
 Setting and checking the in-place fields of containers by name: images, and regular-container CPU and
 memory. A name is looked up as the controllers do, the last container of that name winning.
 */
module Containers {
  import opened Results
  import opened Workload

  /** The in-place fields of a container. */
  datatype Aspect = Image | CpuAndMemory

  /** c with the aspect taken from d; every other field, and every other resource name, stays. */
  function Take(a: Aspect, c: Container, d: Container): Container {
    match a
    case Image => c.(image := d.image)
    case CpuAndMemory =>
      var fixed, desired := FixedPart(c.resources), ResizablePart(d.resources);
      c.(resources := Resources(fixed.requests + desired.requests, fixed.limits + desired.limits))
  }

  predicate Same(a: Aspect, c: Container, d: Container) {
    match a
    case Image => c.image == d.image
    case CpuAndMemory => ResizablePart(c.resources) == ResizablePart(d.resources)
  }

  lemma {:induction false} TakeIsTaken(a: Aspect, c: Container, d: Container)
    ensures Same(a, Take(a, c, d), d) && Take(a, c, d).name == c.name
    ensures Take(a, c, d).rest == c.rest
    ensures a.Image? ==> Take(a, c, d).resources == c.resources
    ensures a.CpuAndMemory? ==>
      Take(a, c, d).image == c.image && FixedPart(Take(a, c, d).resources) == FixedPart(c.resources)
  {
    if a.CpuAndMemory? {
      var r, d' := Take(a, c, d).resources, ResizablePart(d.resources);
      assert ResizablePart(r).requests == d'.requests;
      assert ResizablePart(r).limits == d'.limits;
      assert FixedPart(r).requests == FixedPart(c.resources).requests;
      assert FixedPart(r).limits == FixedPart(c.resources).limits;
    }
  }

  /** The position of the last container of that name, or |cs|. */
  function IndexOf(cs: seq<Container>, name: string): (r: nat)
    ensures r <= |cs|
    ensures r < |cs| ==> cs[r].name == name
    ensures forall k :: (if r == |cs| then 0 else r + 1) <= k < |cs| ==> cs[k].name != name
  {
    if cs == [] then 0
    else
      var last := |cs| - 1;
      if cs[last].name == name then last
      else
        var r := IndexOf(cs[..last], name);
        if r == last then last + 1 else r
  }

  /** The lookup in a prefix that grows by one container. */
  lemma {:induction false} IndexOfStep(cs: seq<Container>, i: nat, name: string)
    requires i < |cs|
    ensures IndexOf(cs[..i + 1], name) ==
            if cs[i].name == name then i
            else if IndexOf(cs[..i], name) == i then i + 1 else IndexOf(cs[..i], name)
  {
    assert cs[..i + 1][..i] == cs[..i];
  }

  predicate Has(cs: seq<Container>, name: string) {
    IndexOf(cs, name) < |cs|
  }

  lemma {:induction false} HasMeansPresent(cs: seq<Container>, name: string)
    ensures Has(cs, name) <==> exists i :: 0 <= i < |cs| && cs[i].name == name
  {
  }

  /** The lookup depends on the names only. */
  lemma {:induction false} IndexOfByNames(cs: seq<Container>, ds: seq<Container>, name: string)
    requires |cs| == |ds| && forall i :: 0 <= i < |cs| ==> cs[i].name == ds[i].name
    ensures IndexOf(cs, name) == IndexOf(ds, name)
  {
    if cs != [] {
      IndexOfByNames(cs[..|cs| - 1], ds[..|cs| - 1], name);
    }
  }

  /** Sets one aspect of every desired container in turn; a name missing from the Pod is an error. */
  function SetAll(a: Aspect, current: seq<Container>, desired: seq<Container>): Result<seq<Container>> {
    if desired == [] then Ok(current)
    else
      var last := |desired| - 1;
      match SetAll(a, current, desired[..last])
      case Err(e) => Err(e)
      case Ok(cs) =>
        var i := IndexOf(cs, desired[last].name);
        if i == |cs| then Err(desired[last].name)
        else Ok(cs[i := Take(a, cs[i], desired[last])])
  }

  /** What the setter leaves in the containers: everything set up to the first missing name. */
  function Written(a: Aspect, current: seq<Container>, desired: seq<Container>): (r: seq<Container>)
    ensures SetAll(a, current, desired).Ok? ==> r == SetAll(a, current, desired).value
  {
    if SetAll(a, current, desired).Ok? then SetAll(a, current, desired).value
    else if desired == [] then current
    else Written(a, current, desired[..|desired| - 1])
  }

  /** The Pod's container of each desired name agrees with it. */
  predicate HasAll(a: Aspect, current: seq<Container>, desired: seq<Container>) {
    forall i :: 0 <= i < |desired| ==> Agrees(a, current, desired[i])
  }

  /** A missing container reads as one without an image; for resources it never agrees. */
  predicate Agrees(a: Aspect, current: seq<Container>, d: Container) {
    if Has(current, d.name) then Same(a, current[IndexOf(current, d.name)], d)
    else a.Image? && d.image == ""
  }

  /* ----- The loops ----- */

  method IndexByName(cs: seq<Container>) returns (byName: map<string, nat>)
    ensures forall name :: name in byName <==> Has(cs, name)
    ensures forall name :: name in byName ==> byName[name] == IndexOf(cs, name)
  {
    byName := map[];
    for i := 0 to |cs|
      invariant forall name :: name in byName <==> Has(cs[..i], name)
      invariant forall name :: name in byName ==> byName[name] == IndexOf(cs[..i], name)
    {
      forall name {
        IndexOfStep(cs, i, name);
      }
      byName := byName[cs[i].name := i];
    }
    assert cs[..|cs|] == cs;
  }

  /** Sets the images by name, in order, up to a name the Pod does not have. */
  method SetContainerImages(current: seq<Container>, desired: seq<Container>) returns (cs: seq<Container>, missing: bool)
    ensures missing == SetAll(Image, current, desired).Err? && cs == Written(Image, current, desired)
  {
    var byName := IndexByName(current);
    cs := current;
    for i := 0 to |desired|
      invariant |cs| == |current| && forall k :: 0 <= k < |cs| ==> cs[k].name == current[k].name
      invariant SetAll(Image, current, desired[..i]) == Ok(cs)
    {
      assert desired[..i + 1][..i] == desired[..i];
      IndexOfByNames(cs, current, desired[i].name);
      if desired[i].name !in byName {
        WrittenStops(Image, current, desired, i);
        return cs, true;
      }
      var index := byName[desired[i].name];
      cs := cs[index := cs[index].(image := desired[i].image)];
    }
    assert desired[..|desired|] == desired;
    return cs, false;
  }

  /** Deletes CPU and memory from a container's requests and limits and copies in the desired ones. */
  method SetResizableResources(current: Container, desired: Container) returns (c: Container)
    ensures c == Take(CpuAndMemory, current, desired)
  {
    var requests := current.resources.requests - {CPU, MEMORY};
    var limits := current.resources.limits - {CPU, MEMORY};
    var wanted := ResizablePart(desired.resources);
    assert requests == FixedPart(current.resources).requests;
    assert limits == FixedPart(current.resources).limits;
    c := current.(resources := Resources(requests + wanted.requests, limits + wanted.limits));
  }

  /** Sets CPU and memory by name, in order, up to a name the Pod does not have. */
  method SetPodResizableResources(current: seq<Container>, desired: seq<Container>)
    returns (cs: seq<Container>, missing: bool)
    ensures missing == SetAll(CpuAndMemory, current, desired).Err? && cs == Written(CpuAndMemory, current, desired)
  {
    var byName := IndexByName(current);
    cs := current;
    for i := 0 to |desired|
      invariant |cs| == |current| && forall k :: 0 <= k < |cs| ==> cs[k].name == current[k].name
      invariant SetAll(CpuAndMemory, current, desired[..i]) == Ok(cs)
    {
      assert desired[..i + 1][..i] == desired[..i];
      IndexOfByNames(cs, current, desired[i].name);
      if desired[i].name !in byName {
        WrittenStops(CpuAndMemory, current, desired, i);
        return cs, true;
      }
      var index := byName[desired[i].name];
      var c := SetResizableResources(cs[index], desired[i]);
      cs := cs[index := c];
    }
    assert desired[..|desired|] == desired;
    return cs, false;
  }

  /** The first missing name ends the setting. */
  lemma {:induction false} WrittenStops(a: Aspect, current: seq<Container>, desired: seq<Container>, i: nat)
    requires i < |desired| && SetAll(a, current, desired[..i]).Ok? && SetAll(a, current, desired[..i + 1]).Err?
    ensures SetAll(a, current, desired).Err?
    ensures Written(a, current, desired) == SetAll(a, current, desired[..i]).value
    decreases |desired|
  {
    var last := |desired| - 1;
    SetAllPrefix(a, current, desired, i + 1);
    if i < last {
      assert desired[..last][..i] == desired[..i] && desired[..last][..i + 1] == desired[..i + 1];
      WrittenStops(a, current, desired[..last], i);
    }
  }

  /** An error on a prefix is an error on the whole. */
  lemma {:induction false} SetAllPrefix(a: Aspect, current: seq<Container>, desired: seq<Container>, n: nat)
    requires n <= |desired| && SetAll(a, current, desired[..n]).Err?
    ensures SetAll(a, current, desired).Err?
    decreases |desired|
  {
    if n < |desired| {
      var last := |desired| - 1;
      assert desired[..last][..n] == desired[..n];
      SetAllPrefix(a, current, desired[..last], n);
    } else {
      assert desired[..n] == desired;
    }
  }

  function ImageOf(c: Container): string { c.image }

  function ResizableOf(c: Container): Resources { ResizablePart(c.resources) }

  /** The map holds one value of the last container of each name. */
  ghost predicate Indexes<V>(byName: map<string, V>, cs: seq<Container>, value: Container -> V) {
    && (forall name :: name in byName <==> Has(cs, name))
    && forall name :: name in byName ==> Has(cs, name) && byName[name] == value(cs[IndexOf(cs, name)])
  }

  lemma {:induction false} IndexesStep<V>(byName: map<string, V>, cs: seq<Container>, i: nat, value: Container -> V)
    requires i < |cs| && Indexes(byName, cs[..i], value)
    ensures Indexes(byName[cs[i].name := value(cs[i])], cs[..i + 1], value)
  {
    var m := byName[cs[i].name := value(cs[i])];
    forall name
      ensures name in m <==> Has(cs[..i + 1], name)
      ensures name in m ==> Has(cs[..i + 1], name) && m[name] == value(cs[..i + 1][IndexOf(cs[..i + 1], name)])
    {
      IndexOfStep(cs, i, name);
    }
  }

  method ByName<V>(cs: seq<Container>, value: Container -> V) returns (byName: map<string, V>)
    ensures Indexes(byName, cs, value)
  {
    byName := map[];
    for i := 0 to |cs|
      invariant Indexes(byName, cs[..i], value)
    {
      IndexesStep(byName, cs, i, value);
      byName := byName[cs[i].name := value(cs[i])];
    }
    assert cs[..|cs|] == cs;
  }

  method PodContainersHaveImages(current: seq<Container>, desired: seq<Container>) returns (ok: bool)
    ensures ok == HasAll(Image, current, desired)
  {
    var images := ByName(current, ImageOf);
    for i := 0 to |desired|
      invariant forall j :: 0 <= j < i ==> Agrees(Image, current, desired[j])
    {
      if Lookup(images, desired[i].name) != desired[i].image {
        assert !Agrees(Image, current, desired[i]);
        return false;
      }
    }
    return true;
  }

  method PodHasResizableResources(current: seq<Container>, desired: seq<Container>) returns (ok: bool)
    ensures ok == HasAll(CpuAndMemory, current, desired)
  {
    var byName := ByName(current, ResizableOf);
    for i := 0 to |desired|
      invariant forall j :: 0 <= j < i ==> Agrees(CpuAndMemory, current, desired[j])
    {
      var name := desired[i].name;
      if name !in byName || byName[name] != ResizablePart(desired[i].resources) {
        assert !Agrees(CpuAndMemory, current, desired[i]);
        return false;
      }
    }
    return true;
  }

  /* ----- The setters establish the checkers ----- */

  /** Desired containers of one name ask for one value. */
  predicate Consistent(a: Aspect, desired: seq<Container>) {
    forall i, j :: 0 <= i < j < |desired| && desired[i].name == desired[j].name ==> Same(a, desired[i], desired[j])
  }

  /** A successful set keeps the number and names of the containers. */
  lemma {:induction false} SetAllKeepsNames(a: Aspect, current: seq<Container>, desired: seq<Container>)
    requires SetAll(a, current, desired).Ok?
    ensures SameNames(SetAll(a, current, desired).value, current)
  {
    if desired != [] {
      SetAllKeepsNames(a, current, desired[..|desired| - 1]);
    }
  }

  predicate HasAllNames(cs: seq<Container>, desired: seq<Container>) {
    forall i :: 0 <= i < |desired| ==> Has(cs, desired[i].name)
  }

  lemma {:induction false} HasAllNamesStep(cs: seq<Container>, desired: seq<Container>)
    requires desired != []
    ensures var last := |desired| - 1;
            HasAllNames(cs, desired) <==> HasAllNames(cs, desired[..last]) && Has(cs, desired[last].name)
  {
    var last := |desired| - 1;
    if HasAllNames(cs, desired) {
      forall i | 0 <= i < last
        ensures Has(cs, desired[..last][i].name)
      {
        assert Has(cs, desired[i].name);
      }
    }
    if HasAllNames(cs, desired[..last]) && Has(cs, desired[last].name) {
      forall i | 0 <= i < |desired|
        ensures Has(cs, desired[i].name)
      {
        assert i < last ==> Has(cs, desired[..last][i].name);
      }
    }
  }

  /** The setter fails exactly when a desired name is missing from the Pod; otherwise it keeps the number
      and names of the containers. */
  lemma {:induction false} SetAllSucceeds(a: Aspect, current: seq<Container>, desired: seq<Container>)
    ensures SetAll(a, current, desired).Ok? <==> forall i :: 0 <= i < |desired| ==> Has(current, desired[i].name)
    ensures SetAll(a, current, desired).Ok? ==> SameNames(SetAll(a, current, desired).value, current)
  {
    SetAllOkMeansNames(a, current, desired);
    if SetAll(a, current, desired).Ok? {
      SetAllKeepsNames(a, current, desired);
    }
  }

  lemma {:induction false} SetAllOkMeansNames(a: Aspect, current: seq<Container>, desired: seq<Container>)
    ensures SetAll(a, current, desired).Ok? <==> HasAllNames(current, desired)
  {
    if desired != [] {
      var last := |desired| - 1;
      var before := SetAll(a, current, desired[..last]);
      SetAllOkMeansNames(a, current, desired[..last]);
      HasAllNamesStep(current, desired);
      if before.Ok? {
        SetAllKeepsNames(a, current, desired[..last]);
        IndexOfByNames(before.value, current, desired[last].name);
      }
    }
  }

  /** A failing setter has set exactly the desired containers before the first one whose name is missing. */
  lemma {:induction false} WrittenUpToMissing(a: Aspect, current: seq<Container>, desired: seq<Container>, k: nat)
    requires k < |desired| && !Has(current, desired[k].name)
    requires forall j :: 0 <= j < k ==> Has(current, desired[j].name)
    ensures SetAll(a, current, desired).Err? && SetAll(a, current, desired[..k]).Ok?
    ensures Written(a, current, desired) == SetAll(a, current, desired[..k]).value
  {
    SetAllSucceeds(a, current, desired[..k]);
    SetAllSucceeds(a, current, desired[..k + 1]);
    assert desired[..k + 1][k] == desired[k];
    WrittenStops(a, current, desired, k);
  }

  predicate SameNames(cs: seq<Container>, ds: seq<Container>) {
    |cs| == |ds| && forall k :: 0 <= k < |cs| ==> cs[k].name == ds[k].name
  }

  /** It touches only containers of a desired name, and those only in the aspect: injected containers, other
      fields and other resource names stay. */
  lemma {:induction false} SetAllFrame(a: Aspect, current: seq<Container>, desired: seq<Container>, k: nat)
    requires SetAll(a, current, desired).Ok? && k < |current|
    ensures var cs := SetAll(a, current, desired).value;
      && |cs| == |current|
      && cs[k].name == current[k].name && cs[k].rest == current[k].rest
      && ((forall i :: 0 <= i < |desired| ==> desired[i].name != current[k].name) ==> cs[k] == current[k])
      && OtherAspectKept(a, cs[k], current[k])
  {
    if desired != [] {
      var last := |desired| - 1;
      SetAllFrame(a, current, desired[..last], k);
      var cs := SetAll(a, current, desired[..last]).value;
      var i := IndexOf(cs, desired[last].name);
      TakeIsTaken(a, cs[i], desired[last]);
      assert forall i :: 0 <= i < last ==> desired[..last][i] == desired[i];
    }
  }

  predicate OtherAspectKept(a: Aspect, c: Container, was: Container) {
    match a
    case Image => c.resources == was.resources
    case CpuAndMemory => c.image == was.image && FixedPart(c.resources) == FixedPart(was.resources)
  }

  /** After a successful set, each desired name holds the value of the last desired container of it. */
  lemma {:induction false} SetAllValue(a: Aspect, current: seq<Container>, desired: seq<Container>, d: nat)
    requires SetAll(a, current, desired).Ok? && d < |desired|
    requires forall j :: d < j < |desired| ==> desired[j].name != desired[d].name
    ensures Agrees(a, SetAll(a, current, desired).value, desired[d])
  {
    var last := |desired| - 1;
    var cs, r := SetAll(a, current, desired[..last]).value, SetAll(a, current, desired).value;
    var i := IndexOf(cs, desired[last].name);
    TakeIsTaken(a, cs[i], desired[last]);
    IndexOfByNames(cs, r, desired[d].name);
    if d < last {
      SetAllValue(a, current, desired[..last], d);
    }
  }

  /** Agreement forces desired containers of one name to ask for one value. */
  lemma {:induction false} HasAllIsConsistent(a: Aspect, current: seq<Container>, desired: seq<Container>)
    requires HasAll(a, current, desired) && forall i :: 0 <= i < |desired| ==> Has(current, desired[i].name)
    ensures Consistent(a, desired)
  {
    forall i, j | 0 <= i < j < |desired| && desired[i].name == desired[j].name
      ensures Same(a, desired[i], desired[j])
    {
      assert Agrees(a, current, desired[i]) && Agrees(a, current, desired[j]);
    }
  }

  /** Setting succeeds into agreement exactly when desired containers of one name ask for one value. */
  lemma {:induction false} SetAllEstablishesHasAll(a: Aspect, current: seq<Container>, desired: seq<Container>)
    requires SetAll(a, current, desired).Ok?
    ensures HasAll(a, SetAll(a, current, desired).value, desired) <==> Consistent(a, desired)
  {
    var r := SetAll(a, current, desired).value;
    SetAllSucceeds(a, current, desired);
    if HasAll(a, r, desired) {
      forall i | 0 <= i < |desired|
        ensures Has(r, desired[i].name)
      {
        IndexOfByNames(current, r, desired[i].name);
      }
      HasAllIsConsistent(a, r, desired);
    }
    if Consistent(a, desired) {
      forall i | 0 <= i < |desired|
        ensures Agrees(a, r, desired[i])
      {
        SetAllAgrees(a, current, desired, i);
      }
    }
  }

  lemma {:induction false} SetAllAgrees(a: Aspect, current: seq<Container>, desired: seq<Container>, i: nat)
    requires SetAll(a, current, desired).Ok? && Consistent(a, desired) && i < |desired|
    ensures Agrees(a, SetAll(a, current, desired).value, desired[i])
  {
    var r := SetAll(a, current, desired).value;
    SetAllSucceeds(a, current, desired);
    IndexOfByNames(current, r, desired[i].name);
    var l := IndexOf(desired, desired[i].name);
    assert l < |desired| && i <= l;
    SetAllValue(a, current, desired, l);
    assert i < l ==> Same(a, desired[i], desired[l]);
  }

  /** Setting one aspect leaves agreement in another aspect as it was. */
  lemma {:induction false} SetAllKeepsOther(a: Aspect, b: Aspect, current: seq<Container>, desired: seq<Container>,
                                            wanted: seq<Container>)
    requires a != b && SetAll(a, current, desired).Ok?
    ensures HasAll(b, SetAll(a, current, desired).value, wanted) <==> HasAll(b, current, wanted)
  {
    var r := SetAll(a, current, desired).value;
    SetAllSucceeds(a, current, desired);
    forall i | 0 <= i < |wanted|
      ensures Agrees(b, r, wanted[i]) <==> Agrees(b, current, wanted[i])
    {
      IndexOfByNames(current, r, wanted[i].name);
      var k := IndexOf(current, wanted[i].name);
      if k < |current| {
        SetAllFrame(a, current, desired, k);
        assert b.CpuAndMemory? ==> r[k].resources == current[k].resources;
      }
    }
  }
}
