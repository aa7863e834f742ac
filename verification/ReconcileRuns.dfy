/**
 Runs of Deployment passes while the Deployment is edited in any way between them, status is reported at any
 time and patches may fail: what a ReplicaSet keeps for its whole life.
 */
module ReconcileRuns {
  import opened Arith
  import opened DeploymentController
  import opened Reconcile
  import opened Results
  import opened Revision
  import opened Rollout
  import W = Workload

  /** A pass reads whatever Deployment there is by then; taken says whether its patch was accepted. */
  datatype Event =
    | Pass(d: Deployment, replies: Replies, uid: nat, now: int, taken: bool)
    | Report(i: nat, available: int, observed: int, terminating: int)

  ghost predicate Enabled(sets: seq<Set>, e: Event) {
    match e
    case Pass(_, _, uid, _, _) => forall i :: 0 <= i < |sets| ==> sets[i].view.uid != uid
    case Report(i, available, _, _) => i < |sets| && available >= 0
  }

  function Next(env: Env, sets: seq<Set>, e: Event): seq<Set>
    requires e.Report? ==> e.i < |sets|
  {
    match e
    case Pass(d, replies, uid, now, taken) => if taken then PassOf(env, d, sets, replies, uid, now) else sets
    case Report(i, a, o, t) =>
      sets[i := sets[i].(view := sets[i].view.(available := a, observed := o, terminating := t))]
  }

  ghost predicate Possible(env: Env, sets: seq<Set>, events: seq<Event>)
    decreases |events|
  {
    |events| == 0 || (Enabled(sets, events[0]) && Possible(env, Next(env, sets, events[0]), events[1..]))
  }

  ghost function After(env: Env, sets: seq<Set>, events: seq<Event>): seq<Set>
    requires Possible(env, sets, events)
    decreases |events|
  {
    if |events| == 0 then sets else After(env, Next(env, sets, events[0]), events[1..])
  }

  /* ----- One pass changes one thing ----- */

  /** A pass creates one ReplicaSet, for which it needs a selector, or changes at most one, and then either brings
      the current one up to date or scales one, which it does only with the current one up to date. */
  lemma {:induction false} PassChangesOne(env: Env, d: Deployment, sets: seq<Set>, replies: Replies, uid: nat, now: int)
    ensures var after, current := PassOf(env, d, sets, replies, uid, now), Current(env, d, sets);
      && (current.None? ==> after == if d.selector.Some? then sets + [Created(env, d, uid, now)] else sets)
      && (current.Some? ==> |after| == |sets| && exists i :: ChangedOnlyAt(env, d, sets, after, current.value, i))
  {
    var after, current := PassOf(env, d, sets, replies, uid, now), Current(env, d, sets);
    if current.Some? {
      var c := current.value;
      var decision := DecisionWith(sets, c, d, replies.listing);
      var i := if Synced(env, d, sets[c], ParallelismOf(d, sets)) == sets[c] && decision.Scale? then decision.index else c;
      assert ChangedOnlyAt(env, d, sets, after, c, i);
    }
  }

  ghost predicate ChangedOnlyAt(env: Env, d: Deployment, sets: seq<Set>, after: seq<Set>, c: nat, i: nat)
    requires c < |sets|
  {
    && i < |sets| == |after|
    && after == sets[i := after[i]]
    && (after[i].view != sets[i].view ==>
        && !d.paused && Synced(env, d, sets[c], ParallelismOf(d, sets)) == sets[c]
        && after[i] == sets[i].(view := sets[i].view.(replicas := after[i].view.replicas)))
    && (after[i].view == sets[i].view ==>
        after[i] == sets[i] || (i == c && after[i] == Synced(env, d, sets[c], ParallelismOf(d, sets))))
  }

  /* ----- What a ReplicaSet keeps ----- */

  function PolicyNamed(resourcePolicy: string): W.Policy {
    W.Policy(resourcePolicy == W.BEST_EFFORT)
  }

  function Stamp(env: Env, labels: W.StringMap): Option<string> {
    if env.names.structuralLabel in labels then Some(labels[env.names.structuralLabel]) else None
  }

  /** The structural part of the template is the one the ReplicaSet is labelled with, and selector and template
      both carry its stamp. */
  ghost predicate Faithful(env: Env, s: Set) {
    var n := env.names;
    && Stripped(PolicyNamed(s.revision.resourcePolicy), Clean(n, s.template)) == s.revision.template
    && W.Lookup(Clean(n, s.template).annotations, n.restartedAtKey) == s.revision.templateRestart
    && Stamp(env, s.selector) == Stamp(env, s.template.labels) == Some(env.hash(s.revision))
  }

  ghost predicate WellKept(env: Env, sets: seq<Set>) {
    && DistinctUids(ViewsOf(sets))
    && (forall i :: 0 <= i < |sets| ==> Faithful(env, sets[i]))
    && forall i, j :: 0 <= i < j < |sets| ==> sets[i].revision != sets[j].revision
  }

  /** A template stamped with its own key is faithful to it. */
  lemma {:induction false} StampedIsFaithful(env: Env, d: Deployment, s: Set)
    requires s.revision == KeyOf(env, d) && s.template == Stamped(env.names, d.template, env.hash(KeyOf(env, d)))
    requires Stamp(env, s.selector) == Some(env.hash(s.revision))
    ensures Faithful(env, s)
  {
    StampingKeepsKeys(env.names, d.annotations, W.PolicyFor(d.annotations), d.template, env.hash(KeyOf(env, d)));
    PolicyIsNamed(W.PolicyFor(d.annotations), PolicyNamed(ResourcePolicy(W.PolicyFor(d.annotations))));
    assert PolicyNamed(ResourcePolicy(W.PolicyFor(d.annotations))) == W.PolicyFor(d.annotations);
  }

  /** One ReplicaSet before and after an event. */
  ghost predicate Kept(s: Set, t: Set) {
    t.view.uid == s.view.uid && t.revision == s.revision && t.created == s.created && t.selector == s.selector
  }

  lemma {:induction false} CurrentIsLabelled(env: Env, d: Deployment, sets: seq<Set>)
    ensures var r := Current(env, d, sets);
      && (r.Some? && !d.paused ==> sets[r.value].revision == KeyOf(env, d))
      && (r.None? ==> forall i :: 0 <= i < |sets| ==> sets[i].revision != KeyOf(env, d))
  {
  }

  /** Changing one ReplicaSet into one that is kept and faithful keeps them all well kept. */
  lemma {:induction false} UpdateStaysWellKept(env: Env, sets: seq<Set>, i: nat, s: Set)
    requires WellKept(env, sets) && i < |sets| && Kept(sets[i], s) && Faithful(env, s)
    ensures WellKept(env, sets[i := s])
    ensures forall k :: 0 <= k < |sets| ==> Kept(sets[k], sets[i := s][k])
  {
    forall k | 0 <= k < |sets|
      ensures ViewsOf(sets[i := s])[k].uid == ViewsOf(sets)[k].uid
    {
    }
  }

  lemma {:induction false} AppendStaysWellKept(env: Env, sets: seq<Set>, s: Set)
    requires WellKept(env, sets) && Faithful(env, s)
    requires forall i :: 0 <= i < |sets| ==> sets[i].view.uid != s.view.uid && sets[i].revision != s.revision
    ensures WellKept(env, sets + [s])
  {
    assert ViewsOf(sets + [s]) == ViewsOf(sets) + [s.view];
    assert forall i :: 0 <= i < |sets| ==> ViewsOf(sets)[i].uid != s.view.uid;
  }

  /** The one ReplicaSet a pass changes stays faithful. */
  lemma {:induction false} ChangedStaysFaithful(env: Env, d: Deployment, sets: seq<Set>, after: seq<Set>, c: nat, i: nat)
    requires Current(env, d, sets) == Some(c) && ChangedOnlyAt(env, d, sets, after, c, i)
    requires Faithful(env, sets[i])
    ensures Kept(sets[i], after[i]) && Faithful(env, after[i])
  {
    CurrentIsLabelled(env, d, sets);
    var s := Synced(env, d, sets[c], ParallelismOf(d, sets));
    if after[i].view == sets[i].view && after[i] != sets[i] && !d.paused {
      StampedIsFaithful(env, d, s);
    }
  }

  lemma {:induction false} PassStaysWellKept(env: Env, d: Deployment, sets: seq<Set>, replies: Replies, uid: nat, now: int)
    requires WellKept(env, sets) && forall i :: 0 <= i < |sets| ==> sets[i].view.uid != uid
    ensures var after := PassOf(env, d, sets, replies, uid, now);
      && WellKept(env, after) && |sets| <= |after|
      && forall i :: 0 <= i < |sets| ==> Kept(sets[i], after[i])
  {
    var after, current := PassOf(env, d, sets, replies, uid, now), Current(env, d, sets);
    PassChangesOne(env, d, sets, replies, uid, now);
    if current.None? {
      CurrentIsLabelled(env, d, sets);
      if d.selector.Some? {
        StampedIsFaithful(env, d, Created(env, d, uid, now));
        AppendStaysWellKept(env, sets, Created(env, d, uid, now));
      }
    } else {
      var i: nat :| ChangedOnlyAt(env, d, sets, after, current.value, i);
      ChangedStaysFaithful(env, d, sets, after, current.value, i);
      UpdateStaysWellKept(env, sets, i, after[i]);
    }
  }

  lemma {:induction false} NextStaysWellKept(env: Env, sets: seq<Set>, e: Event)
    requires WellKept(env, sets) && Enabled(sets, e)
    ensures var after := Next(env, sets, e);
      && WellKept(env, after) && |sets| <= |after|
      && forall i :: 0 <= i < |sets| ==> Kept(sets[i], after[i])
  {
    match e
    case Pass(d, replies, uid, now, _) => PassStaysWellKept(env, d, sets, replies, uid, now);
    case Report(i, _, _, _) => assert Faithful(env, sets[i]);
  }

  lemma {:induction false} RunStaysWellKept(env: Env, sets: seq<Set>, events: seq<Event>)
    requires WellKept(env, sets) && Possible(env, sets, events)
    ensures var after := After(env, sets, events);
      && WellKept(env, after) && |sets| <= |after|
      && forall i :: 0 <= i < |sets| ==> Kept(sets[i], after[i])
    decreases |events|
  {
    if |events| > 0 {
      NextStaysWellKept(env, sets, events[0]);
      RunStaysWellKept(env, Next(env, sets, events[0]), events[1..]);
    }
  }

  /** However the Deployment is edited, paused, flipped or rolled back, the template of a ReplicaSet changes
      only in labels, annotations other than the restart, images and, under the policy it was made for, the
      CPU and memory of regular containers: no Pod ever has to take a structural change in place. */
  lemma {:induction false} TemplatesChangeOnlyInPlace(env: Env, sets: seq<Set>, events: seq<Event>, i: nat)
    requires WellKept(env, sets) && Possible(env, sets, events) && i < |sets| && env.names.Distinct()
    ensures var after := After(env, sets, events);
      && |sets| <= |after| && after[i].revision == sets[i].revision
      && StructurallySame(sets[i].template, after[i].template, sets[i].revision.resourcePolicy == "best-effort")
      && W.Lookup(sets[i].template.annotations, env.names.restartedAtKey)
         == W.Lookup(after[i].template.annotations, env.names.restartedAtKey)
  {
    RunStaysWellKept(env, sets, events);
    var s, t := sets[i], After(env, sets, events)[i];
    assert Faithful(env, s) && Faithful(env, t) && Kept(s, t);
    StrippedSees(PolicyNamed(s.revision.resourcePolicy), Clean(env.names, s.template), Clean(env.names, t.template));
    RestartSurvivesCleaning(env.names, s.template);
    RestartSurvivesCleaning(env.names, t.template);
  }

  /** A revision keeps its ReplicaSet: whatever happened in between, rolling back to it selects the same one. */
  lemma {:induction false} RollbackReusesReplicaSet(env: Env, sets: seq<Set>, events: seq<Event>, d: Deployment, i: nat)
    requires WellKept(env, sets) && Possible(env, sets, events) && i < |sets| && sets[i].revision == KeyOf(env, d)
    ensures Current(env, d, After(env, sets, events)) == Some(i)
  {
    RunStaysWellKept(env, sets, events);
    var after := After(env, sets, events);
    assert Kept(sets[i], after[i]);
    FirstLabelledIs(after, KeyOf(env, d), i);
  }

  predicate Matches(selector: W.StringMap, labels: W.StringMap) {
    forall k :: k in selector ==> k in labels && labels[k] == selector[k]
  }

  /** After any run no Pod can match the selectors of two ReplicaSets of the Deployment, so they never compete
      for one. */
  lemma {:induction false} SelectorsAreDisjoint(env: Env, sets: seq<Set>, events: seq<Event>, i: nat, j: nat, labels: W.StringMap)
    requires WellKept(env, sets) && Possible(env, sets, events) && forall a, b :: env.hash(a) == env.hash(b) ==> a == b
    requires i < j < |After(env, sets, events)|
    ensures var after := After(env, sets, events); !(Matches(after[i].selector, labels) && Matches(after[j].selector, labels))
  {
    RunStaysWellKept(env, sets, events);
    var after, k := After(env, sets, events), env.names.structuralLabel;
    assert Faithful(env, after[i]) && Faithful(env, after[j]) && after[i].revision != after[j].revision;
    assert env.hash(after[i].revision) != env.hash(after[j].revision);
    assert after[i].selector[k] != after[j].selector[k];
  }

  /* ----- Pausing ----- */

  ghost predicate AllPaused(events: seq<Event>) {
    forall k :: 0 <= k < |events| && events[k].Pass? ==> events[k].d.paused
  }

  /** Neither template nor replicas changed, and no update slot was given. */
  ghost predicate SameWorkload(s: Set, t: Set) {
    t.template == s.template && t.view.replicas == s.view.replicas && t.parallelism in {s.parallelism, 0}
  }

  lemma {:induction false} PausedNextIsFrozen(env: Env, sets: seq<Set>, e: Event)
    requires sets != [] && Enabled(sets, e) && (e.Pass? ==> e.d.paused)
    ensures var after := Next(env, sets, e);
      |after| == |sets| && forall i :: 0 <= i < |sets| ==> SameWorkload(sets[i], after[i])
  {
    if e.Pass? && e.taken {
      var after, current := Next(env, sets, e), Current(env, e.d, sets);
      PassChangesOne(env, e.d, sets, e.replies, e.uid, e.now);
      var i: nat :| ChangedOnlyAt(env, e.d, sets, after, current.value, i);
      assert SameWorkload(sets[i], after[i]);
    }
  }

  /** While the Deployment is paused no ReplicaSet is added, scaled, given another template or an update slot. */
  lemma {:induction false} PausedRunIsFrozen(env: Env, sets: seq<Set>, events: seq<Event>)
    requires sets != [] && Possible(env, sets, events) && AllPaused(events)
    ensures var after := After(env, sets, events);
      |after| == |sets| && forall i :: 0 <= i < |sets| ==> SameWorkload(sets[i], after[i])
    decreases |events|
  {
    if |events| > 0 {
      PausedNextIsFrozen(env, sets, events[0]);
      var next := Next(env, sets, events[0]);
      PausedRunIsFrozen(env, next, events[1..]);
      forall i | 0 <= i < |sets|
        ensures SameWorkload(sets[i], After(env, sets, events)[i])
      {
        assert SameWorkload(sets[i], next[i]);
      }
    }
  }

  /** Once a paused pass has been carried out, the ReplicaSet current to it has no update slot for as long as the
      Deployment stays paused, whatever happens meanwhile. */
  lemma {:induction false} PausedMeansNoSlots(env: Env, sets: seq<Set>, events: seq<Event>)
    requires sets != [] && Possible(env, sets, events) && AllPaused(events)
    requires |events| > 0 && events[0].Pass? && events[0].taken
    ensures var current := Current(env, events[0].d, sets);
      current.Some? && current.value < |After(env, sets, events)|
      && After(env, sets, events)[current.value].parallelism == 0
  {
    var next, c := Next(env, sets, events[0]), Current(env, events[0].d, sets).value;
    PausedNextIsFrozen(env, sets, events[0]);
    assert next[c].parallelism == 0;
    PausedRunIsFrozen(env, next, events[1..]);
    assert SameWorkload(next[c], After(env, sets, events)[c]);
  }

  /* ----- The surge across revisions ----- */

  lemma {:induction false} ViewsOfScaled(sets: seq<Set>, decision: Decision)
    requires decision.Scale? ==> decision.index < |sets|
    ensures ViewsOf(Scaled(sets, decision)) == Apply(ViewsOf(sets), decision)
  {
  }

  lemma {:induction false} TotalOfAppend(vs: seq<View>, v: View)
    ensures Total(vs + [v]) == Total(vs) + v.replicas
  {
    assert (vs + [v])[..|vs|] == vs;
  }

  ghost predicate Sane(sets: seq<Set>) {
    DistinctUids(ViewsOf(sets)) && NonNegative(ViewsOf(sets))
  }

  lemma {:induction false} ScalingKeepsSurge(d: Deployment, sets: seq<Set>, c: nat)
    requires Sane(sets) && c < |sets| && d.strategy.RollingUpdate? && ResolvedFenceposts(d.strategy)
    ensures var after := Scaled(sets, RollingDecision(ViewsOf(sets), c, RollingLimits(d.strategy, d.desired)));
      Sane(after) && Total(ViewsOf(after)) <= Max(Total(ViewsOf(sets)), d.desired + d.strategy.maxSurge)
  {
    var vs, lim := ViewsOf(sets), RollingLimits(d.strategy, d.desired);
    StepShape(vs, c, lim);
    StepKeepsBudgets(vs, c, lim);
    ViewsOfScaled(sets, RollingDecision(vs, c, lim));
  }

  lemma {:induction false} AppendKeepsTotal(sets: seq<Set>, s: Set)
    requires Sane(sets) && s.view.replicas == 0 && s.view.available == 0
    requires forall i :: 0 <= i < |sets| ==> sets[i].view.uid != s.view.uid
    ensures Sane(sets + [s]) && Total(ViewsOf(sets + [s])) == Total(ViewsOf(sets))
  {
    var vs := ViewsOf(sets);
    assert ViewsOf(sets + [s]) == vs + [s.view];
    TotalOfAppend(vs, s.view);
    assert forall i :: 0 <= i < |vs| ==> vs[i].uid != s.view.uid;
  }

  /** A pass never lets the specs sum to more than before or than desired plus surge. */
  lemma {:induction false} PassKeepsSurge(env: Env, d: Deployment, sets: seq<Set>, replies: Replies, uid: nat, now: int)
    requires Sane(sets) && d.strategy.RollingUpdate? && ResolvedFenceposts(d.strategy)
    requires forall i :: 0 <= i < |sets| ==> sets[i].view.uid != uid
    ensures var after := PassOf(env, d, sets, replies, uid, now);
      Sane(after) && Total(ViewsOf(after)) <= Max(Total(ViewsOf(sets)), d.desired + d.strategy.maxSurge)
  {
    var vs, current := ViewsOf(sets), Current(env, d, sets);
    if current.None? {
      if d.selector.Some? {
        AppendKeepsTotal(sets, Created(env, d, uid, now));
      }
    } else {
      var s := Synced(env, d, sets[current.value], ParallelismOf(d, sets));
      assert ViewsOf(sets[current.value := s]) == vs;
      ScalingKeepsSurge(d, sets, current.value);
    }
  }

  lemma {:induction false} ReportKeepsTotal(sets: seq<Set>, i: nat, view: View)
    requires Sane(sets) && i < |sets| && view.available >= 0
    requires view.uid == sets[i].view.uid && view.replicas == sets[i].view.replicas
    ensures var after := sets[i := sets[i].(view := view)];
      Sane(after) && Total(ViewsOf(after)) == Total(ViewsOf(sets))
  {
    assert ViewsOf(sets[i := sets[i].(view := view)]) == ViewsOf(sets)[i := view];
    assert ViewsOf(sets)[i] == sets[i].view;
    SumUpdate(ViewsOf(sets), Spec, i, view);
  }

  /** Every pass of the run rolls with the same size and strategy; the template may change at will. */
  ghost predicate SameSize(events: seq<Event>, desired: nat, s: Strategy) {
    forall k :: 0 <= k < |events| && events[k].Pass? ==> events[k].d.desired == desired && events[k].d.strategy == s
  }

  /** The surge holds across revisions: however often the template is changed or rolled back while a rollout
      is still going on, and whatever status is reported, the specs of all ReplicaSets never sum to more than
      at the start or than desired + maxSurge. */
  lemma {:induction false} SurgeSurvivesRollover(env: Env, sets: seq<Set>, events: seq<Event>, desired: nat, s: Strategy)
    requires Sane(sets) && Possible(env, sets, events) && SameSize(events, desired, s)
    requires s.RollingUpdate? && ResolvedFenceposts(s)
    ensures Total(ViewsOf(After(env, sets, events))) <= Max(Total(ViewsOf(sets)), desired + s.maxSurge)
    decreases |events|
  {
    if |events| > 0 {
      var next := Next(env, sets, events[0]);
      match events[0] {
        case Pass(d, replies, uid, now, _) => PassKeepsSurge(env, d, sets, replies, uid, now);
        case Report(i, _, _, _) => ReportKeepsTotal(sets, i, next[i].view);
      }
      SurgeSurvivesRollover(env, next, events[1..], desired, s);
    }
  }
}
