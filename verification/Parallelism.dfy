/**
 The in-place parallelism on its way from the Deployment controller to the ReplicaSet controller: written
 as a decimal annotation, read back however late, and never above the availability budget.
 */
module Parallelism {
  import opened Arith
  import opened Results
  import D = DeploymentController
  import I = InPlace
  import W = Workload
  import InPlaceRuns

  const MAX_INT := 0x7fff_ffff_ffff_ffff

  /* ----- Decimal numbers ----- */

  predicate IsDigit(c: char) { '0' <= c <= '9' }

  function DigitOf(d: nat): (c: char)
    requires d < 10
    ensures IsDigit(c)
  {
    '0' + d as char
  }

  function Itoa(n: nat): (s: string)
    ensures s != [] && forall i :: 0 <= i < |s| ==> IsDigit(s[i])
  {
    if n < 10 then [DigitOf(n)] else Itoa(n / 10) + [DigitOf(n % 10)]
  }

  function Digits(s: string): Option<nat> {
    if s == [] then Some(0)
    else
      var last := |s| - 1;
      if !IsDigit(s[last]) then None
      else
        match Digits(s[..last])
        case None => None
        case Some(n) => Some(10 * n + (s[last] as int - '0' as int))
  }

  /** A decimal number with an optional sign; anything else, and anything out of range, is an error. */
  function Atoi(s: string): Option<int> {
    var negative := s != [] && s[0] == '-';
    var digits := if s != [] && s[0] in {'-', '+'} then s[1..] else s;
    if digits == [] then None
    else
      match Digits(digits)
      case None => None
      case Some(n) =>
        var value: int := if negative then 0 - n else n;
        if -MAX_INT - 1 <= value <= MAX_INT then Some(value) else None
  }

  /** An absent, unreadable or negative annotation allows one Pod at a time. */
  function ReplicaSetParallelism(annotation: string): (p: nat)
  {
    if annotation == "" then 1
    else
      match Atoi(annotation)
      case None => 1
      case Some(n) => if n < 0 then 1 else n
  }

  lemma {:induction false} DigitsOfItoa(n: nat)
    ensures Digits(Itoa(n)) == Some(n)
  {
    if n < 10 {
      assert Itoa(n)[..0] == [];
    } else {
      DigitsOfItoa(n / 10);
      var s := Itoa(n);
      assert s[..|s| - 1] == Itoa(n / 10);
    }
  }

  /** What one controller writes the other reads. */
  lemma {:induction false} ParallelismIsReadBack(n: nat)
    requires n <= MAX_INT
    ensures ReplicaSetParallelism(Itoa(n)) == n
  {
    DigitsOfItoa(n);
    assert IsDigit(Itoa(n)[0]);
  }

  /** A character of the text, other than a sign in front, is no digit. */
  predicate Unreadable(s: string) {
    exists i :: 0 <= i < |s| && !IsDigit(s[i]) && !(i == 0 && s[0] in {'-', '+'})
  }

  lemma {:induction false} DigitsAreDigits(s: string)
    ensures Digits(s).Some? <==> forall i :: 0 <= i < |s| ==> IsDigit(s[i])
  {
    if s != [] {
      DigitsAreDigits(s[..|s| - 1]);
    }
  }

  lemma {:induction false} UnreadableIsOne(s: string)
    requires Unreadable(s)
    ensures ReplicaSetParallelism(s) == 1
  {
    var i :| 0 <= i < |s| && !IsDigit(s[i]) && !(i == 0 && s[0] in {'-', '+'});
    DigitsAreDigits(s);
    if s[0] in {'-', '+'} {
      DigitsAreDigits(s[1..]);
      assert s[1..][i - 1] == s[i];
    }
  }

  /** One Pod at a time when there is no annotation, it is no number, or a negative or too large one; a plus sign is
      read over. */
  lemma {:induction false} OtherwiseOneAtATime(s: string, n: nat)
    ensures ReplicaSetParallelism("") == 1
    ensures Unreadable(s) ==> ReplicaSetParallelism(s) == 1
    ensures n > MAX_INT ==> ReplicaSetParallelism(Itoa(n)) == 1
    ensures n > 0 ==> ReplicaSetParallelism("-" + Itoa(n)) == 1
    ensures n <= MAX_INT ==> ReplicaSetParallelism("+" + Itoa(n)) == n
  {
    if Unreadable(s) {
      UnreadableIsOne(s);
    }
    DigitsOfItoa(n);
    assert IsDigit(Itoa(n)[0]);
    assert ("-" + Itoa(n))[1..] == Itoa(n) && ("+" + Itoa(n))[1..] == Itoa(n);
  }

  /* ----- The budget ----- */

  /** The annotation as a ReplicaSet of a RollingUpdate Deployment may find it: absent, "0" from creation or
      while paused, or what some pass wrote after reading any status at all. */
  ghost predicate Written(annotation: string, s: D.Strategy, desired: nat) {
    || annotation == "" || annotation == Itoa(0)
    || exists vs :: 0 <= D.DeploymentParallelism(vs, s, desired) && annotation == Itoa(D.DeploymentParallelism(vs, s, desired))
  }

  lemma {:induction false} WrittenFitsBudget(annotation: string, s: D.Strategy, desired: nat)
    requires s.RollingUpdate? && D.ResolvedFenceposts(s) && s.maxUnavailable <= MAX_INT
    requires Written(annotation, s, desired)
    ensures ReplicaSetParallelism(annotation) <= Max(1, s.maxUnavailable)
  {
    if annotation == Itoa(0) {
      ParallelismIsReadBack(0);
    } else if annotation != "" {
      var vs :| 0 <= D.DeploymentParallelism(vs, s, desired) && annotation == Itoa(D.DeploymentParallelism(vs, s, desired));
      D.ParallelismWithinBudget(vs, s, desired);
      ParallelismIsReadBack(D.DeploymentParallelism(vs, s, desired));
    }
  }

  /** The in-place budget of RollingUpdate over whole runs: in every reachable state the Pods missing from
      the count the ReplicaSet asks for, plus the updated Pods that have not settled, are at most
      max(1, maxUnavailable), however stale the annotation each pass acts on. size is the count of the
      Deployment, which differs from that of the ReplicaSet in the middle of a rollout. */
  lemma {:induction false} RollingUpdateDisruption(cfg: I.Config, pods: seq<W.Pod>, t: W.Template, desired: nat,
                                                   size: nat, s: D.Strategy, events: seq<InPlaceRuns.Event>,
                                                   annotations: seq<string>)
    requires s.RollingUpdate? && D.ResolvedFenceposts(s) && s.maxUnavailable <= MAX_INT
    requires InPlaceRuns.Possible(cfg, pods, t, desired, events) && |annotations| == |events|
    requires forall k :: 0 <= k < |events| && events[k].Reconcile? ==>
      Written(annotations[k], s, size) && events[k].parallelism == ReplicaSetParallelism(annotations[k])
    requires InPlaceRuns.Disruption(cfg, pods, t, desired) <= Max(1, s.maxUnavailable)
    ensures InPlaceRuns.Disruption(cfg, InPlaceRuns.After(cfg, pods, t, desired, events), t, desired)
            <= Max(1, s.maxUnavailable)
  {
    forall k | 0 <= k < |events|
      ensures InPlaceRuns.WithinBudget(events[k], Max(1, s.maxUnavailable))
    {
      if events[k].Reconcile? {
        WrittenFitsBudget(annotations[k], s, size);
      }
    }
    InPlaceRuns.DisruptionStaysInBudget(cfg, pods, t, desired, Max(1, s.maxUnavailable), events);
  }
}
