/** How many entries of a sequence satisfy a predicate, and how that number moves. */
module Counting {
  import opened Sorting

  function Count<T>(s: seq<T>, p: T -> bool): (n: nat)
    ensures n <= |s|
  {
    if s == [] then 0 else (if p(s[0]) then 1 else 0) + Count(s[1..], p)
  }

  lemma {:induction false} CountStep<T>(s: seq<T>, i: nat, p: T -> bool)
    requires i < |s|
    ensures Count(s[..i + 1], p) == Count(s[..i], p) + if p(s[i]) then 1 else 0
  {
    if i > 0 {
      CountStep(s[1..], i - 1, p);
      assert s[..i + 1][1..] == s[1..][..i] && s[..i][1..] == s[1..][..i - 1];
    }
  }

  lemma {:induction false} CountOfConcat<T>(a: seq<T>, b: seq<T>, p: T -> bool)
    ensures Count(a + b, p) == Count(a, p) + Count(b, p)
  {
    if a == [] {
      assert a + b == b;
    } else {
      CountOfConcat(a[1..], b, p);
      assert (a + b)[1..] == a[1..] + b;
    }
  }

  /** Predicates that agree on every entry count alike. */
  lemma {:induction false} SameCount<T>(s: seq<T>, p: T -> bool, q: T -> bool)
    requires forall i :: 0 <= i < |s| ==> p(s[i]) == q(s[i])
    ensures Count(s, p) == Count(s, q)
  {
    if s != [] {
      SameCount(s[1..], p, q);
    }
  }

  /** Replacing an entry by one that satisfies the predicate no more readily never raises the count. */
  lemma {:induction false} CountUpdate<T>(s: seq<T>, i: nat, x: T, p: T -> bool)
    requires i < |s| && (p(x) ==> p(s[i]))
    ensures Count(s[i := x], p) <= Count(s, p)
  {
    if i > 0 {
      CountUpdate(s[1..], i - 1, x, p);
      assert s[i := x][1..] == s[1..][i - 1 := x];
    } else {
      assert s[i := x][1..] == s[1..];
    }
  }

  /** A count that reaches the number of entries covers each of them, and conversely. */
  lemma {:induction false} FullCount<T>(s: seq<T>, p: T -> bool)
    ensures Count(s, p) == |s| <==> forall i :: 0 <= i < |s| ==> p(s[i])
  {
    if s != [] {
      FullCount(s[1..], p);
      if forall i :: 0 <= i < |s| ==> p(s[i]) {
        assert p(s[0]);
        assert forall i :: 0 <= i < |s[1..]| ==> s[1..][i] == s[i + 1];
      }
    }
  }

  lemma {:induction false} InsertCounts<T>(x: T, s: seq<T>, p: T -> bool, key: T -> int)
    ensures Count(Insert(x, s, key), p) == Count(s, p) + if p(x) then 1 else 0
  {
    if s != [] && key(x) > key(s[0]) {
      InsertCounts(x, s[1..], p, key);
    } else {
      assert Insert(x, s, key)[1..] == s;
    }
  }

  /** Sorting changes no count. */
  lemma {:induction false} SortCounts<T>(s: seq<T>, p: T -> bool, key: T -> int)
    ensures Count(StableSort(s, key), p) == Count(s, p)
  {
    if s != [] {
      SortCounts(s[1..], p, key);
      InsertCounts(s[0], StableSort(s[1..], key), p, key);
    }
  }
}
