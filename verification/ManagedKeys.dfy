/**
 The managed-key annotations: the set of keys a template contributed, stored inside the Pod as a sorted
 JSON array of plain strings (sections 5 and 7 of RFC 8259), and read back.
 */
module ManagedKeys {
  import opened Results

  /* ----- The order keys are written in ----- */

  predicate AtMost(a: string, b: string) {
    a == [] || (b != [] && (a[0] < b[0] || (a[0] == b[0] && AtMost(a[1..], b[1..]))))
  }

  lemma {:induction false} AtMostTotal(a: string, b: string)
    ensures AtMost(a, b) || AtMost(b, a)
  {
    if a != [] && b != [] && a[0] == b[0] {
      AtMostTotal(a[1..], b[1..]);
    }
  }

  lemma {:induction false} AtMostTransitive(a: string, b: string, c: string)
    requires AtMost(a, b) && AtMost(b, c)
    ensures AtMost(a, c)
  {
    if a != [] && a[0] == b[0] == c[0] {
      AtMostTransitive(a[1..], b[1..], c[1..]);
    }
  }

  lemma {:induction false} AtMostAntisymmetric(a: string, b: string)
    requires AtMost(a, b) && AtMost(b, a)
    ensures a == b
  {
    if a != [] {
      AtMostAntisymmetric(a[1..], b[1..]);
      assert a == [a[0]] + a[1..] && b == [b[0]] + b[1..];
    }
  }

  /** a is a proper prefix of b, or has the smaller character where they first differ. */
  ghost predicate Before(a: string, b: string) {
    a < b || exists i: nat :: i < |a| && i < |b| && a[..i] == b[..i] && a[i] < b[i]
  }

  lemma {:induction false} OrderIsLexical(a: string, b: string)
    ensures AtMost(a, b) <==> a == b || Before(a, b)
    ensures Before(a, b) ==> a != b
  {
    if a != [] && b != [] {
      OrderIsLexical(a[1..], b[1..]);
      if i: nat :| i < |a[1..]| && i < |b[1..]| && a[1..][..i] == b[1..][..i] && a[1..][i] < b[1..][i] && a[0] == b[0] {
        assert a[..i + 1] == [a[0]] + a[1..][..i] && b[..i + 1] == [b[0]] + b[1..][..i];
        assert a[i + 1] < b[i + 1];
      }
      if i: nat :| i < |a| && i < |b| && a[..i] == b[..i] && a[i] < b[i] {
        if i > 0 {
          assert a[0] == a[..i][0] == b[0];
          assert a[1..][..i - 1] == a[..i][1..] && b[1..][..i - 1] == b[..i][1..];
          assert a[1..][i - 1] < b[1..][i - 1];
        }
      }
    }
  }

  predicate IsLeast(k: string, keys: set<string>) {
    k in keys && forall j :: j in keys ==> AtMost(k, j)
  }

  lemma {:induction false} LeastExists(keys: set<string>)
    requires keys != {}
    ensures exists k :: IsLeast(k, keys)
    decreases |keys|
  {
    var x :| x in keys;
    AtMostTotal(x, x);
    if keys == {x} {
      assert IsLeast(x, keys);
    } else {
      LeastExists(keys - {x});
      var y :| IsLeast(y, keys - {x});
      AtMostTotal(x, y);
      if AtMost(x, y) {
        forall j | j in keys
          ensures AtMost(x, j)
        {
          if j != x {
            AtMostTransitive(x, y, j);
          }
        }
        assert IsLeast(x, keys);
      } else {
        assert IsLeast(y, keys);
      }
    }
  }

  function Least(keys: set<string>): (k: string)
    requires keys != {}
    ensures IsLeast(k, keys)
  {
    LeastExists(keys);
    assert forall a, b :: IsLeast(a, keys) && IsLeast(b, keys) ==> a == b by {
      forall a, b | IsLeast(a, keys) && IsLeast(b, keys)
        ensures a == b
      {
        AtMostAntisymmetric(a, b);
      }
    }
    var k :| IsLeast(k, keys);
    k
  }

  /** The keys in ascending order, each once. */
  function Sorted(keys: set<string>): (r: seq<string>)
    ensures |r| == |keys|
    ensures forall k :: k in r <==> k in keys
    ensures forall i, j :: 0 <= i < j < |r| ==> AtMost(r[i], r[j])
    decreases |keys|
  {
    if keys == {} then []
    else
      var k := Least(keys);
      [k] + Sorted(keys - {k})
  }

  /* ----- Writing ----- */

  function Items(keys: seq<string>): string
    requires keys != []
  {
    var item := "\"" + keys[0] + "\"";
    if |keys| == 1 then item else item + ("," + Items(keys[1..]))
  }

  /** An empty set is written as null, as an absent slice marshals. */
  function Encode(keys: set<string>): string {
    if keys == {} then "null" else "[" + Items(Sorted(keys)) + "]"
  }

  /* ----- Reading ----- */

  /** A character that stands for itself in a JSON string, as every character of a Kubernetes key does. */
  predicate PlainChar(c: char) {
    ' ' <= c <= '~' && c != '\"' && c != '\\' && c != '<' && c != '>' && c != '&'
  }

  predicate Plain(s: string) {
    forall i :: 0 <= i < |s| ==> PlainChar(s[i])
  }

  predicate AllPlain(keys: set<string>) {
    forall k :: k in keys ==> Plain(k)
  }

  /** The length of the longest plain prefix. */
  function PlainPrefix(s: string): (n: nat)
    ensures n <= |s|
    ensures n < |s| ==> !PlainChar(s[n])
    ensures forall i :: 0 <= i < n ==> PlainChar(s[i])
  {
    if s == [] || !PlainChar(s[0]) then 0 else 1 + PlainPrefix(s[1..])
  }

  function Prepend(key: string, keys: Option<seq<string>>): Option<seq<string>> {
    match keys
    case None => None
    case Some(ks) => Some([key] + ks)
  }

  function ParseItems(s: string): Option<seq<string>>
    decreases |s|
  {
    if s == [] || s[0] != '\"' then None
    else
      var n := PlainPrefix(s[1..]);
      if n + 1 >= |s| || s[n + 1] != '\"' then None
      else
        var key, rest := s[1..n + 1], s[n + 2..];
        if rest == [] then Some([key])
        else if rest[0] != ',' then None
        else
          Prepend(key, ParseItems(rest[1..]))
  }

  /** The recorded keys; anything that is not such an array records none. */
  function Decode(s: string): seq<string> {
    if |s| < 2 || s[0] != '[' || s[|s| - 1] != ']' then []
    else
      match ParseItems(s[1..|s| - 1])
      case None => []
      case Some(keys) => keys
  }

  /* ----- Round trip ----- */

  lemma {:induction false} PlainPrefixStops(key: string, rest: string)
    requires Plain(key) && (rest != [] ==> !PlainChar(rest[0]))
    ensures PlainPrefix(key + rest) == |key|
  {
    if key == [] {
      assert key + rest == rest;
    } else {
      PlainPrefixStops(key[1..], rest);
      assert (key + rest)[1..] == key[1..] + rest;
    }
  }

  lemma {:induction false} ItemShape(key: string, tail: string)
    requires Plain(key)
    ensures var s, n := "\"" + key + "\"" + tail, |key|;
            && |s| >= n + 2 && s[0] == '\"' && PlainPrefix(s[1..]) == n && s[n + 1] == '\"'
            && s[1..n + 1] == key && s[n + 2..] == tail
  {
    var s := "\"" + key + "\"" + tail;
    assert s[1..] == key + ("\"" + tail);
    PlainPrefixStops(key, "\"" + tail);
  }

  lemma {:induction false} ParseStep(key: string, rest: string)
    requires Plain(key)
    ensures ParseItems("\"" + key + "\"") == Some([key])
    ensures ParseItems("\"" + key + "\"" + ("," + rest)) == Prepend(key, ParseItems(rest))
  {
    ItemShape(key, "");
    assert "\"" + key + "\"" + "" == "\"" + key + "\"";
    ItemShape(key, "," + rest);
    assert ("," + rest)[1..] == rest;
  }

  lemma {:induction false} ParseReadsItems(keys: seq<string>)
    requires keys != [] && forall i :: 0 <= i < |keys| ==> Plain(keys[i])
    ensures ParseItems(Items(keys)) == Some(keys)
    decreases |keys|
  {
    if |keys| == 1 {
      ParseStep(keys[0], "");
      assert keys == [keys[0]];
    } else {
      ParseStep(keys[0], Items(keys[1..]));
      ParseReadsItems(keys[1..]);
      assert keys == [keys[0]] + keys[1..];
    }
  }

  /** What is written is read back: the same keys, ascending. */
  lemma {:induction false} DecodeEncode(keys: set<string>)
    requires AllPlain(keys)
    ensures Decode(Encode(keys)) == Sorted(keys)
  {
    if keys != {} {
      var r := Sorted(keys);
      forall i | 0 <= i < |r|
        ensures Plain(r[i])
      {
        assert r[i] in keys;
      }
      ParseReadsItems(r);
      var s := Encode(keys);
      assert s[1..|s| - 1] == Items(r);
    }
  }

  /** Different key sets are written differently, so comparing the annotations compares the sets. */
  lemma {:induction false} EncodeInjective(a: set<string>, b: set<string>)
    requires AllPlain(a) && AllPlain(b) && Encode(a) == Encode(b)
    ensures a == b
  {
    DecodeEncode(a);
    DecodeEncode(b);
    assert forall k :: k in a <==> k in Sorted(a);
    assert forall k :: k in b <==> k in Sorted(b);
  }

  lemma {:induction false} ItemsText(a: string, b: string)
    ensures Items([a]) == "\"" + a + "\""
    ensures Items([a, b]) == "\"" + a + "\",\"" + b + "\""
  {
    assert [a, b][1..] == [b] && [b][0] == b;
    var rest := Items([b]);
    assert rest == "\"" + b + "\"";
    assert "\"" + a + "\"" + ("," + rest) == "\"" + a + "\",\"" + b + "\"";
  }

  /** The text itself, as a JSON encoder writes it: null for no key, and otherwise the keys in quotes, ascending. */
  lemma {:induction false} EncodedText(a: string, b: string)
    requires Before(a, b)
    ensures Encode({}) == "null" && Encode({a}) == "[" + ("\"" + a + "\"") + "]"
    ensures Encode({a, b}) == "[" + ("\"" + a + "\",\"" + b + "\"") + "]"
  {
    OrderIsLexical(a, b);
    SortedPair(a, b);
    ItemsText(a, b);
  }

  lemma {:induction false} SortedPair(a: string, b: string)
    requires a != b && AtMost(a, b)
    ensures Sorted({a}) == [a] && Sorted({b}) == [b] && Sorted({a, b}) == [a, b]
  {
    AtMostTotal(a, a);
    AtMostTotal(b, b);
    OneSorted(a);
    OneSorted(b);
    AtMostAntisymmetric(Least({a, b}), a);
    assert {a, b} - {a} == {b};
  }

  lemma {:induction false} OneSorted(a: string)
    ensures Sorted({a}) == [a]
  {
    assert Least({a}) in {a};
    assert {a} - {a} == {};
  }
}
