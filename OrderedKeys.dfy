/** Iteration order of `std::map<std::string, V>`: keys ascending by
    `std::string::compare`, i.e. lexicographically by character code.
    Both nlohmann::json objects and the REST filter maps are iterated this way. */
module OrderedKeys {

  /** Strict lexicographic order on strings; a proper prefix comes first. */
  predicate Less(a: string, b: string)
  {
    if |a| == 0 then |b| > 0
    else if |b| == 0 then false
    else if a[0] < b[0] then true
    else if a[0] > b[0] then false
    else Less(a[1..], b[1..])
  }

  lemma {:induction false} LessTotal(a: string, b: string)
    ensures a == b || Less(a, b) || Less(b, a)
  {
    if |a| > 0 && |b| > 0 && a[0] == b[0] {
      LessTotal(a[1..], b[1..]);
      if a[1..] == b[1..] {
        assert a == [a[0]] + a[1..];
        assert b == [b[0]] + b[1..];
      }
    }
  }

  lemma {:induction false} LessAsymmetric(a: string, b: string)
    ensures !(Less(a, b) && Less(b, a))
  {
    if |a| > 0 && |b| > 0 && a[0] == b[0] {
      LessAsymmetric(a[1..], b[1..]);
    }
  }

  lemma {:induction false} LessTransitive(a: string, b: string, c: string)
    requires Less(a, b) && Less(b, c)
    ensures Less(a, c)
  {
    if |a| > 0 && |b| > 0 && |c| > 0 && a[0] == b[0] && b[0] == c[0] {
      LessTransitive(a[1..], b[1..], c[1..]);
    }
  }

  predicate IsLeast(k: string, s: set<string>)
  {
    k in s && forall k' :: k' in s && k' != k ==> Less(k, k')
  }

  lemma {:induction false} LeastExists(s: set<string>)
    requires s != {}
    ensures exists k :: IsLeast(k, s)
  {
    var x :| x in s;
    if s == {x} {
      assert IsLeast(x, s);
    } else {
      LeastExists(s - {x});
      var m :| IsLeast(m, s - {x});
      LessTotal(x, m);
      if Less(x, m) {
        forall k' | k' in s && k' != x ensures Less(x, k') {
          if k' != m { LessTransitive(x, m, k'); }
        }
        assert IsLeast(x, s);
      } else {
        forall k' | k' in s && k' != m ensures Less(m, k') {
          if k' == x { LessTotal(x, m); }
        }
        assert IsLeast(m, s);
      }
    }
  }

  lemma LeastUnique(s: set<string>)
    ensures forall a, b :: IsLeast(a, s) && IsLeast(b, s) ==> a == b
  {
    forall a, b | IsLeast(a, s) && IsLeast(b, s) ensures a == b {
      if a != b { LessAsymmetric(a, b); }
    }
  }

  predicate StrictlySorted(ks: seq<string>)
  {
    forall i, j :: 0 <= i < j < |ks| ==> Less(ks[i], ks[j])
  }

  /** The least element of a non-empty set of strings. */
  function Least(s: set<string>): (k: string)
    requires s != {}
    ensures IsLeast(k, s)
  {
    LeastExists(s);
    LeastUnique(s);
    var k :| IsLeast(k, s);
    k
  }

  /** A key below every key of a sorted sequence can go in front of it. */
  lemma ConsSorted(k: string, rest: seq<string>)
    requires StrictlySorted(rest)
    requires forall x :: x in rest ==> Less(k, x)
    ensures StrictlySorted([k] + rest)
  {
    var ks := [k] + rest;
    forall i, j | 0 <= i < j < |ks| ensures Less(ks[i], ks[j]) {
      if i > 0 {
        assert ks[i] == rest[i - 1] && ks[j] == rest[j - 1];
      } else {
        assert ks[j] == rest[j - 1];
      }
    }
  }

  /** The keys of `m` in the order a `std::map` iterator visits them. */
  function SortedKeys<V>(m: map<string, V>): (ks: seq<string>)
    ensures |ks| == |m|
    ensures forall k :: k in ks <==> k in m
    ensures StrictlySorted(ks)
    decreases |m|
  {
    if |m| == 0 then []
    else
      var k := Least(m.Keys);
      var m' := m - {k};
      assert m'.Keys == m.Keys - {k};
      var rest := SortedKeys(m');
      ConsSorted(k, rest);
      [k] + rest
  }
}
