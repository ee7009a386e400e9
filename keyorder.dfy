/** The order `sorted(params.iteritems())` puts parameter names in: Python compares
    strings character by character by code point, a proper prefix coming first. */
module KeyOrder {

  /** `a <= b` on Python strings. */
  predicate NotAfter(a: string, b: string)
  {
    |a| == 0 || (|b| > 0 && (a[0] < b[0] || (a[0] == b[0] && NotAfter(a[1..], b[1..]))))
  }

  /** `a < b` on Python strings. */
  predicate Before(a: string, b: string)
  {
    NotAfter(a, b) && a != b
  }

  lemma NotAfterTotal(a: string, b: string)
    ensures NotAfter(a, b) || NotAfter(b, a)
  {
    if |a| > 0 && |b| > 0 && a[0] == b[0] {
      NotAfterTotal(a[1..], b[1..]);
    }
  }

  lemma NotAfterAntisymmetric(a: string, b: string)
    requires NotAfter(a, b) && NotAfter(b, a)
    ensures a == b
  {
    if |a| > 0 {
      NotAfterAntisymmetric(a[1..], b[1..]);
      assert a == [a[0]] + a[1..] && b == [b[0]] + b[1..];
    }
  }

  lemma NotAfterTransitive(a: string, b: string, c: string)
    requires NotAfter(a, b) && NotAfter(b, c)
    ensures NotAfter(a, c)
  {
    if |a| > 0 && a[0] == b[0] && b[0] == c[0] {
      NotAfterTransitive(a[1..], b[1..], c[1..]);
    }
  }

  /** `k` is the smallest name in `keys`. */
  predicate IsLeast(k: string, keys: set<string>)
  {
    k in keys && forall j :: j in keys ==> NotAfter(k, j)
  }

  lemma LeastExists(keys: set<string>)
    requires keys != {}
    ensures exists k :: IsLeast(k, keys)
    decreases |keys|
  {
    var x :| x in keys;
    var rest := keys - {x};
    if rest == {} {
      assert keys == {x};
      NotAfterTotal(x, x);
      assert IsLeast(x, keys);
    } else {
      LeastExists(rest);
      var m :| IsLeast(m, rest);
      NotAfterTotal(x, m);
      if NotAfter(x, m) {
        forall j | j in keys ensures NotAfter(x, j) {
          if j != x { NotAfterTransitive(x, m, j); } else { NotAfterTotal(x, x); }
        }
        assert IsLeast(x, keys);
      } else {
        assert IsLeast(m, keys);
      }
    }
  }

  lemma LeastUnique(keys: set<string>)
    ensures forall k1, k2 :: IsLeast(k1, keys) && IsLeast(k2, keys) ==> k1 == k2
  {
    forall k1, k2 | IsLeast(k1, keys) && IsLeast(k2, keys) ensures k1 == k2 {
      NotAfterAntisymmetric(k1, k2);
    }
  }

  /** Strictly ascending, hence also free of duplicates. */
  predicate Ascending(s: seq<string>)
  {
    forall i, j :: 0 <= i < j < |s| ==> Before(s[i], s[j])
  }

  /** The keys of a dict in the order `sorted` yields them: exactly the keys, each
      once, ascending. */
  function SortedKeys(keys: set<string>): (r: seq<string>)
    ensures |r| == |keys|
    ensures forall i :: 0 <= i < |r| ==> r[i] in keys
    ensures forall k :: k in keys ==> k in r
    ensures Ascending(r)
    decreases |keys|
  {
    if keys == {} then []
    else
      LeastExists(keys);
      LeastUnique(keys);
      var k :| IsLeast(k, keys);
      var rest := SortedKeys(keys - {k});
      assert forall i :: 0 <= i < |rest| ==> rest[i] in keys && rest[i] != k;
      [k] + rest
  }
}
