/** The order Python's `sorted` uses on strings, and enumerating a set of strings in it. */
module TextOrder {

  predicate Le(a: string, b: string) {
    || a == []
    || (b != [] && (a[0] < b[0] || (a[0] == b[0] && Le(a[1..], b[1..]))))
  }

  lemma LeTotal(a: string, b: string)
    ensures Le(a, b) || Le(b, a)
  {
  }

  lemma LeAntisymmetric(a: string, b: string)
    requires Le(a, b) && Le(b, a)
    ensures a == b
  {
    if a != [] {
      LeAntisymmetric(a[1..], b[1..]);
      assert a == [a[0]] + a[1..] && b == [b[0]] + b[1..];
    }
  }

  lemma LeTransitive(a: string, b: string, c: string)
    requires Le(a, b) && Le(b, c)
    ensures Le(a, c)
  {
    if a != [] && a[0] == b[0] && b[0] == c[0] { LeTransitive(a[1..], b[1..], c[1..]); }
  }

  predicate Least(m: string, keys: set<string>) {
    m in keys && forall k :: k in keys ==> Le(m, k)
  }

  lemma LeastExists(keys: set<string>)
    requires keys != {}
    ensures exists m :: Least(m, keys)
  {
    var k :| k in keys;
    LeTotal(k, k);
    if keys == {k} {
      assert Least(k, keys);
    } else {
      var rest := keys - {k};
      LeastExists(rest);
      var m :| Least(m, rest);
      LeTotal(k, m);
      if Le(m, k) {
        assert Least(m, keys);
      } else {
        forall j | j in keys ensures Le(k, j) {
          if j != k { LeTransitive(k, m, j); }
        }
        assert Least(k, keys);
      }
    }
  }

  predicate StrictlySorted(s: seq<string>) {
    forall i, j :: 0 <= i < j < |s| ==> Le(s[i], s[j]) && s[i] != s[j]
  }

  /** The elements of a set in increasing order. */
  function Sorted(keys: set<string>): (s: seq<string>)
    ensures forall k :: k in s <==> k in keys
    ensures StrictlySorted(s)
  {
    if keys == {} then []
    else
      LeastExists(keys);
      assert forall m, n :: Least(m, keys) && Least(n, keys) ==> m == n by {
        forall m, n | Least(m, keys) && Least(n, keys) ensures m == n { LeAntisymmetric(m, n); }
      }
      var m :| Least(m, keys);
      [m] + Sorted(keys - {m})
  }
}
