// Shared vocabulary: optional values, distinct sequences and the order of strings.
module Basics {

  datatype Option<+T> = None | Some(value: T)

  function Get<K, V>(m: map<K, V>, k: K): Option<V> {
    if k in m then Some(m[k]) else None
  }

  predicate Distinct<T(==)>(s: seq<T>) {
    forall i, j :: 0 <= i < j < |s| ==> s[i] != s[j]
  }

  /** Strict code point order of strings, the order `sorted` uses on paths and identifiers. */
  predicate Before(a: string, b: string) {
    b != [] && (a == [] || a[0] < b[0] || (a[0] == b[0] && Before(a[1..], b[1..])))
  }

  lemma BeforeTransitive(a: string, b: string, c: string)
    requires Before(a, b) && Before(b, c)
    ensures Before(a, c)
  {
    if a != [] && a[0] == b[0] && b[0] == c[0] {
      BeforeTransitive(a[1..], b[1..], c[1..]);
    }
  }

  lemma BeforeTotal(a: string, b: string)
    ensures Before(a, b) || a == b || Before(b, a)
    ensures !(Before(a, b) && Before(b, a))
    ensures !Before(a, a)
  {
    if a != [] && b != [] && a[0] == b[0] {
      BeforeTotal(a[1..], b[1..]);
      assert a == [a[0]] + a[1..] && b == [b[0]] + b[1..];
    }
    if a != [] {
      BeforeIrreflexive(a);
    }
  }

  lemma BeforeIrreflexive(a: string)
    ensures !Before(a, a)
  {
  }
}
