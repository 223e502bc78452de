/** Sequences without some of their elements. */
module Subsequences {
  import opened Common

  /** `a` is `b` without some of its elements. */
  predicate Within<T(==)>(a: seq<T>, b: seq<T>)
    decreases |b|
  {
    if a == [] then true
    else if b == [] then false
    else Within(a, b[..|b| - 1]) || (a[|a| - 1] == b[|b| - 1] && Within(a[..|a| - 1], b[..|b| - 1]))
  }

  lemma WithinAppend<T>(a: seq<T>, b: seq<T>, x: T)
    requires Within(a, b)
    ensures Within(a + [x], b + [x])
  {
    assert (a + [x])[..|a|] == a && (b + [x])[..|b|] == b;
  }

  lemma WithinMore<T>(a: seq<T>, b: seq<T>)
    requires b != [] && Within(a, b[..|b| - 1])
    ensures Within(a, b)
  {
  }

  lemma {:induction false} WithinErase<T>(a: seq<T>, b: seq<T>, i: nat)
    requires Within(a, b) && i < |a|
    ensures Within(EraseAt(a, i), b)
    decreases |b|
  {
    var n, m := |a| - 1, |b| - 1;
    if Within(a, b[..m]) {
      WithinErase(a, b[..m], i);
      WithinMore(EraseAt(a, i), b);
    } else if i == n {
      assert EraseAt(a, i) == a[..n];
      WithinMore(a[..n], b);
    } else {
      WithinErase(a[..n], b[..m], i);
      WithinAppend(EraseAt(a[..n], i), b[..m], a[n]);
      assert EraseAt(a, i) == EraseAt(a[..n], i) + [a[n]] && b == b[..m] + [b[m]];
    }
  }
}
