/** Products of reals behind a name: the solver then reasons about them linearly, with these laws. */
module RealProducts {

  function Times(a: real, b: real): real {
    a * b
  }

  lemma TimesLess(u: real, v: real, s: real)
    requires s > 0.0 && u < v
    ensures Times(u, s) < Times(v, s)
  {
  }

  lemma TimesLeq(u: real, v: real, s: real)
    requires s >= 0.0 && u <= v
    ensures Times(u, s) <= Times(v, s)
  {
  }

  lemma TimesDistributes(u: real, v: real, s: real)
    ensures Times(u + v, s) == Times(u, s) + Times(v, s)
    ensures Times(u - v, s) == Times(u, s) - Times(v, s)
  {
  }

  lemma SquareIsNonNegative(u: real)
    ensures Times(u, u) >= 0.0
  {
  }

  lemma TimesThenDivide(a: real, b: real)
    requires b != 0.0
    ensures Times(a, b) / b == a
  {
  }

  lemma TimesCommutes(a: real, b: real)
    ensures Times(a, b) == Times(b, a)
    ensures Times(0.0, a) == 0.0 && Times(1.0, a) == a
  {
  }
}
