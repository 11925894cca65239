/**
 * A bracketing root finder standing in for scipy.optimize.brentq. It keeps
 * brentq's own rules for the end points: no root when f(a) and f(b) have the
 * same strict sign (brentq raises ValueError), a if f(a) == 0, b if
 * f(b) == 0; otherwise it halves the bracket until it is no wider than xtol.
 */
module RootFinder {
  import opened Common

  /** f(a) * f(b) > 0 */
  predicate SameStrictSign(x: real, y: real)
  {
    (x > 0.0 && y > 0.0) || (x < 0.0 && y < 0.0)
  }

  /** [lo, hi] encloses a sign change of f (or a zero at an end). */
  predicate Brackets(f: real -> real, lo: real, hi: real)
  {
    lo <= hi && ((f(lo) <= 0.0 && 0.0 <= f(hi)) || (f(hi) <= 0.0 && 0.0 <= f(lo)))
  }

  /** x lies in a bracket of f that is at most tol wide. */
  ghost predicate NearRoot(f: real -> real, x: real, tol: real)
  {
    exists lo, hi :: lo <= x <= hi && hi - lo <= tol && Brackets(f, lo, hi)
  }

  /** One bisection step: the half of [lo, hi] that still brackets a sign change. */
  function Halve(f: real -> real, lo: real, hi: real): (b: (real, real))
    requires Brackets(f, lo, hi)
    ensures lo <= b.0 <= b.1 <= hi
    ensures Brackets(f, b.0, b.1)
    ensures b.1 - b.0 == (hi - lo) / 2.0
  {
    var mid := (lo + hi) / 2.0;
    if Brackets(f, lo, mid) then (lo, mid) else (mid, hi)
  }

  lemma FloorOfHalf(y: real)
    requires y > 1.0
    ensures (y / 2.0).Floor < y.Floor
  {
  }

  lemma QuotientAboveOne(a: real, b: real)
    requires 0.0 < b < a
    ensures a / b > 1.0
  {
  }

  /** Halve a bracket of f until it is no wider than xtol. */
  function Bisect(f: real -> real, lo: real, hi: real, xtol: real): (b: (real, real))
    requires xtol > 0.0 && Brackets(f, lo, hi)
    ensures lo <= b.0 <= b.1 <= hi
    ensures Brackets(f, b.0, b.1)
    ensures b.1 - b.0 <= xtol
    decreases ((hi - lo) / xtol).Floor
  {
    if hi - lo <= xtol then (lo, hi)
    else
      var half := Halve(f, lo, hi);
      assert (half.1 - half.0) / xtol == ((hi - lo) / xtol) / 2.0;
      QuotientAboveOne(hi - lo, xtol);
      FloorOfHalf((hi - lo) / xtol);
      Bisect(f, half.0, half.1, xtol)
  }

  /**
   * brentq(f, a, b, xtol): None where brentq raises ValueError (f(a) and
   * f(b) of the same strict sign), otherwise a point of [a, b] inside a
   * bracket of f no wider than xtol.
   */
  function Brentq(f: real -> real, a: real, b: real, xtol: real): (r: Option<real>)
    requires a <= b && xtol > 0.0
    ensures r.None? <==> SameStrictSign(f(a), f(b))
    ensures r.Some? ==> a <= r.value <= b
    ensures r.Some? ==> NearRoot(f, r.value, xtol)
  {
    if SameStrictSign(f(a), f(b)) then None
    else if f(a) == 0.0 then
      NearRootIntro(f, a, a, a, xtol);
      Some(a)
    else if f(b) == 0.0 then
      NearRootIntro(f, b, b, b, xtol);
      Some(b)
    else
      var bracket := Bisect(f, a, b, xtol);
      var x := (bracket.0 + bracket.1) / 2.0;
      NearRootIntro(f, x, bracket.0, bracket.1, xtol);
      Some(x)
  }

  lemma NearRootIntro(f: real -> real, x: real, lo: real, hi: real, tol: real)
    requires lo <= x <= hi && hi - lo <= tol && Brackets(f, lo, hi)
    ensures NearRoot(f, x, tol)
  {
  }
}
