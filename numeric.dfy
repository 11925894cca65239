/**
 * Exact-real stand-ins for the numeric primitives the services use:
 * integer powers, Python's `round`, and numpy's sums, dot products,
 * minima and maxima over vectors.
 */
module Numeric {
  import opened Common

  /** x ** n for a natural exponent. */
  function Pow(x: real, n: nat): real
  {
    if n == 0 then 1.0 else x * Pow(x, n - 1)
  }

  /** 10 ** d, the scale of rounding to d decimal places. */
  function Pow10(d: nat): (p: real)
    ensures p >= 1.0
  {
    DecimalScale(d) as real
  }

  /** 10 ** d as an integer. */
  function DecimalScale(d: nat): (p: nat)
    ensures p >= 1
  {
    if d == 0 then 1 else 10 * DecimalScale(d - 1)
  }

  /** 1 + q + q^2 + ... + q^(n-1). */
  function GeomSum(q: real, n: nat): real
  {
    if n == 0 then 0.0 else 1.0 + q * GeomSum(q, n - 1)
  }

  lemma DivLe(a: real, b: real, c: real)
    requires c > 0.0 && a <= b
    ensures a / c <= b / c
  {
    assert b / c - a / c == (b - a) / c;
  }

  lemma ScaledError(k: real, x: real, scale: real)
    requires scale > 0.0 && Abs(k - x * scale) <= 0.5
    ensures Abs(k / scale - x) <= 0.5 / scale
  {
    var d := k - x * scale;
    assert k / scale - x == d / scale;
    DivLe(d, 0.5, scale);
    DivLe(-0.5, d, scale);
    assert (-0.5) / scale == -(0.5 / scale);
  }

  /** The integer nearest to s, ties going to the even one. */
  function NearestEven(s: real): (k: int)
    ensures Abs(k as real - s) <= 0.5
    ensures s >= 0.0 ==> k >= 0
  {
    var f := s.Floor;
    if s - f as real < 0.5 then f
    else if s - f as real > 0.5 then f + 1
    else if f % 2 == 0 then f else f + 1
  }

  /** An integer bound on s also bounds its nearest integer. */
  lemma NearestEvenAtMost(s: real, m: int)
    requires s <= m as real
    ensures NearestEven(s) <= m
  {
  }

  /**
   * Python's round(x, digits) on the exact value x: the nearest multiple of
   * 10^-digits, ties going to the even multiple.
   */
  function Round(x: real, digits: nat): real
  {
    RoundAt(x, Pow10(digits))
  }

  /** The nearest multiple of 1/scale, ties going to the even multiple. */
  function RoundAt(x: real, scale: real): real
    requires scale > 0.0
  {
    NearestEven(x * scale) as real / scale
  }

  /** Rounding moves a value by at most half a unit in the last kept place. */
  lemma RoundError(x: real, digits: nat)
    ensures Abs(Round(x, digits) - x) <= 0.5 / Pow10(digits)
  {
    RoundAtError(x, Pow10(digits));
  }

  /** With no digits kept, rounding moves a value by at most one half. */
  lemma RoundZeroDigits(x: real)
    ensures Abs(Round(x, 0) - x) <= 0.5
  {
    RoundError(x, 0);
    assert Pow10(0) == 1.0;
  }

  lemma RoundAtError(x: real, scale: real)
    requires scale > 0.0
    ensures Abs(RoundAt(x, scale) - x) <= 0.5 / scale
  {
    ScaledError(NearestEven(x * scale) as real, x, scale);
  }

  /** Rounding never makes a non-negative value negative. */
  lemma RoundNonnegative(x: real, digits: nat)
    requires x >= 0.0
    ensures Round(x, digits) >= 0.0
  {
    RoundAtNonnegative(x, Pow10(digits));
  }

  lemma RoundAtNonnegative(x: real, scale: real)
    requires x >= 0.0 && scale > 0.0
    ensures RoundAt(x, scale) >= 0.0
  {
    MulLe(0.0, x, scale);
  }

  /** Rounding a value at most 1 gives at most 1, since 1 is a multiple of 10^-digits. */
  lemma RoundAtMostOne(x: real, digits: nat)
    requires x <= 1.0
    ensures Round(x, digits) <= 1.0
  {
    RoundAtAtMostOne(x, Pow10(digits), DecimalScale(digits));
  }

  /** Rounding to a multiple of 1/m, for a whole m, keeps a bound of 1. */
  lemma RoundAtAtMostOne(x: real, scale: real, m: int)
    requires x <= 1.0 && m >= 1 && scale == m as real
    ensures RoundAt(x, scale) <= 1.0
  {
    var p, k := RoundAtParts(x, scale);
    NearestEvenAtMost(p, m);
    QuotientAtMostOne(k, scale, m);
  }

  /** RoundAt(x, scale) is k / scale for the integer k nearest to p = x scale, and x <= 1 gives p <= scale. */
  lemma RoundAtParts(x: real, scale: real) returns (p: real, k: int)
    requires x <= 1.0 && scale > 0.0
    ensures p <= scale && k == NearestEven(p) && RoundAt(x, scale) == k as real / scale
  {
    p := x * scale;
    k := NearestEven(p);
    MulLe(x, 1.0, scale);
  }

  lemma QuotientAtMostOne(k: int, scale: real, m: int)
    requires 1 <= m && k <= m && scale == m as real
    ensures k as real / scale <= 1.0
  {
  }

  /** Rounding to a whole number keeps an integer upper bound. */
  lemma RoundWholeAtMost(y: real, m: int)
    requires y <= m as real
    ensures Round(y, 0) <= m as real
  {
    var k := RoundWholeParts(y);
    NearestEvenAtMost(y, m);
  }

  /** Round(y, 0) is the integer nearest to y. */
  lemma RoundWholeParts(y: real) returns (k: int)
    ensures k == NearestEven(y) && Round(y, 0) == k as real
  {
    k := NearestEven(y);
    assert Pow10(0) == 1.0;
    assert y * 1.0 == y;
  }

  lemma RoundZero(digits: nat)
    ensures Round(0.0, digits) == 0.0
  {
  }

  // ----- powers and geometric sums -------------------------------------

  lemma {:induction false} PowOne(n: nat)
    ensures Pow(1.0, n) == 1.0
  {
    if n > 0 { PowOne(n - 1); }
  }

  lemma {:induction false} PowNonnegative(x: real, n: nat)
    requires x >= 0.0
    ensures Pow(x, n) >= 0.0
    ensures x > 0.0 ==> Pow(x, n) > 0.0
  {
    if n > 0 { PowNonnegative(x, n - 1); }
  }

  lemma MulLe(a: real, b: real, c: real)
    requires a <= b && c >= 0.0
    ensures a * c <= b * c && c * a <= c * b
  {
  }

  lemma MulLt(a: real, b: real, c: real)
    requires a < b && c > 0.0
    ensures a * c < b * c && c * a < c * b
  {
  }

  /** Powers with a natural exponent are monotone on non-negative bases. */
  lemma {:induction false} PowMonotone(x: real, y: real, n: nat)
    requires 0.0 <= x <= y
    ensures Pow(x, n) <= Pow(y, n)
  {
    if n > 0 {
      var px, py := Pow(x, n - 1), Pow(y, n - 1);
      assert Pow(x, n) == x * px && Pow(y, n) == y * py;
      PowMonotone(x, y, n - 1);
      PowNonnegative(x, n - 1);
      MulMonotone(x, y, px, py);
    }
  }

  /** The closed form of the geometric sum: q^n - 1 == (q - 1)(1 + q + ... + q^(n-1)). */
  lemma {:induction false} GeomSumClosedForm(q: real, n: nat)
    ensures Pow(q, n) - 1.0 == (q - 1.0) * GeomSum(q, n)
  {
    if n > 0 {
      GeomSumClosedForm(q, n - 1);
      calc {
        Pow(q, n) - 1.0;
        q * Pow(q, n - 1) - 1.0;
        q * (Pow(q, n - 1) - 1.0) + (q - 1.0);
        q * ((q - 1.0) * GeomSum(q, n - 1)) + (q - 1.0);
        (q - 1.0) * (1.0 + q * GeomSum(q, n - 1));
      }
    }
  }

  lemma {:induction false} GeomSumAtOne(n: nat)
    ensures GeomSum(1.0, n) == n as real
  {
    if n > 0 { GeomSumAtOne(n - 1); }
  }

  lemma {:induction false} GeomSumLowerBound(q: real, n: nat)
    requires q >= 0.0
    ensures GeomSum(q, n) >= 0.0
    ensures n >= 1 ==> GeomSum(q, n) >= 1.0
  {
    if n > 0 {
      GeomSumLowerBound(q, n - 1);
      MulLe(0.0, GeomSum(q, n - 1), q);
    }
  }

  /** The geometric sum is monotone in its ratio. */
  lemma {:induction false} GeomSumMonotone(x: real, y: real, n: nat)
    requires 0.0 <= x <= y
    ensures GeomSum(x, n) <= GeomSum(y, n)
  {
    if n > 0 {
      var gx, gy := GeomSum(x, n - 1), GeomSum(y, n - 1);
      assert GeomSum(x, n) == 1.0 + x * gx;
      assert GeomSum(y, n) == 1.0 + y * gy;
      GeomSumMonotone(x, y, n - 1);
      GeomSumLowerBound(x, n - 1);
      MulMonotone(x, y, gx, gy);
    }
  }

  /** Products of non-negative factors grow with both factors. */
  lemma MulMonotone(a1: real, a2: real, b1: real, b2: real)
    requires 0.0 <= a1 <= a2 && 0.0 <= b1 <= b2
    ensures a1 * b1 <= a2 * b2
  {
    MulLe(b1, b2, a1);
    MulLe(a1, a2, b2);
  }

  /** ... strictly once it has two terms. */
  lemma GeomSumStrictlyMonotone(x: real, y: real, n: nat)
    requires 0.0 <= x < y && n >= 2
    ensures GeomSum(x, n) < GeomSum(y, n)
  {
    var gx, gy := GeomSum(x, n - 1), GeomSum(y, n - 1);
    assert GeomSum(x, n) == 1.0 + x * gx;
    assert GeomSum(y, n) == 1.0 + y * gy;
    GeomSumMonotone(x, y, n - 1);
    GeomSumLowerBound(x, n - 1);
    GeomSumLowerBound(y, n - 1);
    MulStrictlyMonotone(x, y, gx, gy);
  }

  lemma MulStrictlyMonotone(a1: real, a2: real, b1: real, b2: real)
    requires 0.0 <= a1 < a2 && 0.0 < b1 <= b2
    ensures a1 * b1 < a2 * b2
  {
    MulLe(b1, b2, a1);
    MulLt(a1, a2, b2);
  }

  // ----- vector reductions (numpy .sum(), @, .min(), .max()) -----------

  /** Sum of the elements, accumulated left to right. */
  function Sum(s: seq<real>): real
  {
    if |s| == 0 then 0.0 else Sum(s[..|s| - 1]) + s[|s| - 1]
  }

  /** Dot product a @ b. */
  function Dot(a: seq<real>, b: seq<real>): real
    requires |a| == |b|
  {
    if |a| == 0 then 0.0 else Dot(a[..|a| - 1], b[..|b| - 1]) + a[|a| - 1] * b[|b| - 1]
  }

  /** Element-wise negation, numpy's unary minus. */
  function Neg(a: seq<real>): (r: seq<real>)
    ensures |r| == |a| && forall i :: 0 <= i < |a| ==> r[i] == -a[i]
  {
    seq(|a|, i requires 0 <= i < |a| => -a[i])
  }

  /** A row of n zeros with v at index i. */
  function Unit(n: nat, i: nat, v: real): (r: seq<real>)
    ensures |r| == n
    ensures forall j :: 0 <= j < n ==> r[j] == (if j == i then v else 0.0)
  {
    seq(n, j => if j == i then v else 0.0)
  }

  /** A row of n ones, numpy's ones(n). */
  function Ones(n: nat): (r: seq<real>)
    ensures |r| == n && forall j :: 0 <= j < n ==> r[j] == 1.0
  {
    seq(n, j => 1.0)
  }

  lemma {:induction false} DotCommutes(a: seq<real>, b: seq<real>)
    requires |a| == |b|
    ensures Dot(a, b) == Dot(b, a)
  {
    if |a| > 0 { DotCommutes(a[..|a| - 1], b[..|b| - 1]); }
  }

  lemma {:induction false} DotNeg(a: seq<real>, x: seq<real>)
    requires |a| == |x|
    ensures Dot(Neg(a), x) == -Dot(a, x)
  {
    if |a| > 0 {
      assert Neg(a)[..|a| - 1] == Neg(a[..|a| - 1]);
      DotNeg(a[..|a| - 1], x[..|x| - 1]);
    }
  }

  lemma {:induction false} DotOnes(x: seq<real>)
    ensures Dot(Ones(|x|), x) == Sum(x)
  {
    if |x| > 0 {
      assert Ones(|x|)[..|x| - 1] == Ones(|x| - 1);
      DotOnes(x[..|x| - 1]);
    }
  }

  /** A unit row picks out one coordinate: Unit(n, i, v) @ x == v * x[i]. */
  lemma {:induction false} DotUnit(n: nat, i: nat, v: real, x: seq<real>)
    requires i < n == |x|
    ensures Dot(Unit(n, i, v), x) == v * x[i]
  {
    var u := Unit(n, i, v);
    assert Dot(u, x) == Dot(u[..n - 1], x[..n - 1]) + u[n - 1] * x[n - 1];
    if i == n - 1 {
      assert u[..n - 1] == seq(n - 1, j => 0.0);
      DotZeroRow(n - 1, x[..n - 1]);
    } else {
      assert Unit(n, i, v)[..n - 1] == Unit(n - 1, i, v);
      DotUnit(n - 1, i, v, x[..n - 1]);
    }
  }

  lemma {:induction false} DotZeroRow(n: nat, x: seq<real>)
    requires |x| == n
    ensures Dot(seq(n, j => 0.0), x) == 0.0
  {
    if n > 0 {
      assert seq(n, j => 0.0)[..n - 1] == seq(n - 1, j => 0.0);
      DotZeroRow(n - 1, x[..n - 1]);
    }
  }

  /** Largest element, numpy's .max(). */
  function MaxOf(s: seq<real>): (m: real)
    requires |s| > 0
    ensures m in s
    ensures forall i :: 0 <= i < |s| ==> s[i] <= m
  {
    if |s| == 1 then s[0] else Max(MaxOf(s[..|s| - 1]), s[|s| - 1])
  }

  /** Smallest element, numpy's .min(). */
  function MinOf(s: seq<real>): (m: real)
    requires |s| > 0
    ensures m in s
    ensures forall i :: 0 <= i < |s| ==> m <= s[i]
  {
    if |s| == 1 then s[0] else Min(MinOf(s[..|s| - 1]), s[|s| - 1])
  }

  /** A weighted sum with non-negative weights lies between lo and hi times the total weight. */
  lemma {:induction false} DotBetween(t: seq<real>, w: seq<real>, lo: real, hi: real, total: real)
    requires |t| == |w| && total == Sum(w)
    requires forall i :: 0 <= i < |w| ==> w[i] >= 0.0 && lo <= t[i] <= hi
    ensures lo * total <= Dot(t, w) <= hi * total
  {
    if |t| > 0 {
      var k := |t| - 1;
      var head, a, b := DotSplit(t, w);
      DotBetween(t[..k], w[..k], lo, hi, head);
      TermBetween(t[k], w[k], lo, hi, b);
      BoundsAdd(a, b, head, w[k], lo, hi, total, Dot(t, w));
    }
  }

  /** The last step of Sum and Dot, with its parts returned as plain values. */
  lemma DotSplit(t: seq<real>, w: seq<real>) returns (head: real, a: real, b: real)
    requires |t| == |w| > 0
    ensures head == Sum(w[..|w| - 1]) && a == Dot(t[..|t| - 1], w[..|w| - 1]) && b == t[|t| - 1] * w[|w| - 1]
    ensures Sum(w) == head + w[|w| - 1] && Dot(t, w) == a + b
  {
    head, a, b := Sum(w[..|w| - 1]), Dot(t[..|t| - 1], w[..|w| - 1]), t[|t| - 1] * w[|w| - 1];
  }

  /** One term x * y with lo <= x <= hi and y >= 0 lies between lo * y and hi * y. */
  lemma TermBetween(x: real, y: real, lo: real, hi: real, b: real)
    requires y >= 0.0 && lo <= x <= hi && b == x * y
    ensures lo * y <= b <= hi * y
  {
    MulLe(lo, x, y);
    MulLe(x, hi, y);
  }

  /** Bounds proportional to two totals add up to bounds proportional to their sum. */
  lemma BoundsAdd(a: real, b: real, sa: real, sb: real, lo: real, hi: real, s: real, v: real)
    requires lo * sa <= a <= hi * sa && lo * sb <= b <= hi * sb
    requires s == sa + sb && v == a + b
    ensures lo * s <= v <= hi * s
  {
    assert lo * s == lo * sa + lo * sb;
    assert hi * s == hi * sa + hi * sb;
  }
}
