/** Small numeric vocabulary shared by every other module: the optional
    value used for the source's `null`/`undefined`, the JavaScript `Math`
    helpers the source calls, and sums over sequences of reals. */
module Basics {

  /** `null`/`undefined` versus a present value. */
  datatype Option<+T> = None | Some(value: T) {
    function GetOr(default: T): T {
      match this
      case Some(v) => v
      case None => default
    }
  }

  function Min(a: real, b: real): real { if a <= b then a else b }

  function Max(a: real, b: real): real { if a >= b then a else b }

  function MinInt(a: int, b: int): int { if a <= b then a else b }

  function MaxInt(a: int, b: int): int { if a >= b then a else b }

  /** `clamp(v, lo, hi)` from the utility module, read as `min(hi, max(lo, v))`. */
  function Clamp(v: real, lo: real, hi: real): (r: real)
    ensures lo <= hi ==> lo <= r <= hi
    ensures lo <= v <= hi ==> r == v
    ensures v <= lo <= hi ==> r == lo
    ensures lo <= hi <= v ==> r == hi
  {
    Min(hi, Max(lo, v))
  }

  /** `clamp01` of the palette module: `Math.min(1, Math.max(0, v))`. */
  function Clamp01(v: real): (r: real)
    ensures 0.0 <= r <= 1.0
    ensures 0.0 <= v <= 1.0 ==> r == v
    ensures v < 0.0 ==> r == 0.0
    ensures v > 1.0 ==> r == 1.0
  {
    Clamp(v, 0.0, 1.0)
  }

  lemma ClampMonotone(a: real, b: real, lo: real, hi: real)
    requires a <= b
    ensures Clamp(a, lo, hi) <= Clamp(b, lo, hi)
  {
  }

  lemma ClampIdempotent(v: real, lo: real, hi: real)
    requires lo <= hi
    ensures Clamp(Clamp(v, lo, hi), lo, hi) == Clamp(v, lo, hi)
  {
  }

  /** JavaScript `Math.floor` on a real. */
  function Floor(x: real): int { x.Floor }

  /** JavaScript `Math.round`: halves round towards positive infinity. */
  function Round(x: real): (r: int)
    ensures x - 0.5 < r as real <= x + 0.5
  {
    (x + 0.5).Floor
  }

  /** JavaScript `%` on integers: truncated division, so the remainder
      takes the sign of the dividend (Dafny's own `%` is Euclidean). */
  function JsRem(a: int, m: int): (r: int)
    requires m > 0
    ensures -m < r < m
    ensures a >= 0 ==> r == a % m
    ensures a < 0 ==> r <= 0
    ensures exists q: int :: a == q * m + r
  {
    if a >= 0 then
      assert a == (a / m) * m + a % m;
      a % m
    else
      var q := (-a) / m;
      assert -a == q * m + (-a) % m;
      assert a == (-q) * m + -((-a) % m);
      -((-a) % m)
  }

  /** `Math.floor(r * n)` for a draw `r` in [0, 1) is a valid index below `n`. */
  lemma FloorScaledIndex(r: real, n: nat)
    requires 0.0 <= r < 1.0
    requires n > 0
    ensures 0 <= Floor(r * n as real) < n
  {
    assert 0.0 <= r * n as real;
    assert r * n as real < n as real;
  }

  /** Sum of a sequence of reals, front to back (Array.prototype.reduce). */
  function Sum(s: seq<real>): real
  {
    if |s| == 0 then 0.0 else s[0] + Sum(s[1..])
  }

  /** Sum of `v[i] * w[i]` over two sequences of the same length. */
  function Dot(v: seq<real>, w: seq<real>): real
    requires |v| == |w|
  {
    if |v| == 0 then 0.0 else v[0] * w[0] + Dot(v[1..], w[1..])
  }

  predicate AllNonNegative(w: seq<real>)
  {
    forall i :: 0 <= i < |w| ==> w[i] >= 0.0
  }

  function Scale(w: seq<real>, k: real): (r: seq<real>)
    ensures |r| == |w|
    ensures forall i :: 0 <= i < |w| ==> r[i] == k * w[i]
  {
    seq(|w|, i requires 0 <= i < |w| => k * w[i])
  }

  /** `w.map(x => x / t)`. */
  function DivideAll(w: seq<real>, t: real): (r: seq<real>)
    requires t != 0.0
    ensures |r| == |w|
    ensures forall i :: 0 <= i < |w| ==> r[i] == w[i] / t
  {
    seq(|w|, i requires 0 <= i < |w| => w[i] / t)
  }

  lemma {:induction false} SumDivide(w: seq<real>, t: real)
    requires t != 0.0
    ensures Sum(DivideAll(w, t)) == Sum(w) / t
  {
    if |w| > 0 {
      assert DivideAll(w, t)[1..] == DivideAll(w[1..], t);
      SumDivide(w[1..], t);
      AddQuotients(w[0], Sum(w[1..]), t);
    }
  }

  /** Scaling the numerators and the divisor by the same factor changes
      no quotient. */
  lemma {:induction false} DivideScaled(w: seq<real>, k: real, t: real)
    requires k != 0.0 && t != 0.0
    ensures DivideAll(Scale(w, k), k * t) == DivideAll(w, t)
  {
    if |w| > 0 {
      ScaleTail(w, k);
      DivideScaled(w[1..], k, t);
      CancelFactor(w[0], t, k);
      assert DivideAll(Scale(w, k), k * t)[0] == DivideAll(w, t)[0];
      assert DivideAll(Scale(w, k), k * t)[1..] == DivideAll(Scale(w, k)[1..], k * t);
      assert DivideAll(w, t)[1..] == DivideAll(w[1..], t);
    }
  }

  lemma CancelFactor(c: real, t: real, k: real)
    requires k != 0.0 && t != 0.0
    ensures (k * c) / (k * t) == c / t
  {
  }

  lemma AddQuotients(a: real, b: real, t: real)
    requires t != 0.0
    ensures a / t + b / t == (a + b) / t
  {
  }

  /** The weighted mean `dot / total`, or `fallback` when the total is not
      positive. */
  function MeanOr(dot: real, total: real, fallback: real): real
  {
    if total > 0.0 then dot / total else fallback
  }

  /** Scaling every weight by the same positive factor leaves the weighted
      mean (and whether it falls back) unchanged. */
  lemma {:induction false} MeanScaleInvariant(v: seq<real>, w: seq<real>, k: real, fallback: real)
    requires |v| == |w| && k > 0.0
    ensures MeanOr(Dot(v, Scale(w, k)), Sum(Scale(w, k)), fallback) == MeanOr(Dot(v, w), Sum(w), fallback)
  {
    DotScale(v, w, k);
    SumScale(w, k);
    if Sum(w) > 0.0 {
      assert k * Sum(w) > 0.0;
      CancelFactor(Dot(v, w), Sum(w), k);
    } else {
      assert k * Sum(w) <= 0.0;
    }
  }

  lemma ScaleTail(w: seq<real>, k: real)
    requires |w| > 0
    ensures Scale(w, k)[1..] == Scale(w[1..], k)
  {
    forall i | 0 <= i < |w| - 1 ensures Scale(w, k)[1..][i] == Scale(w[1..], k)[i] {
      assert Scale(w, k)[1..][i] == Scale(w, k)[i + 1];
    }
  }

  lemma {:induction false} SumNonNegative(w: seq<real>)
    requires AllNonNegative(w)
    ensures Sum(w) >= 0.0
  {
    if |w| > 0 {
      SumNonNegative(w[1..]);
    }
  }

  /** A non-negative sum is zero exactly when every term is zero. */
  lemma {:induction false} SumZeroIff(w: seq<real>)
    requires AllNonNegative(w)
    ensures Sum(w) == 0.0 <==> forall i :: 0 <= i < |w| ==> w[i] == 0.0
  {
    if |w| > 0 {
      SumZeroIff(w[1..]);
      SumNonNegative(w[1..]);
      if Sum(w) == 0.0 {
        forall i | 0 <= i < |w| ensures w[i] == 0.0 {
          if i > 0 { assert w[i] == w[1..][i - 1]; }
        }
      } else {
        assert w[0] != 0.0 || Sum(w[1..]) != 0.0;
        if w[0] == 0.0 {
          var j :| 0 <= j < |w[1..]| && w[1..][j] != 0.0;
          assert w[j + 1] != 0.0;
        }
      }
    }
  }

  lemma {:induction false} SumScale(w: seq<real>, k: real)
    ensures Sum(Scale(w, k)) == k * Sum(w)
  {
    if |w| > 0 {
      ScaleTail(w, k);
      SumScale(w[1..], k);
    }
  }

  lemma {:induction false} DotScale(v: seq<real>, w: seq<real>, k: real)
    requires |v| == |w|
    ensures Dot(v, Scale(w, k)) == k * Dot(v, w)
  {
    if |v| > 0 {
      ScaleTail(w, k);
      DotScale(v[1..], w[1..], k);
    }
  }

  /** If every positively weighted value lies in [lo, hi] and no weight is
      negative, the weighted sum lies between lo and hi times the total. */
  lemma DotBounds(v: seq<real>, w: seq<real>, lo: real, hi: real)
    requires |v| == |w|
    requires AllNonNegative(w)
    requires forall i :: 0 <= i < |v| && w[i] > 0.0 ==> lo <= v[i] <= hi
    ensures lo * Sum(w) <= Dot(v, w)
    ensures Dot(v, w) <= hi * Sum(w)
  {
    DotLowerBound(v, w, lo);
    DotUpperBound(v, w, hi);
  }

  lemma DotLowerBound(v: seq<real>, w: seq<real>, lo: real)
    requires |v| == |w|
    requires AllNonNegative(w)
    requires forall i :: 0 <= i < |v| && w[i] > 0.0 ==> lo <= v[i]
    ensures lo * Sum(w) <= Dot(v, w)
  {
    DotMonotone(Constant(lo, |v|), v, w);
    DotConstant(lo, w);
  }

  lemma DotUpperBound(v: seq<real>, w: seq<real>, hi: real)
    requires |v| == |w|
    requires AllNonNegative(w)
    requires forall i :: 0 <= i < |v| && w[i] > 0.0 ==> v[i] <= hi
    ensures Dot(v, w) <= hi * Sum(w)
  {
    DotMonotone(v, Constant(hi, |v|), w);
    DotConstant(hi, w);
  }

  /** `n` copies of `c`. */
  function Constant(c: real, n: nat): (r: seq<real>)
    ensures |r| == n
    ensures forall i :: 0 <= i < n ==> r[i] == c
  {
    seq(n, _ => c)
  }

  /** Weighting `n` copies of `c` gives `c` times the total weight. */
  lemma {:induction false} DotConstant(c: real, w: seq<real>)
    ensures Dot(Constant(c, |w|), w) == c * Sum(w)
  {
    if |w| > 0 {
      assert Constant(c, |w|)[1..] == Constant(c, |w| - 1);
      DotConstant(c, w[1..]);
    }
  }

  /** Raising the positively weighted values never lowers the weighted sum. */
  lemma {:induction false} DotMonotone(u: seq<real>, v: seq<real>, w: seq<real>)
    requires |u| == |v| == |w|
    requires AllNonNegative(w)
    requires forall i :: 0 <= i < |w| && w[i] > 0.0 ==> u[i] <= v[i]
    ensures Dot(u, w) <= Dot(v, w)
  {
    if |w| > 0 {
      MonotoneTail(u, v, w);
      DotMonotone(u[1..], v[1..], w[1..]);
      HeadMonotone(u[0], v[0], w[0]);
    }
  }

  /** The premises of `DotMonotone` carry over to the tails. */
  lemma MonotoneTail(u: seq<real>, v: seq<real>, w: seq<real>)
    requires |u| == |v| == |w| > 0
    requires AllNonNegative(w)
    requires forall i :: 0 <= i < |w| && w[i] > 0.0 ==> u[i] <= v[i]
    ensures AllNonNegative(w[1..])
    ensures forall i :: 0 <= i < |w| - 1 && w[1..][i] > 0.0 ==> u[1..][i] <= v[1..][i]
  {
    assert forall i :: 0 <= i < |w| - 1 ==> u[1..][i] == u[i + 1] && v[1..][i] == v[i + 1] && w[1..][i] == w[i + 1];
  }

  /** One term of the weighted sum. */
  lemma HeadMonotone(x: real, y: real, c: real)
    requires c >= 0.0 && (c > 0.0 ==> x <= y)
    ensures x * c <= y * c
  {
    if c > 0.0 {
      assert (y - x) * c >= 0.0;
    }
  }

  /** With exactly one non-zero weight, the weighted sum picks out that value. */
  lemma {:induction false} DotSingle(v: seq<real>, w: seq<real>, j: nat)
    requires |v| == |w| && j < |v|
    requires forall i :: 0 <= i < |w| && i != j ==> w[i] == 0.0
    ensures Dot(v, w) == v[j] * w[j]
    ensures Sum(w) == w[j]
  {
    if j == 0 {
      DotAllZero(v[1..], w[1..]);
    } else {
      DotSingle(v[1..], w[1..], j - 1);
    }
  }

  lemma {:induction false} DotAllZero(v: seq<real>, w: seq<real>)
    requires |v| == |w|
    requires forall i :: 0 <= i < |w| ==> w[i] == 0.0
    ensures Dot(v, w) == 0.0 && Sum(w) == 0.0
  {
    if |v| > 0 {
      DotAllZero(v[1..], w[1..]);
    }
  }

  /** A mean with a single positive weight is the value that carries it. */
  lemma MeanSingle(v: seq<real>, w: seq<real>, j: nat, fallback: real)
    requires |v| == |w| && j < |v| && w[j] > 0.0
    requires forall i :: 0 <= i < |w| && i != j ==> w[i] == 0.0
    ensures MeanOr(Dot(v, w), Sum(w), fallback) == v[j]
  {
    DotSingle(v, w, j);
    var x, c := v[j], w[j];
    assert (x * c) / c == x;
  }
}
