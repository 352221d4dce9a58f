/**
 * The gradient builder of `src/interp/cubic.rs`: monotone (Fritsch–Carlson)
 * piecewise-cubic interpolation of one colour channel over sorted control
 * positions, its evaluator, and the 2048-entry RGB table sampled from it.
 *
 * The source returns the evaluator as a closure over `xs`, `ys`, `c1s`,
 * `c2s` and `c3s`; here that closure is the value `Interpolant` and its
 * call is the method `Evaluate`.
 */
module Cubic {
  import opened Wrappers
  import opened Numeric
  import opened HermiteAlgebra

  /** A colour as the source stores it: `(u8, u8, u8)`. */
  type Rgb = (u8, u8, u8)

  /** Number of entries of every sampled gradient table. */
  const TableSize: nat := 2048

  /** Why the builder produces no interpolant. */
  datatype BuildError =
    | LengthMismatch   // `assert_eq!(xs.len(), ys.len())` fails
    | TooFewPoints     // `xs.len() - 1` underflows (no points) or `ms[0]` is out of bounds (one point)
    | NotIncreasing    // two adjacent positions do not increase: a zero or negative run

  /** Why the evaluator produces no value. */
  datatype EvalError = SearchUnderflow   // `mid - 1` with `mid == 0` in the binary search

  /** Why `interpolate_rgb` produces no table. */
  datatype GradientError =
    | ColorCountMismatch   // `assert_eq!(colors.len(), positions.len())` fails
    | ChannelBuild(build: BuildError)
    | ChannelEval(eval: EvalError)

  /** The closure returned by `monotone_cubic_interpolation`, as a value. */
  datatype Interpolant = Interpolant(xs: seq<real>, ys: seq<real>, c1s: seq<real>, c2s: seq<real>, c3s: seq<real>)

  /** Strictly increasing control positions. */
  predicate Increasing(xs: seq<real>)
  {
    forall i, j :: 0 <= i < j < |xs| ==> xs[i] < xs[j]
  }

  /** Inputs the builder turns into an interpolant. */
  predicate Buildable(xs: seq<real>, ys: seq<real>)
  {
    |xs| == |ys| >= 2 && Increasing(xs)
  }

  /** The shape every built interpolant has: `c1s` one per point, `c2s` and `c3s` one per segment. */
  predicate Valid(f: Interpolant)
  {
    && Buildable(f.xs, f.ys)
    && |f.c1s| == |f.xs|
    && |f.c2s| == |f.xs| - 1
    && |f.c3s| == |f.xs| - 1
  }

  /** Consecutive position differences `dxs`. */
  function Deltas(xs: seq<real>): (dxs: seq<real>)
    requires Increasing(xs) && |xs| >= 1
    ensures |dxs| == |xs| - 1
    ensures forall i :: 0 <= i < |dxs| ==> dxs[i] > 0.0
  {
    seq(|xs| - 1, i requires 0 <= i < |xs| - 1 => xs[i + 1] - xs[i])
  }

  /** The slope of the straight line from point `i` to point `i + 1`. */
  function Slope(xs: seq<real>, ys: seq<real>, i: nat): real
    requires i + 1 < |xs| && i + 1 < |ys| && xs[i] < xs[i + 1]
  {
    (ys[i + 1] - ys[i]) / (xs[i + 1] - xs[i])
  }

  /** Secant slopes `ms`: the slope of the straight line through each pair of neighbouring points. */
  function Secants(xs: seq<real>, ys: seq<real>): (ms: seq<real>)
    requires Buildable(xs, ys)
    ensures |ms| == |xs| - 1
    ensures forall i :: 0 <= i < |ms| ==> ms[i] == Slope(xs, ys, i)
  {
    seq(|xs| - 1, i requires 0 <= i < |xs| - 1 => Slope(xs, ys, i))
  }

  /**
   * The interior tangent where both neighbouring secants have the same sign:
   * a weighted harmonic mean of the two, so it lies between them and is at
   * most three times either (the Fritsch–Carlson condition for monotonicity).
   */
  function Blend(dx: real, dxNext: real, m: real, mNext: real): (c: real)
    requires dx > 0.0 && dxNext > 0.0 && m * mNext > 0.0
    ensures m <= mNext ==> m <= c <= mNext
    ensures mNext <= m ==> mNext <= c <= m
    ensures 0.0 < m ==> 0.0 < c <= 3.0 * m && c <= 3.0 * mNext
    ensures m < 0.0 ==> 3.0 * m <= c < 0.0 && 3.0 * mNext <= c
  {
    var common := dx + dxNext;
    HarmonicBlend(common + dxNext, common + dx, m, mNext);
    3.0 * common / ((common + dxNext) / m + (common + dx) / mNext)
  }

  /** The tangent `c1s[k]` at control point `k` of `|ms| + 1` points. */
  function Tangent(dxs: seq<real>, ms: seq<real>, k: nat): real
    requires |dxs| == |ms| >= 1 && k <= |ms|
    requires forall i :: 0 <= i < |dxs| ==> dxs[i] > 0.0
  {
    if k == 0 then ms[0]
    else if k == |ms| then ms[|ms| - 1]
    else if ms[k - 1] * ms[k] <= 0.0 then 0.0
    else Blend(dxs[k - 1], dxs[k], ms[k - 1], ms[k])
  }

  /** Tangents for `|ms| + 1` points, from the run lengths and secants of their segments. */
  function TangentsOf(dxs: seq<real>, ms: seq<real>): (c1s: seq<real>)
    requires |dxs| == |ms| >= 1
    requires forall i :: 0 <= i < |dxs| ==> dxs[i] > 0.0
    ensures |c1s| == |ms| + 1
  {
    seq(|ms| + 1, k requires 0 <= k < |ms| + 1 => Tangent(dxs, ms, k))
  }

  /** All tangents, one per control point. */
  function Tangents(xs: seq<real>, ys: seq<real>): (c1s: seq<real>)
    requires Buildable(xs, ys)
    ensures |c1s| == |xs|
  {
    TangentsOf(Deltas(xs), Secants(xs, ys))
  }

  /** The quadratic coefficients of all segments. */
  function QuadraticsOf(dxs: seq<real>, ms: seq<real>, c1s: seq<real>): (c2s: seq<real>)
    requires |dxs| == |ms| && |c1s| == |ms| + 1
    requires forall i :: 0 <= i < |dxs| ==> dxs[i] > 0.0
    ensures |c2s| == |ms|
  {
    seq(|ms|, i requires 0 <= i < |ms| => Quadratic(c1s[i], c1s[i + 1], ms[i], dxs[i]))
  }

  /** The cubic coefficients of all segments. */
  function CubicsOf(dxs: seq<real>, ms: seq<real>, c1s: seq<real>): (c3s: seq<real>)
    requires |dxs| == |ms| && |c1s| == |ms| + 1
    requires forall i :: 0 <= i < |dxs| ==> dxs[i] > 0.0
    ensures |c3s| == |ms|
  {
    seq(|ms|, i requires 0 <= i < |ms| => CubicTerm(c1s[i], c1s[i + 1], ms[i], dxs[i]))
  }

  /** The interpolant the builder returns for well-formed input. */
  function Build(xs: seq<real>, ys: seq<real>): (f: Interpolant)
    requires Buildable(xs, ys)
    ensures Valid(f) && f.xs == xs && f.ys == ys
  {
    var dxs := Deltas(xs);
    var ms := Secants(xs, ys);
    var c1s := TangentsOf(dxs, ms);
    Interpolant(xs, ys, c1s, QuadraticsOf(dxs, ms, c1s), CubicsOf(dxs, ms, c1s))
  }

  /** What `monotone_cubic_interpolation` produces, failures included. */
  function BuildResult(xs: seq<real>, ys: seq<real>): (r: Result<Interpolant, BuildError>)
    ensures r.Ok? <==> Buildable(xs, ys)
    ensures r.Ok? ==> Valid(r.value) && r.value.xs == xs && r.value.ys == ys
  {
    if |xs| != |ys| then Err(LengthMismatch)
    else if |xs| < 2 then Err(TooFewPoints)
    else if !Increasing(xs) then Err(NotIncreasing)
    else Ok(Build(xs, ys))
  }

  /**
   * `monotone_cubic_interpolation`: three loops build `dxs`/`dys`/`ms`, then
   * `c1s`, then `c2s`/`c3s` by pushing onto growing vectors.
   */
  method MonotoneCubicInterpolation(xs: seq<real>, ys: seq<real>) returns (r: Result<Interpolant, BuildError>)
    ensures r == BuildResult(xs, ys)
    ensures r.Ok? ==> Valid(r.value)
  {
    if |xs| != |ys| {
      return Err(LengthMismatch);
    }
    if |xs| == 0 {
      return Err(TooFewPoints);
    }
    var increasing, dxs, ms := DifferencesAndSlopes(xs, ys);
    if !increasing {
      return Err(NotIncreasing);
    }
    if |xs| < 2 {
      return Err(TooFewPoints);
    }
    var c1s := TangentLoop(dxs, ms);
    var c2s, c3s := CoefficientLoop(dxs, ms, c1s);
    r := Ok(Interpolant(xs, ys, c1s, c2s, c3s));
  }

  /** The first loop: consecutive differences and secant slopes, stopping at a run that does not increase. */
  method DifferencesAndSlopes(xs: seq<real>, ys: seq<real>) returns (increasing: bool, dxs: seq<real>, ms: seq<real>)
    requires |xs| == |ys| >= 1
    ensures increasing == Increasing(xs)
    ensures increasing && |xs| >= 2 ==> dxs == Deltas(xs) && ms == Secants(xs, ys)
  {
    var n := |xs|;
    dxs, ms := [], [];
    var dys: seq<real> := [];
    var i := 0;
    while i < n - 1
      invariant 0 <= i <= n - 1
      invariant |dxs| == i && |dys| == i && |ms| == i
      invariant forall j :: 0 <= j < i ==> dxs[j] == xs[j + 1] - xs[j] && dys[j] == ys[j + 1] - ys[j]
      invariant forall j :: 0 <= j < i ==> xs[j] < xs[j + 1] && ms[j] == Slope(xs, ys, j)
    {
      var dx := xs[i + 1] - xs[i];
      var dy := ys[i + 1] - ys[i];
      if dx <= 0.0 {
        assert !(xs[i] < xs[i + 1]);
        return false, dxs, ms;
      }
      dxs := dxs + [dx];
      dys := dys + [dy];
      ms := ms + [dy / dx];
      i := i + 1;
    }
    AdjacentIncreasing(xs);
    increasing := true;
  }

  /** Positions that increase at every step increase overall. */
  lemma {:induction false} AdjacentIncreasing(xs: seq<real>)
    requires forall j :: 0 <= j < |xs| - 1 ==> xs[j] < xs[j + 1]
    ensures Increasing(xs)
    decreases |xs|
  {
    if |xs| > 1 {
      var front := xs[..|xs| - 1];
      AdjacentIncreasing(front);
      forall i, j | 0 <= i < j < |xs|
        ensures xs[i] < xs[j]
      {
        if j < |xs| - 1 {
          assert front[i] < front[j];
        } else if i < j - 1 {
          assert front[i] < front[j - 1];
        }
      }
    }
  }

  /** The second loop: `c1s` starts with `ms[0]`, gets one tangent per interior point and ends with the last secant. */
  method TangentLoop(dxs: seq<real>, ms: seq<real>) returns (c1s: seq<real>)
    requires |dxs| == |ms| >= 1
    requires forall i :: 0 <= i < |dxs| ==> dxs[i] > 0.0
    ensures c1s == TangentsOf(dxs, ms)
  {
    c1s := [ms[0]];
    var i := 0;
    while i < |dxs| - 1
      invariant 0 <= i <= |dxs| - 1
      invariant |c1s| == i + 1
      invariant forall k :: 0 <= k <= i ==> c1s[k] == Tangent(dxs, ms, k)
    {
      var m := ms[i];
      var mNext := ms[i + 1];
      if m * mNext <= 0.0 {
        c1s := c1s + [0.0];
      } else {
        c1s := c1s + [Blend(dxs[i], dxs[i + 1], m, mNext)];
      }
      i := i + 1;
    }
    c1s := c1s + [ms[|ms| - 1]];
  }

  /** The third loop: the quadratic and cubic coefficient of every segment. */
  method CoefficientLoop(dxs: seq<real>, ms: seq<real>, c1s: seq<real>) returns (c2s: seq<real>, c3s: seq<real>)
    requires |dxs| == |ms| && |c1s| == |ms| + 1
    requires forall i :: 0 <= i < |dxs| ==> dxs[i] > 0.0
    ensures c2s == QuadraticsOf(dxs, ms, c1s) && c3s == CubicsOf(dxs, ms, c1s)
  {
    c2s, c3s := [], [];
    var i := 0;
    while i < |c1s| - 1
      invariant 0 <= i <= |c1s| - 1
      invariant |c2s| == i && |c3s| == i
      invariant forall k :: 0 <= k < i ==> c2s[k] == Quadratic(c1s[k], c1s[k + 1], ms[k], dxs[k])
      invariant forall k :: 0 <= k < i ==> c3s[k] == CubicTerm(c1s[k], c1s[k + 1], ms[k], dxs[k])
    {
      var c1 := c1s[i];
      var m := ms[i];
      var invDx := 1.0 / dxs[i];
      var common := c1 + c1s[i + 1] - m - m;
      c2s := c2s + [(m - c1 - common) * invDx];
      c3s := c3s + [common * invDx * invDx];
      i := i + 1;
    }
  }

  /**
   * The last index of `xs` whose position is at or below `x`, found by a
   * scan from the end: the reference the binary search is proved against.
   */
  function Locate(xs: seq<real>, x: real): (i: nat)
    requires |xs| > 0 && xs[0] <= x
    ensures i < |xs| && xs[i] <= x
    ensures forall j :: i < j < |xs| ==> x < xs[j]
  {
    if xs[|xs| - 1] <= x then |xs| - 1 else Locate(xs[..|xs| - 1], x)
  }

  /** Any index satisfying Locate's contract is its result. */
  lemma LocateIsLast(xs: seq<real>, x: real, k: nat)
    requires k < |xs| && xs[0] <= x && xs[k] <= x
    requires forall j :: k < j < |xs| ==> x < xs[j]
    ensures Locate(xs, x) == k
  {
  }

  /** The cubic of segment `i` at offset `d` from its left end. */
  function SegmentValue(f: Interpolant, i: nat, d: real): real
    requires Valid(f) && i < |f.xs| - 1
  {
    Poly(f.ys[i], f.c1s[i], f.c2s[i], f.c3s[i], d)
  }

  /** The derivative of segment `i` at offset `d`. */
  function SegmentSlope(f: Interpolant, i: nat, d: real): real
    requires Valid(f) && i < |f.xs| - 1
  {
    PolySlope(f.c1s[i], f.c2s[i], f.c3s[i], d)
  }

  /** Negative channel values are raised to 0. */
  function Clamp(p: real): real
  {
    if p < 0.0 then 0.0 else p
  }

  /**
   * What the evaluator returns at `x`: the stored value at a control
   * position, otherwise the clamped cubic of the segment whose left end is
   * the last position below `x`; a query left of the first position makes
   * the search underflow.
   */
  function Eval(f: Interpolant, x: real): Result<real, EvalError>
    requires Valid(f)
  {
    var n := |f.xs|;
    if x == f.xs[n - 1] then Ok(f.ys[n - 1])
    else if x < f.xs[0] then Err(SearchUnderflow)
    else
      var i := Locate(f.xs[..n - 1], x);
      if f.xs[i] == x then Ok(f.ys[i]) else Ok(Clamp(SegmentValue(f, i, x - f.xs[i])))
  }

  /**
   * The closure body: check the last position, binary-search positions
   * `0..n-2`, then evaluate the segment cubic and clamp it at 0.
   */
  method Evaluate(f: Interpolant, x: real) returns (r: Result<real, EvalError>)
    requires Valid(f)
    ensures r == Eval(f, x)
  {
    var n := |f.xs|;
    var i := n - 1;
    if x == f.xs[i] {
      return Ok(f.ys[i]);
    }
    var low: nat := 0;
    var high: nat := |f.c3s| - 1;
    while low <= high
      invariant low <= high + 1 <= n - 1
      invariant forall j :: 0 <= j < low ==> f.xs[j] < x
      invariant forall j :: high < j < n - 1 ==> x < f.xs[j]
      decreases high - low
    {
      var mid := (high + low) / 2;
      var xHere := f.xs[mid];
      if xHere < x {
        low := mid + 1;
      } else if xHere > x {
        if mid == 0 {
          return Err(SearchUnderflow);
        }
        high := mid - 1;
      } else {
        assert Locate(f.xs[..n - 1], x) == mid;
        return Ok(f.ys[mid]);
      }
    }
    if high > 0 {
      i := high;
    } else {
      i := 0;
    }
    assert f.xs[0] <= f.xs[high] < x;
    LocateIsLast(f.xs[..n - 1], x, i);
    var pVal := SegmentAt(f, i, x);
    return Ok(pVal);
  }

  /** The tail of the closure: the segment cubic at `x`, raised to 0 when negative. */
  method SegmentAt(f: Interpolant, i: nat, x: real) returns (pVal: real)
    requires Valid(f) && i < |f.xs| - 1
    ensures pVal == Clamp(SegmentValue(f, i, x - f.xs[i]))
  {
    var diff := x - f.xs[i];
    var diffSq := diff * diff;
    pVal := f.ys[i] + f.c1s[i] * diff + f.c2s[i] * diffSq + f.c3s[i] * diff * diffSq;
    if pVal < 0.0 {
      pVal := 0.0;
    }
  }

  /** At every control position the evaluator returns the stored value, unclamped. */
  lemma EvalAtKnot(f: Interpolant, k: nat)
    requires Valid(f) && k < |f.xs|
    ensures Eval(f, f.xs[k]) == Ok(f.ys[k])
  {
    var n := |f.xs|;
    if k < n - 1 {
      LocateIsLast(f.xs[..n - 1], f.xs[k], k);
    }
  }

  /** The evaluator fails exactly for queries left of the first control position. */
  lemma EvalErrIff(f: Interpolant, x: real)
    requires Valid(f)
    ensures Eval(f, x).Err? <==> x < f.xs[0]
  {
  }

  /** Strictly inside segment `i`, the value is the clamped cubic of that segment. */
  lemma EvalInSegment(f: Interpolant, i: nat, x: real)
    requires Valid(f) && i < |f.xs| - 1
    requires f.xs[i] < x < f.xs[i + 1]
    ensures Eval(f, x) == Ok(Clamp(SegmentValue(f, i, x - f.xs[i])))
  {
    var n := |f.xs|;
    LocateIsLast(f.xs[..n - 1], x, i);
  }

  /** Right of the last control position the last segment's cubic is extrapolated. */
  lemma EvalBeyondLast(f: Interpolant, x: real)
    requires Valid(f) && f.xs[|f.xs| - 1] < x
    ensures Eval(f, x) == Ok(Clamp(SegmentValue(f, |f.xs| - 2, x - f.xs[|f.xs| - 2])))
  {
    var n := |f.xs|;
    LocateIsLast(f.xs[..n - 1], x, n - 2);
  }

  /** Non-negative control values give non-negative results everywhere the evaluator succeeds. */
  lemma EvalNonNegative(f: Interpolant, x: real)
    requires Valid(f)
    requires forall k :: 0 <= k < |f.ys| ==> f.ys[k] >= 0.0
    ensures Eval(f, x).Ok? ==> Eval(f, x).value >= 0.0
  {
  }

  /** The built interpolant is assembled from the tangent and coefficient sequences. */
  lemma BuildParts(xs: seq<real>, ys: seq<real>)
    requires Buildable(xs, ys)
    ensures Build(xs, ys).c1s == TangentsOf(Deltas(xs), Secants(xs, ys))
    ensures Build(xs, ys).c2s == QuadraticsOf(Deltas(xs), Secants(xs, ys), Build(xs, ys).c1s)
    ensures Build(xs, ys).c3s == CubicsOf(Deltas(xs), Secants(xs, ys), Build(xs, ys).c1s)
  {
  }

  /** Entry `k` of the tangent sequence is the tangent rule at `k`. */
  lemma TangentsOfAt(dxs: seq<real>, ms: seq<real>, k: nat)
    requires |dxs| == |ms| >= 1 && k <= |ms|
    requires forall i :: 0 <= i < |dxs| ==> dxs[i] > 0.0
    ensures TangentsOf(dxs, ms)[k] == Tangent(dxs, ms, k)
  {
  }

  /** Entry `i` of the coefficient sequences is segment `i`'s coefficient. */
  lemma CoefficientsAt(dxs: seq<real>, ms: seq<real>, c1s: seq<real>, i: nat)
    requires |dxs| == |ms| && |c1s| == |ms| + 1 && i < |ms|
    requires forall j :: 0 <= j < |dxs| ==> dxs[j] > 0.0
    ensures QuadraticsOf(dxs, ms, c1s)[i] == Quadratic(c1s[i], c1s[i + 1], ms[i], dxs[i])
    ensures CubicsOf(dxs, ms, c1s)[i] == CubicTerm(c1s[i], c1s[i + 1], ms[i], dxs[i])
  {
  }

  /** The tangent the builder stores at point `k`. */
  lemma BuiltTangent(xs: seq<real>, ys: seq<real>, k: nat)
    requires Buildable(xs, ys) && k < |xs|
    ensures Build(xs, ys).c1s[k] == Tangent(Deltas(xs), Secants(xs, ys), k)
  {
    BuildParts(xs, ys);
    TangentsOfAt(Deltas(xs), Secants(xs, ys), k);
  }

  /**
   * Segment `i` carries the Hermite coefficients for its own secant: the
   * cubic that leaves point `i` with slope `c1s[i]` and arrives at point
   * `i + 1` with slope `c1s[i + 1]`.
   */
  predicate SegmentRule(f: Interpolant, i: nat)
    requires Valid(f) && i < |f.xs| - 1
  {
    var dx := Deltas(f.xs)[i];
    var m := Secants(f.xs, f.ys)[i];
    && f.c2s[i] == Quadratic(f.c1s[i], f.c1s[i + 1], m, dx)
    && f.c3s[i] == CubicTerm(f.c1s[i], f.c1s[i + 1], m, dx)
  }

  /** Every segment carries its Hermite coefficients. */
  predicate HermiteRule(f: Interpolant)
  {
    Valid(f) && forall i :: 0 <= i < |f.xs| - 1 ==> SegmentRule(f, i)
  }

  /** The builder's coefficients of segment `i` follow the Hermite rule. */
  lemma BuiltSegmentRule(xs: seq<real>, ys: seq<real>, i: nat)
    requires Buildable(xs, ys) && i < |xs| - 1
    ensures SegmentRule(Build(xs, ys), i)
  {
    BuildParts(xs, ys);
    CoefficientsAt(Deltas(xs), Secants(xs, ys), Build(xs, ys).c1s, i);
  }

  /** Every interpolant the builder returns follows the Hermite rule. */
  lemma BuildFollowsHermiteRule(xs: seq<real>, ys: seq<real>)
    requires Buildable(xs, ys)
    ensures HermiteRule(Build(xs, ys))
  {
    forall i | 0 <= i < |xs| - 1
      ensures SegmentRule(Build(xs, ys), i)
    {
      BuiltSegmentRule(xs, ys, i);
    }
  }

  /**
   * Under the Hermite rule each segment starts at its control value with its
   * tangent and ends at the next control value with the next tangent, so the
   * curve and its slope are continuous across control points.
   */
  lemma SegmentJoinsNext(f: Interpolant, i: nat, dx: real)
    requires HermiteRule(f) && i < |f.xs| - 1 && dx == f.xs[i + 1] - f.xs[i]
    ensures SegmentValue(f, i, 0.0) == f.ys[i] && SegmentSlope(f, i, 0.0) == f.c1s[i]
    ensures SegmentValue(f, i, dx) == f.ys[i + 1] && SegmentSlope(f, i, dx) == f.c1s[i + 1]
  {
    var m, d := Secants(f.xs, f.ys)[i], Deltas(f.xs)[i];
    assert d == dx && m * d == f.ys[i + 1] - f.ys[i] by {
      SecantRise(f.xs, f.ys, i);
    }
    assert f.c2s[i] == Quadratic(f.c1s[i], f.c1s[i + 1], m, d) && f.c3s[i] == CubicTerm(f.c1s[i], f.c1s[i + 1], m, d) by {
      assert SegmentRule(f, i);
    }
    HermiteSegment(f.ys[i], f.ys[i + 1], f.c1s[i], f.c1s[i + 1], f.c2s[i], f.c3s[i], m, d);
  }

  /** The secant of segment `i` times its run is its rise. */
  lemma SecantRise(xs: seq<real>, ys: seq<real>, i: nat)
    requires Buildable(xs, ys) && i < |xs| - 1
    ensures Deltas(xs)[i] == xs[i + 1] - xs[i]
    ensures Secants(xs, ys)[i] * Deltas(xs)[i] == ys[i + 1] - ys[i]
  {
    QuotientTimesDivisor(ys[i + 1] - ys[i], xs[i + 1] - xs[i]);
  }

  /** The tangent rule: the secant at either end, zero at a turn, between the two secants elsewhere. */
  lemma TangentRule(dxs: seq<real>, ms: seq<real>, k: nat)
    requires |dxs| == |ms| >= 1 && k <= |ms|
    requires forall i :: 0 <= i < |dxs| ==> dxs[i] > 0.0
    ensures k == 0 ==> Tangent(dxs, ms, k) == ms[0]
    ensures k == |ms| ==> Tangent(dxs, ms, k) == ms[k - 1]
    ensures 0 < k < |ms| && ms[k - 1] * ms[k] <= 0.0 ==> Tangent(dxs, ms, k) == 0.0
    ensures 0 < k < |ms| && 0.0 < ms[k - 1] * ms[k] && ms[k - 1] <= ms[k] ==>
              ms[k - 1] <= Tangent(dxs, ms, k) <= ms[k]
    ensures 0 < k < |ms| && 0.0 < ms[k - 1] * ms[k] && ms[k] <= ms[k - 1] ==>
              ms[k] <= Tangent(dxs, ms, k) <= ms[k - 1]
  {
  }

  /**
   * Fritsch–Carlson condition at one point: with non-negative secants the
   * tangent is non-negative and at most three times each adjacent secant.
   */
  lemma NonNegativeTangent(dxs: seq<real>, ms: seq<real>, k: nat)
    requires |dxs| == |ms| >= 1 && k <= |ms|
    requires forall i :: 0 <= i < |dxs| ==> dxs[i] > 0.0
    requires forall i :: 0 <= i < |ms| ==> ms[i] >= 0.0
    ensures Tangent(dxs, ms, k) >= 0.0
    ensures k < |ms| ==> Tangent(dxs, ms, k) <= 3.0 * ms[k]
    ensures 0 < k ==> Tangent(dxs, ms, k) <= 3.0 * ms[k - 1]
  {
  }

  /**
   * Fritsch–Carlson condition: for non-decreasing control values every
   * tangent the builder stores is non-negative and at most three times each
   * adjacent secant, the sufficient condition for monotone segments.
   */
  lemma NonDecreasingTangents(xs: seq<real>, ys: seq<real>)
    requires Buildable(xs, ys)
    requires forall i :: 0 <= i < |xs| - 1 ==> ys[i] <= ys[i + 1]
    ensures forall k :: 0 <= k < |xs| ==> Build(xs, ys).c1s[k] >= 0.0
    ensures forall i :: 0 <= i < |xs| - 1 ==>
              Build(xs, ys).c1s[i] <= 3.0 * Secants(xs, ys)[i] && Build(xs, ys).c1s[i + 1] <= 3.0 * Secants(xs, ys)[i]
  {
    var ms := Secants(xs, ys);
    var dxs := Deltas(xs);
    forall i | 0 <= i < |ms|
      ensures ms[i] >= 0.0
    {
      SecantRise(xs, ys, i);
      SignOfQuotient(ms[i], dxs[i], ys[i + 1] - ys[i]);
    }
    forall k | 0 <= k < |xs|
      ensures Build(xs, ys).c1s[k] >= 0.0
      ensures k < |xs| - 1 ==> Build(xs, ys).c1s[k] <= 3.0 * ms[k]
      ensures 0 < k ==> Build(xs, ys).c1s[k] <= 3.0 * ms[k - 1]
    {
      BuiltTangent(xs, ys, k);
      NonNegativeTangent(dxs, ms, k);
    }
  }

  /** A zero secant on either side of a point makes its tangent zero. */
  lemma TangentBesideFlat(dxs: seq<real>, ms: seq<real>, k: nat)
    requires |dxs| == |ms| >= 1 && k <= |ms|
    requires forall i :: 0 <= i < |dxs| ==> dxs[i] > 0.0
    requires (k < |ms| && ms[k] == 0.0) || (0 < k && ms[k - 1] == 0.0)
    ensures Tangent(dxs, ms, k) == 0.0
  {
  }

  /** Equal neighbouring control values have a zero secant between them. */
  lemma FlatSecant(xs: seq<real>, ys: seq<real>, i: nat)
    requires Buildable(xs, ys) && i < |xs| - 1 && ys[i] == ys[i + 1]
    ensures Secants(xs, ys)[i] == 0.0
  {
    SecantRise(xs, ys, i);
    SignOfQuotient(Secants(xs, ys)[i], Deltas(xs)[i], 0.0);
  }

  /** Both ends of a run of equal control values get a zero tangent from the builder. */
  lemma FlatRunTangents(xs: seq<real>, ys: seq<real>, i: nat)
    requires Buildable(xs, ys) && i < |xs| - 1 && ys[i] == ys[i + 1]
    ensures Build(xs, ys).c1s[i] == 0.0 && Build(xs, ys).c1s[i + 1] == 0.0
  {
    FlatSecant(xs, ys, i);
    TangentBesideFlat(Deltas(xs), Secants(xs, ys), i);
    TangentBesideFlat(Deltas(xs), Secants(xs, ys), i + 1);
    BuiltTangent(xs, ys, i);
    BuiltTangent(xs, ys, i + 1);
  }

  /** A Hermite segment between equal values with zero end tangents is constant: no overshoot. */
  lemma FlatSegment(f: Interpolant, i: nat, d: real)
    requires HermiteRule(f) && i < |f.xs| - 1
    requires f.ys[i] == f.ys[i + 1] && f.c1s[i] == 0.0 && f.c1s[i + 1] == 0.0
    ensures SegmentValue(f, i, d) == f.ys[i]
  {
    assert SegmentRule(f, i);
    var m := Secants(f.xs, f.ys)[i];
    SecantRise(f.xs, f.ys, i);
    SignOfQuotient(m, Deltas(f.xs)[i], 0.0);
    FlatHermite(f.ys[i], f.c1s[i], f.c1s[i + 1], f.c2s[i], f.c3s[i], m, Deltas(f.xs)[i], d);
  }

  /** Component `k` of a colour: red, green or blue. */
  function Component(c: Rgb, k: nat): u8
    requires k < 3
  {
    if k == 0 then c.0 else if k == 1 then c.1 else c.2
  }

  /** One channel of the control colours as reals: `reds`, `greens` or `blues`. */
  function Channel(colors: seq<Rgb>, k: nat): (ys: seq<real>)
    requires k < 3
    ensures |ys| == |colors|
  {
    seq(|colors|, i requires 0 <= i < |colors| => Component(colors[i], k) as int as real)
  }

  /** Where table entry `i` is sampled: `i * (last position / 2048)`. */
  function SamplePoint(positions: seq<real>, i: nat): real
    requires |positions| > 0
  {
    (i as real) * (positions[|positions| - 1] / TableSize as real)
  }

  /** One table entry: the three channels evaluated at `v` and cast to `u8`. */
  function Texel(fr: Interpolant, fg: Interpolant, fb: Interpolant, v: real): Result<Rgb, EvalError>
    requires Valid(fr) && Valid(fg) && Valid(fb)
  {
    match Eval(fr, v)
    case Err(e) => Err(e)
    case Ok(r) =>
      match Eval(fg, v)
      case Err(e) => Err(e)
      case Ok(g) =>
        match Eval(fb, v)
        case Err(e) => Err(e)
        case Ok(b) => Ok((AsU8(r), AsU8(g), AsU8(b)))
  }

  /** The first `count` table entries, or the error of the first sample that fails. */
  function Samples(fr: Interpolant, fg: Interpolant, fb: Interpolant, positions: seq<real>, count: nat)
    : (r: Result<seq<Rgb>, EvalError>)
    requires Valid(fr) && Valid(fg) && Valid(fb) && |positions| > 0
    ensures r.Ok? ==> |r.value| == count
    ensures r.Ok? ==> forall i :: 0 <= i < count ==> Texel(fr, fg, fb, SamplePoint(positions, i)) == Ok(r.value[i])
    decreases count
  {
    if count == 0 then Ok([])
    else
      match Samples(fr, fg, fb, positions, count - 1)
      case Err(e) => Err(e)
      case Ok(prefix) =>
        match Texel(fr, fg, fb, SamplePoint(positions, count - 1))
        case Err(e) => Err(e)
        case Ok(t) => Ok(prefix + [t])
  }

  /** What `interpolate_rgb` produces: the 2048-entry table, or why there is none. */
  function Gradient(colors: seq<Rgb>, positions: seq<real>): Result<seq<Rgb>, GradientError>
  {
    if |colors| != |positions| then Err(ColorCountMismatch)
    else
      match BuildResult(positions, Channel(colors, 0))
      case Err(e) => Err(ChannelBuild(e))
      case Ok(fr) =>
        match BuildResult(positions, Channel(colors, 1))
        case Err(e) => Err(ChannelBuild(e))
        case Ok(fg) =>
          match BuildResult(positions, Channel(colors, 2))
          case Err(e) => Err(ChannelBuild(e))
          case Ok(fb) =>
            match Samples(fr, fg, fb, positions, TableSize)
            case Err(e) => Err(ChannelEval(e))
            case Ok(table) => Ok(table)
  }

  /**
   * `interpolate_rgb`: split the colours into three channel arrays, build
   * one interpolant per channel, and push 2048 sampled colours.
   */
  method InterpolateRgb(colors: seq<Rgb>, positions: seq<real>) returns (r: Result<seq<Rgb>, GradientError>)
    ensures r == Gradient(colors, positions)
  {
    if |colors| != |positions| {
      return Err(ColorCountMismatch);
    }
    var n := |positions|;
    var reds := new real[n];
    var greens := new real[n];
    var blues := new real[n];
    for point := 0 to n
      invariant forall j :: 0 <= j < point ==> reds[j] == Channel(colors, 0)[j]
      invariant forall j :: 0 <= j < point ==> greens[j] == Channel(colors, 1)[j]
      invariant forall j :: 0 <= j < point ==> blues[j] == Channel(colors, 2)[j]
    {
      reds[point] := colors[point].0 as int as real;
      greens[point] := colors[point].1 as int as real;
      blues[point] := colors[point].2 as int as real;
    }
    assert reds[..] == Channel(colors, 0);
    assert greens[..] == Channel(colors, 1);
    assert blues[..] == Channel(colors, 2);
    var redFn := MonotoneCubicInterpolation(positions, reds[..]);
    var greenFn := MonotoneCubicInterpolation(positions, greens[..]);
    var blueFn := MonotoneCubicInterpolation(positions, blues[..]);
    if redFn.Err? || greenFn.Err? || blueFn.Err? {
      // the three channels share their positions, so they fail together
      return Err(ChannelBuild(redFn.error));
    }
    var table := SampleTable(redFn.value, greenFn.value, blueFn.value, positions);
    if table.Err? {
      return Err(ChannelEval(table.error));
    }
    return Ok(table.value);
  }

  /** The sampling loop of `interpolate_rgb`: 2048 colours pushed onto `rgbVec`. */
  method SampleTable(fr: Interpolant, fg: Interpolant, fb: Interpolant, positions: seq<real>)
    returns (r: Result<seq<Rgb>, EvalError>)
    requires Valid(fr) && Valid(fg) && Valid(fb) && |positions| > 0
    ensures r == Samples(fr, fg, fb, positions, TableSize)
  {
    var rgbVec: seq<Rgb> := [];
    for i := 0 to TableSize
      invariant Samples(fr, fg, fb, positions, i) == Ok(rgbVec)
    {
      var v := SamplePoint(positions, i);
      var red := Evaluate(fr, v);
      if red.Err? {
        SamplesStop(fr, fg, fb, positions, i, red.error);
        return Err(red.error);
      }
      var green := Evaluate(fg, v);
      if green.Err? {
        SamplesStop(fr, fg, fb, positions, i, green.error);
        return Err(green.error);
      }
      var blue := Evaluate(fb, v);
      if blue.Err? {
        SamplesStop(fr, fg, fb, positions, i, blue.error);
        return Err(blue.error);
      }
      SamplesExtend(fr, fg, fb, positions, i, rgbVec, red.value, green.value, blue.value);
      rgbVec := rgbVec + [(AsU8(red.value), AsU8(green.value), AsU8(blue.value))];
    }
    return Ok(rgbVec);
  }

  /** A run of samples grows by one entry when the next sample evaluates in all three channels. */
  lemma SamplesExtend(fr: Interpolant, fg: Interpolant, fb: Interpolant, positions: seq<real>, i: nat,
                      prefix: seq<Rgb>, r: real, g: real, b: real)
    requires Valid(fr) && Valid(fg) && Valid(fb) && |positions| > 0
    requires Samples(fr, fg, fb, positions, i) == Ok(prefix)
    requires Eval(fr, SamplePoint(positions, i)) == Ok(r)
    requires Eval(fg, SamplePoint(positions, i)) == Ok(g)
    requires Eval(fb, SamplePoint(positions, i)) == Ok(b)
    ensures Samples(fr, fg, fb, positions, i + 1) == Ok(prefix + [(AsU8(r), AsU8(g), AsU8(b))])
  {
  }

  /** A sample that fails in some channel ends the table with that channel's error. */
  lemma SamplesStop(fr: Interpolant, fg: Interpolant, fb: Interpolant, positions: seq<real>, i: nat, e: EvalError)
    requires Valid(fr) && Valid(fg) && Valid(fb) && |positions| > 0 && i < TableSize
    requires Samples(fr, fg, fb, positions, i).Ok?
    requires || Eval(fr, SamplePoint(positions, i)) == Err(e)
             || (Eval(fr, SamplePoint(positions, i)).Ok? && Eval(fg, SamplePoint(positions, i)) == Err(e))
             || (Eval(fr, SamplePoint(positions, i)).Ok? && Eval(fg, SamplePoint(positions, i)).Ok? &&
                 Eval(fb, SamplePoint(positions, i)) == Err(e))
    ensures Samples(fr, fg, fb, positions, TableSize) == Err(e)
  {
    assert Samples(fr, fg, fb, positions, i + 1) == Err(e);
    SamplesErrStable(fr, fg, fb, positions, i + 1, TableSize, e);
  }

  /** Once a sample fails, every longer run of samples fails with the same error. */
  lemma {:induction false} SamplesErrStable(fr: Interpolant, fg: Interpolant, fb: Interpolant, positions: seq<real>,
                                            count: nat, larger: nat, e: EvalError)
    requires Valid(fr) && Valid(fg) && Valid(fb) && |positions| > 0
    requires count <= larger && Samples(fr, fg, fb, positions, count) == Err(e)
    ensures Samples(fr, fg, fb, positions, larger) == Err(e)
    decreases larger
  {
    if larger > count {
      SamplesErrStable(fr, fg, fb, positions, count, larger - 1, e);
    }
  }

  /** The samples succeed exactly when every one of them evaluates. */
  lemma {:induction false} SamplesOkIff(fr: Interpolant, fg: Interpolant, fb: Interpolant, positions: seq<real>, count: nat)
    requires Valid(fr) && Valid(fg) && Valid(fb) && |positions| > 0
    ensures Samples(fr, fg, fb, positions, count).Ok? <==>
              forall i :: 0 <= i < count ==> Texel(fr, fg, fb, SamplePoint(positions, i)).Ok?
    decreases count
  {
    if count > 0 {
      SamplesOkIff(fr, fg, fb, positions, count - 1);
    }
  }

  /** A table entry over shared positions exists exactly when its sample is not left of the first position. */
  lemma TexelOkIff(fr: Interpolant, fg: Interpolant, fb: Interpolant, v: real)
    requires Valid(fr) && Valid(fg) && Valid(fb) && fr.xs == fg.xs == fb.xs
    ensures Texel(fr, fg, fb, v).Ok? <==> fr.xs[0] <= v
  {
    EvalErrIff(fr, v);
    EvalErrIff(fg, v);
    EvalErrIff(fb, v);
  }

  /** Every sample lies at or right of a first position that is not positive. */
  lemma SamplesRightOfFirst(positions: seq<real>, i: nat)
    requires |positions| >= 2 && Increasing(positions) && positions[0] <= 0.0 && i < TableSize
    ensures positions[0] <= SamplePoint(positions, i)
  {
    var last := positions[|positions| - 1];
    var step := last / TableSize as real;
    if last >= 0.0 {
      assert step >= 0.0;
      assert (i as real) * step >= 0.0;
    } else {
      assert step < 0.0;
      assert (i as real) * step >= (TableSize as real) * step;
      assert (TableSize as real) * step == last;
    }
  }

  /**
   * The table exists exactly when there are as many colours as positions,
   * at least two of them, the positions increase, and the first one is not
   * positive: sample 0 is taken at 0, and a first position above 0 makes
   * the search underflow.
   */
  lemma GradientOkIff(colors: seq<Rgb>, positions: seq<real>)
    ensures Gradient(colors, positions).Ok? <==>
              |colors| == |positions| >= 2 && Increasing(positions) && positions[0] <= 0.0
  {
    if |colors| == |positions| && Buildable(positions, Channel(colors, 0)) {
      var fr := Build(positions, Channel(colors, 0));
      var fg := Build(positions, Channel(colors, 1));
      var fb := Build(positions, Channel(colors, 2));
      SamplesOkIff(fr, fg, fb, positions, TableSize);
      if positions[0] <= 0.0 {
        forall i | 0 <= i < TableSize
          ensures Texel(fr, fg, fb, SamplePoint(positions, i)).Ok?
        {
          SamplesRightOfFirst(positions, i);
          TexelOkIff(fr, fg, fb, SamplePoint(positions, i));
        }
      } else {
        assert SamplePoint(positions, 0) == 0.0;
        TexelOkIff(fr, fg, fb, SamplePoint(positions, 0));
      }
    }
  }

  /** A table holds 2048 entries, entry `i` being the three channels at sample point `i`. */
  lemma GradientEntries(colors: seq<Rgb>, positions: seq<real>, table: seq<Rgb>)
    requires Gradient(colors, positions) == Ok(table)
    ensures |table| == TableSize && |positions| >= 2
    ensures forall i :: 0 <= i < TableSize ==>
              Texel(Build(positions, Channel(colors, 0)), Build(positions, Channel(colors, 1)),
                    Build(positions, Channel(colors, 2)), SamplePoint(positions, i)) == Ok(table[i])
  {
  }

  /** With the first position at 0, the table starts with exactly the first colour. */
  lemma GradientStartsWithFirstColor(colors: seq<Rgb>, positions: seq<real>, table: seq<Rgb>)
    requires Gradient(colors, positions) == Ok(table) && positions[0] == 0.0
    ensures table[0] == colors[0]
  {
    GradientEntries(colors, positions, table);
    var fr := Build(positions, Channel(colors, 0));
    var fg := Build(positions, Channel(colors, 1));
    var fb := Build(positions, Channel(colors, 2));
    assert SamplePoint(positions, 0) == positions[0];
    EvalAtKnot(fr, 0);
    EvalAtKnot(fg, 0);
    EvalAtKnot(fb, 0);
    AsU8OfChannel(colors[0].0);
    AsU8OfChannel(colors[0].1);
    AsU8OfChannel(colors[0].2);
  }

  /** With a positive last position, the samples climb from 0 and stay below it: the last colour is never sampled exactly. */
  lemma SamplesBelowLast(positions: seq<real>, i: nat)
    requires |positions| > 0 && positions[|positions| - 1] > 0.0 && i < TableSize
    ensures 0.0 <= SamplePoint(positions, i) < positions[|positions| - 1]
    ensures i + 1 < TableSize ==> SamplePoint(positions, i) < SamplePoint(positions, i + 1)
  {
    var last := positions[|positions| - 1];
    var step := last / TableSize as real;
    assert step > 0.0;
    assert (TableSize as real) * step == last;
    assert (i as real) * step < (TableSize as real) * step;
    assert ((i + 1) as real) * step == (i as real) * step + step;
  }
}
