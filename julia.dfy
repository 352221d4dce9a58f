/**
 * The escape-time iteration of `src/fractals/julia.rs`: iterate `z ← z*z + c`
 * at most `limit` times and report the first step whose iterate leaves the
 * disc of radius 2.
 */
module JuliaSet {
  import opened Wrappers
  import opened Numeric
  import opened ComplexNum

  /** One pass of the recurrence. */
  function Step(z: Complex, c: Complex): Complex
  {
    Add(Mul(z, z), c)
  }

  /** The value of `z` after `k` passes, starting from `z0`. */
  function Orbit(z0: Complex, c: Complex, k: nat): Complex
  {
    if k == 0 then z0 else Step(Orbit(z0, c, k - 1), c)
  }

  /** The test made at the 0-based step `i`: the iterate produced by that step has `|z|² > 4`. */
  predicate EscapesAt(z0: Complex, c: Complex, i: nat)
  {
    NormSqr(Orbit(z0, c, i + 1)) > 4.0
  }

  /**
   * Reference definition of the escape time, built from the top step down:
   * the answer for `limit` steps is the answer for `limit - 1` steps, unless
   * that is None and the last step escapes.
   */
  function EscapeTime(z0: Complex, c: Complex, limit: u32): (r: Option<u32>)
    ensures r.Some? ==> r.value < limit && EscapesAt(z0, c, r.value as nat)
    decreases limit
  {
    if limit == 0 then None
    else
      match EscapeTime(z0, c, limit - 1)
      case Some(i) => Some(i)
      case None => if EscapesAt(z0, c, limit as nat - 1) then Some(limit - 1) else None
  }

  /** `julia`: the `for` loop overwrites `z` each pass and returns on the first escape. */
  method Julia(z0: Complex, c: Complex, limit: u32) returns (r: Option<u32>)
    ensures r == EscapeTime(z0, c, limit)
  {
    var z := z0;
    var i: u32 := 0;
    while i < limit
      invariant i <= limit
      invariant z == Orbit(z0, c, i as nat)
      invariant EscapeTime(z0, c, i) == None
    {
      z := Add(Mul(z, z), c);
      if NormSqr(z) > 4.0 {
        assert EscapeTime(z0, c, i + 1) == Some(i);
        EscapeTimeStable(z0, c, i + 1, limit, i);
        return Some(i);
      }
      i := i + 1;
    }
    return None;
  }

  /** `Some(i)` is exactly "step i escapes and no earlier step did", for i below the limit. */
  lemma {:induction false} EscapeTimeIsFirstEscape(z0: Complex, c: Complex, limit: u32, i: u32)
    ensures EscapeTime(z0, c, limit) == Some(i) <==>
              i < limit && EscapesAt(z0, c, i as nat) && forall j :: 0 <= j < i as nat ==> !EscapesAt(z0, c, j)
    decreases limit
  {
    if limit > 0 {
      EscapeTimeIsFirstEscape(z0, c, limit - 1, i);
      EscapeTimeNoneIffBounded(z0, c, limit - 1);
    }
  }

  /** None is returned exactly when none of the `limit` steps escapes. */
  lemma {:induction false} EscapeTimeNoneIffBounded(z0: Complex, c: Complex, limit: u32)
    ensures EscapeTime(z0, c, limit) == None <==> forall j :: 0 <= j < limit as nat ==> !EscapesAt(z0, c, j)
    decreases limit
  {
    if limit > 0 {
      EscapeTimeNoneIffBounded(z0, c, limit - 1);
    }
  }

  /** With no steps allowed nothing can escape. */
  lemma ZeroLimitNeverEscapes(z0: Complex, c: Complex)
    ensures EscapeTime(z0, c, 0) == None
  {
  }

  /** A fixed point of the recurrence stays where it is. */
  lemma {:induction false} FixedPointOrbit(z: Complex, c: Complex, k: nat)
    requires Step(z, c) == z
    ensures Orbit(z, c, k) == z
  {
    if k > 0 {
      FixedPointOrbit(z, c, k - 1);
    }
  }

  /** A fixed point inside the escape disc never escapes, whatever the limit. */
  lemma {:induction false} FixedPointNeverEscapes(z: Complex, c: Complex, limit: u32)
    requires Step(z, c) == z && NormSqr(z) <= 4.0
    ensures EscapeTime(z, c, limit) == None
    decreases limit
  {
    if limit > 0 {
      FixedPointNeverEscapes(z, c, limit - 1);
      FixedPointOrbit(z, c, limit as nat);
    }
  }

  /** `z = 0, c = 0` never escapes: the origin is a fixed point of `z ← z*z`. */
  lemma OriginNeverEscapes(limit: u32)
    ensures EscapeTime(Zero, Zero, limit) == None
  {
    ZeroSquare();
    ZeroNorm();
    FixedPointNeverEscapes(Zero, Zero, limit);
  }

  /** Raising the limit does not change an escape already found. */
  lemma {:induction false} EscapeTimeStable(z0: Complex, c: Complex, limit: u32, larger: u32, i: u32)
    requires limit <= larger
    requires EscapeTime(z0, c, limit) == Some(i)
    ensures EscapeTime(z0, c, larger) == Some(i)
    decreases larger
  {
    if larger > limit {
      EscapeTimeStable(z0, c, limit, larger - 1, i);
    }
  }

  /** A start whose first iterate is outside the disc escapes at step 0 for every positive limit. */
  lemma FirstStepEscapes(z0: Complex, c: Complex, limit: u32)
    requires NormSqr(Step(z0, c)) > 4.0 && limit >= 1
    ensures EscapeTime(z0, c, limit) == Some(0)
  {
    assert Orbit(z0, c, 1) == Step(z0, c);
    assert EscapeTime(z0, c, 1) == Some(0);
    EscapeTimeStable(z0, c, 1, limit, 0);
  }

  /**
   * Mandelbrot mode (`z0 = 0`): a parameter `c` with `|c|² > 4` escapes at
   * the very first step for every positive limit.
   */
  lemma FarParameterEscapesAtOnce(c: Complex, limit: u32)
    requires NormSqr(c) > 4.0 && limit >= 1
    ensures EscapeTime(Zero, c, limit) == Some(0)
  {
    assert Step(Zero, c) == c;
    FirstStepEscapes(Zero, c, limit);
  }
}
