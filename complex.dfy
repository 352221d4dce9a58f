/** The part of `num::complex::Complex<f64>` the renderer uses, over the reals. */
module ComplexNum {
  datatype Complex = Complex(re: real, im: real)

  const Zero: Complex := Complex(0.0, 0.0)

  function Add(a: Complex, b: Complex): Complex
  {
    Complex(a.re + b.re, a.im + b.im)
  }

  function Mul(a: Complex, b: Complex): Complex
  {
    Complex(a.re * b.re - a.im * b.im, a.re * b.im + a.im * b.re)
  }

  /** The squared modulus `re² + im²`, never negative. */
  function NormSqr(z: Complex): (r: real)
    ensures r >= 0.0
  {
    z.re * z.re + z.im * z.im
  }

  /** `0*0 + 0 == 0`: the origin is a fixed point of the Mandelbrot recurrence. */
  lemma ZeroSquare()
    ensures Add(Mul(Zero, Zero), Zero) == Zero
  {
  }

  /** The origin lies inside the escape disc. */
  lemma ZeroNorm()
    ensures NormSqr(Zero) <= 4.0
  {
  }
}
