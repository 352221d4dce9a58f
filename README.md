# Fractalinator core, modelled in Dafny

Fractalinator renders escape-time fractals to PNG images and colours them from
a gradient. This project models and proves the numeric and parsing core of
that program:

- **The monotone cubic gradient builder** (`src/interp/cubic.rs`).
  `monotone_cubic_interpolation` turns control points `(xs, ys)` into secant
  slopes, Fritsch–Carlson tangents, and quadratic and cubic Hermite
  coefficients. It returns an evaluator that:
  - answers exactly at the last control position;
  - finds the segment by binary search;
  - evaluates that segment's cubic and clamps negative values to 0.

  `interpolate_rgb` builds one interpolant per colour channel and samples a
  2048-entry RGB table (`cubic.dfy`, with the real-number algebra in
  `algebra.dfy`).
- **The escape-time loop** `julia` (`src/fractals/julia.rs`), over complex
  numbers as pairs of reals (`julia.dfy`, `complex.dfy`).
- **The helpers and render loop of `src/main.rs`** (`fractalinator.dfy`):
  - `str::split`;
  - `parse_tripple`, `pixel_to_point` and the `is_f64`/`is_u32`/`is_list_of_f64` validators;
  - the defaults, the colour-table choice, the colour index and the nested pixel loop of `handle_fractal`.

Numbers are modelled as follows (`numeric.dfy`):
- `f64` is `real`.
- `u8` and `u32` are newtypes with their ranges.
- The `as u8` cast truncates toward zero and saturates.

Every panic of the source becomes an error value in the model:
- a failed `assert_eq!`;
- a `usize` underflow, including the colour index of the render loop;
- an out-of-bounds index.

The render loop is modelled as written, panic included (`Fractalinator.Render`).
The loop with the evidently intended colour index is modelled beside it (`Fractalinator.RenderIntended`).

The evaluator closure becomes the datatype `Cubic.Interpolant`, and calling it is the method `Cubic.Evaluate`.

Each imperative routine is a `method`, proved equal to a specification function. The properties the source promises are proved about those functions as lemmas:
- the array-building loops;
- the binary search;
- the table sampling;
- the escape loop;
- the token loop;
- the pixel loop.

Outside inputs become parameters of the model:
- the library parsers (`str::parse` for `f64`, `u32`, `u8`);
- the `mandelbrot` iteration;
- the logarithmic smoothing.

## Model

| member | source | states |
|---|---|---|
| Numeric.AsU8 | src/interp/cubic.rs:19-21 | the `as u8` cast floors values in [0, 256), sends negatives to 0 and values of 256 or more to 255 |
| Numeric.AsU8OfChannel | src/interp/cubic.rs:8-10 | a channel widened to `f64` and cast back to `u8` is unchanged |
| ComplexNum.NormSqr | src/fractals/julia.rs:7 | the squared norm is never negative |
| JuliaSet.Orbit | src/fractals/julia.rs:5-6 | defines iterate k of `z ← z*z + c` |
| JuliaSet.EscapesAt | src/fractals/julia.rs:7 | defines escape at step i: iterate i+1 has squared norm above 4 |
| JuliaSet.EscapeTime | src/fractals/julia.rs:4-13 | a `Some(i)` result has `i < limit` and the (i+1)-th iterate has squared norm above 4 |
| JuliaSet.Julia | src/fractals/julia.rs:4-13 | the early-return loop returns exactly `EscapeTime` |
| JuliaSet.EscapeTimeIsFirstEscape | src/fractals/julia.rs:5-9 | `Some(i)` exactly when `i < limit`, iterate i+1 escapes and no earlier iterate does |
| JuliaSet.EscapeTimeNoneIffBounded | src/fractals/julia.rs:5-12 | `None` exactly when all `limit` iterates have squared norm at most 4 |
| JuliaSet.ZeroLimitNeverEscapes | src/fractals/julia.rs:5-12 | limit 0 always gives `None` |
| JuliaSet.FixedPointOrbit | src/fractals/julia.rs:6 | a fixed point of `z*z + c` stays put for any number of steps |
| JuliaSet.FixedPointNeverEscapes | src/fractals/julia.rs:5-12 | a bounded fixed point never escapes, whatever the limit |
| JuliaSet.OriginNeverEscapes | src/fractals/julia.rs:5-12 | `z = 0, c = 0` gives `None` for every limit |
| JuliaSet.EscapeTimeStable | src/fractals/julia.rs:5-9 | a `Some(i)` under one limit is the same `Some(i)` under any larger limit |
| JuliaSet.FirstStepEscapes | src/fractals/julia.rs:5-8 | if the first iterate escapes, the result is `Some(0)` for any positive limit |
| JuliaSet.FarParameterEscapesAtOnce | src/fractals/julia.rs:5-8 | from `z = 0`, a parameter with squared norm above 4 escapes at step 0 |
| HermiteAlgebra.HarmonicBlend | src/interp/cubic.rs:52-55 | the weighted harmonic blend of two same-sign secants lies between them and within 3 times each |
| HermiteAlgebra.SignOfQuotient | src/interp/cubic.rs:41 | a rise divided by a positive run keeps the rise's sign |
| HermiteAlgebra.HermiteEnd | src/interp/cubic.rs:63-70 | with the source's `c2`/`c3`, the segment cubic at `dx` rises by `m*dx` and has slope `c1Next` |
| HermiteAlgebra.HermiteSegment | src/interp/cubic.rs:63-70 | a segment cubic starts at `y` with slope `c1` and ends at `yNext` with slope `c1Next` |
| HermiteAlgebra.FlatHermite | src/interp/cubic.rs:63-70 | with zero secant and zero end tangents, the cubic is constant |
| Cubic.Deltas | src/interp/cubic.rs:36-40 | `dxs` has n-1 entries, all positive for increasing positions |
| Cubic.Secants | src/interp/cubic.rs:36-42 | `ms` has n-1 entries, each the slope `dy/dx` of its segment |
| Cubic.Blend | src/interp/cubic.rs:52-55 | an interior tangent from same-sign secants lies between them, has their sign and is within 3 times each |
| Cubic.TangentsOf | src/interp/cubic.rs:45-58 | there is one tangent per point: one more than the secants |
| Cubic.QuadraticsOf | src/interp/cubic.rs:61-70 | there is one quadratic coefficient per segment |
| Cubic.CubicsOf | src/interp/cubic.rs:61-70 | there is one cubic coefficient per segment |
| Cubic.Build | src/interp/cubic.rs:29-70 | the builder keeps `xs` and `ys`, with `c1s` of length n and `c2s`/`c3s` of length n-1 |
| Cubic.BuildResult | src/interp/cubic.rs:29-70 | a build succeeds exactly for equal lengths, at least two points and increasing positions |
| Cubic.MonotoneCubicInterpolation | src/interp/cubic.rs:29-70 | the push loops build exactly `BuildResult`, including its error cases |
| Cubic.DifferencesAndSlopes | src/interp/cubic.rs:33-42 | the difference loop reports whether positions increase, and then yields exactly `Deltas` and `Secants` |
| Cubic.AdjacentIncreasing | src/interp/cubic.rs:36-37 | positive adjacent differences make the positions strictly increasing |
| Cubic.TangentLoop | src/interp/cubic.rs:45-58 | the tangent loop yields exactly `TangentsOf(dxs, ms)` |
| Cubic.CoefficientLoop | src/interp/cubic.rs:61-70 | the coefficient loop yields exactly `QuadraticsOf` and `CubicsOf` |
| Cubic.BuiltTangent | src/interp/cubic.rs:45-58 | each built tangent is the tangent rule applied at that point |
| Cubic.TangentRule | src/interp/cubic.rs:45-58 | end tangents equal the end secants; an interior tangent is 0 at a sign change and otherwise lies between its secants |
| Cubic.NonNegativeTangent | src/interp/cubic.rs:49-58 | with non-negative secants every tangent is non-negative and at most 3 times each adjacent secant |
| Cubic.NonDecreasingTangents | src/interp/cubic.rs:36-58 | non-decreasing `ys` give non-negative built tangents within 3 times their secants |
| Cubic.TangentBesideFlat | src/interp/cubic.rs:49-50 | a tangent next to a zero secant is 0 |
| Cubic.FlatSecant | src/interp/cubic.rs:37-41 | equal neighbouring `ys` give a zero secant |
| Cubic.FlatRunTangents | src/interp/cubic.rs:37-58 | equal neighbouring `ys` give zero built tangents at both ends of the segment |
| Cubic.SecantRise | src/interp/cubic.rs:37-41 | secant times run is the rise `ys[i+1] - ys[i]` |
| Cubic.BuildParts | src/interp/cubic.rs:45-70 | the built `c1s`, `c2s`, `c3s` are the tangent, quadratic and cubic sequences of `Deltas` and `Secants` |
| Cubic.TangentsOfAt | src/interp/cubic.rs:45-58 | entry k of the tangent sequence is the tangent rule at k |
| Cubic.CoefficientsAt | src/interp/cubic.rs:63-70 | entry i of the coefficient sequences is the quadratic and cubic term of segment i |
| Cubic.BuiltSegmentRule | src/interp/cubic.rs:63-70 | each built segment's `c2`/`c3` follow the Hermite formulas |
| Cubic.BuildFollowsHermiteRule | src/interp/cubic.rs:61-70 | every built interpolant satisfies the Hermite rule on all segments |
| Cubic.SegmentJoinsNext | src/interp/cubic.rs:63-70 | a segment cubic starts at `ys[i]` with slope `c1s[i]` and reaches `ys[i+1]` with slope `c1s[i+1]` |
| Cubic.FlatSegment | src/interp/cubic.rs:101-103 | between equal `ys` with zero tangents the cubic is flat |
| Cubic.Tangent | src/interp/cubic.rs:45-58 | defines tangent k: the end secants at the ends, 0 at a sign change, the blend otherwise (its properties are `Cubic.TangentRule`) |
| Cubic.Eval | src/interp/cubic.rs:73-109 | defines the evaluator's result: stored value at the last position or an exact match, underflow left of the first position, else the clamped cubic of the located segment (its properties are the `Cubic.Eval…` lemmas) |
| Cubic.Locate | src/interp/cubic.rs:81-100 | the located index is the last position at or below `x` |
| Cubic.LocateIsLast | src/interp/cubic.rs:81-100 | any index that is the last position at or below `x` is the located one |
| Cubic.Evaluate | src/interp/cubic.rs:73-109 | the last-position check, binary search and clamped cubic return exactly `Eval` |
| Cubic.SegmentAt | src/interp/cubic.rs:101-106 | the `diff`/`diff_sq` evaluation is the segment cubic clamped at 0 |
| Cubic.EvalAtKnot | src/interp/cubic.rs:74-94 | at every control position the evaluator returns the stored `ys` value |
| Cubic.EvalErrIff | src/interp/cubic.rs:85-91 | the search underflows exactly for queries left of the first position |
| Cubic.EvalInSegment | src/interp/cubic.rs:85-106 | strictly inside segment i the result is segment i's cubic, clamped |
| Cubic.EvalBeyondLast | src/interp/cubic.rs:96-106 | right of the last position the last segment's cubic is extrapolated |
| Cubic.EvalNonNegative | src/interp/cubic.rs:104-106 | with non-negative `ys` every returned value is non-negative |
| Cubic.Channel | src/interp/cubic.rs:3-11 | each channel array has one entry per colour |
| Cubic.Samples | src/interp/cubic.rs:16-24 | a table of `count` entries, entry i being the three channels at sample point i cast to `u8` |
| Cubic.Gradient | src/interp/cubic.rs:1-27 | defines `interpolate_rgb`'s result: the count check, three channel builds and 2048 samples (its properties are `Cubic.GradientOkIff` and `Cubic.GradientEntries`) |
| Cubic.InterpolateRgb | src/interp/cubic.rs:1-27 | the channel split, three builds and sampling loop return exactly `Gradient` |
| Cubic.SampleTable | src/interp/cubic.rs:16-24 | the 2048-step push loop returns exactly the 2048-entry `Samples` |
| Cubic.SamplesExtend | src/interp/cubic.rs:17-23 | a successful sample appends its cast colour to the table so far |
| Cubic.SamplesStop | src/interp/cubic.rs:17-21 | a failing channel evaluation fails the whole table with that error |
| Cubic.SamplesErrStable | src/interp/cubic.rs:17-24 | once sampling fails it stays failed for any longer table |
| Cubic.SamplesOkIff | src/interp/cubic.rs:17-24 | sampling succeeds exactly when every sample point evaluates |
| Cubic.TexelOkIff | src/interp/cubic.rs:18-21 | a sample evaluates exactly when it is not left of the first position |
| Cubic.SamplesRightOfFirst | src/interp/cubic.rs:18 | with `positions[0] <= 0` every sample point is at or right of the first position |
| Cubic.SamplesBelowLast | src/interp/cubic.rs:18 | sample points start at 0, strictly increase and never reach the last position |
| Cubic.GradientOkIff | src/interp/cubic.rs:1-24 | a table exists exactly for equal lengths, at least two increasing positions, the first at or below 0 |
| Cubic.GradientEntries | src/interp/cubic.rs:16-24 | a table has exactly 2048 entries, entry i sampled at `i * (last / 2048)` |
| Cubic.GradientStartsWithFirstColor | src/interp/cubic.rs:18-23 | with the first position at 0, the table starts with the first colour |
| Fractalinator.Split | src/main.rs:128 | splitting gives at least one piece, and no piece holds the separator |
| Fractalinator.JoinSplit | src/main.rs:128 | joining the pieces with the separator gives the string back |
| Fractalinator.SplitJoin | src/main.rs:128 | separator-free pieces come back unchanged from splitting their join |
| Fractalinator.SplitCount | src/main.rs:128-129 | the number of pieces is the number of separators plus one |
| Fractalinator.SplitWithoutSep | src/main.rs:128 | a string without the separator is a single piece |
| Fractalinator.SplitAfterField | src/main.rs:128 | a separator-free field before a separator is split off as the first piece |
| Fractalinator.FirstPiece | src/main.rs:128 | the first piece of a separator-free prefix plus a rest is the prefix plus the rest's first piece |
| Fractalinator.ParseTripleTooFewFields | src/main.rs:127-131 | with fewer than two commas (fewer than 3 fields) the result is `None` |
| Fractalinator.ParseTripleFields | src/main.rs:127-137 | for three fields, optionally followed by more, the result is `Some` of the three parsed values exactly when each parses; later fields are ignored |
| Fractalinator.CommaFreeFirstField | src/main.rs:128-133 | a comma-free field followed by nothing or a comma is the first piece |
| Fractalinator.ParseTriple | src/main.rs:127-137 | `Some` exactly when there are at least three comma-separated fields and the first three parse, holding their three values |
| Fractalinator.IsF64 | src/main.rs:155-160 | Ok exactly when the text parses as `f64`; the error is "Not a valid f64!" |
| Fractalinator.IsU32 | src/main.rs:162-167 | Ok exactly when the text parses as `u32`; the error is "Not a valid u32!" |
| Fractalinator.IsListOfF64 | src/main.rs:169-177 | Ok exactly when every space-separated token parses; otherwise the error of the first failing token |
| Fractalinator.PixelToPoint | src/main.rs:139-153 | each coordinate is the centre moved by the pixel's offset from the image middle, divided by the zoom |
| Fractalinator.EffectiveZoom | src/main.rs:145 | the zoom used is at least 1 and equals the given zoom unless that is 0 |
| Fractalinator.ZoomZeroIsOne | src/main.rs:145 | zoom 0 maps every pixel where zoom 1 does |
| Fractalinator.TopLeftPixel | src/main.rs:146-152 | pixel (0,0) maps to `center - (w/zoom/2, h/zoom/2)` |
| Fractalinator.PixelStep | src/main.rs:149-152 | one pixel right moves the point by `1/zoom` on the real axis only; one pixel down moves it by `1/zoom` on the imaginary axis only |
| Fractalinator.MiddlePixel | src/main.rs:146-152 | pixel `(w/2, h/2)` maps to the centre |
| Fractalinator.PixelRoundTrip | src/main.rs:139-153 | the inverse affine map sends every mapped pixel back to itself |
| Fractalinator.IterationLimit | src/main.rs:232-235 | the limit is 255 when absent, otherwise the parsed text, which exists whenever the text passes `is_u32` |
| Fractalinator.ZoomText | src/main.rs:202 | the zoom text is "1" when absent, otherwise the given text |
| Fractalinator.ZoomSetting | src/main.rs:202 | the zoom is the `u32` parse of "1" when absent, otherwise of the given text |
| Fractalinator.ColorTable | src/main.rs:224-230 | the table is `[(255,255,255)]` when colours or positions are missing; only the gradient of both can fail |
| Fractalinator.ChooseColorTable | src/main.rs:224-230 | the table is white alone when colours or positions are missing, otherwise the gradient |
| Fractalinator.ColorTableSize | src/main.rs:224-230 | every table is `[(255,255,255)]` or has 2048 entries, so it is never empty |
| Fractalinator.ColorIndexAsWritten | src/main.rs:257 | `k % len - 1` fails by remainder-by-zero exactly for `len == 0` and by underflow exactly when `len` divides `k`; otherwise it is one below `k % len`, so under `len - 1` |
| Fractalinator.AsWrittenIndexRange | src/main.rs:257 | `k % len - 1` underflows exactly when `len` divides `k`, and otherwise never selects the last entry |
| Fractalinator.DefaultTableUnderflows | src/main.rs:257 | with the default one-entry white table the index always underflows |
| Fractalinator.ColorIndex | src/main.rs:257 | the corrected index is within the table and is the count itself when below the length |
| Fractalinator.AsWrittenIsShifted | src/main.rs:257 | where the index as written exists it is the corrected index minus one |
| Fractalinator.ColorIndexCoversTable | src/main.rs:257 | every entry of the table is selected by some count |
| Fractalinator.EscapeCount | src/main.rs:248-251 | the count is 0 exactly for `None` and `Some(0)` |
| Fractalinator.PixelColorAsWritten | src/main.rs:245-259 | what the loop body leaves in a pixel is black or a table colour, or the body panics |
| Fractalinator.PixelColorChoice | src/main.rs:248-259 | as written, a pixel with count 0 stays black; an escaping pixel panics exactly when the table length divides its smoothed count, and is otherwise painted with the entry one before the intended one |
| Fractalinator.DefaultTablePixelPanics | src/main.rs:224-259 | with the default white table every escaping pixel panics |
| Fractalinator.PixelColor | src/main.rs:245-259 | with the corrected index a pixel is black or a table colour |
| Fractalinator.PixelColorIntendedChoice | src/main.rs:248-259 | with the corrected index a pixel stays black exactly when its count is 0, and is otherwise painted with a table colour |
| Fractalinator.Render | src/main.rs:238-262 | the nested loop over a zero-filled buffer finishes exactly when no pixel panics, and then holds every pixel's as-written colour; otherwise it stops with the panic of the first failing pixel, column by column |
| Fractalinator.RenderIntended | src/main.rs:238-262 | the loop with the corrected index draws every pixel with its intended colour |
| Fractalinator.HandleFractal | src/main.rs:202-262 | a bad zoom, a failing table or a bad limit stops in that order; otherwise the image is drawn exactly when no pixel panics, and holds every pixel's as-written colour |

## Left out

- `src/utils/swatch.rs` only fills an image buffer and saves it to disk, so it is left out.
- Argument handling is left out: the clap `App`/`Arg` set-up, `main`, `_main`, `handle_swatch`, lines 200-222 of `handle_fractal` except the zoom default at line 202, and `imgbuf.save`. These are I/O and library plumbing. The zoom default is modelled by `Fractalinator.ZoomSetting`, which `Fractalinator.HandleFractal` uses. The image dimensions and centre are parameters.
- The `mandelbrot` function is not part of this model. It is the parameter `escape` of `Fractalinator.Render`.
- `FromStr`/`str::parse` for `f64`, `u32` and `u8` are library parsers. They are function parameters.
- The `ln`/`sqrt` smoothing at src/main.rs:255-257 depends on the escape count alone. It is the parameter `smoothIndex`, which yields the scaled count `k`.
- The dead expression at src/main.rs:246 has no effect and is not modelled.
- IEEE-754 behaviour is not modelled: NaN, infinities and rounding. Reals are exact.
  - The binary search's midpoint `((high + low) as f64 * 0.5).floor() as usize` is therefore the integer half.
  - The `as u8` cast of a NaN is not modelled.
- Cubic.MonotoneCubicInterpolation: the model rejects positions that do not strictly increase with the error `NotIncreasing`. The source has no such check. On a negative run it computes finite values, and on a zero run NaN or infinities. It can still return a table: for positions `[1.0, 0.0]` every sample is 0, the last position, so all 2048 entries are the last colour.
- Cubic.BuildResult: succeeds only for strictly increasing positions, because of the `NotIncreasing` rejection above. The source would build from any positions.
- Cubic.GradientOkIff: its "exactly when" includes the `NotIncreasing` rejection above. A table the source can return for non-increasing positions is an error here.
- Cubic.NonDecreasingTangents: the sign and 3× bounds of the tangents are proved, not that the sampled interpolant is monotone between control points. That needs heavy nonlinear real arithmetic.
- Cubic.SegmentJoinsNext: states the Hermite end conditions for any interpolant satisfying `HermiteRule`. `Cubic.BuildFollowsHermiteRule` shows every built interpolant does.
- Release-mode `usize` wrap-around is not modelled. Every overflow or underflow is a panic, as in a debug build.
- The zoom is checked as an `f64` by clap but parsed as a `u32` at src/main.rs:202, so a fractional zoom would panic there. The clap check is left out. The `u32` parse is the parser parameter, and its failure is `BadZoom` in `Fractalinator.HandleFractal`.

## Findings

| source | as written | input that shows it | evidently intended | confidence | as-written member | corrected member |
|---|---|---|---|---|---|---|
| src/main.rs:257 | `... as usize % rgb_vec.len() - 1`, where the subtraction binds after the remainder, on `usize` | any escaping pixel with the default one-entry white table: `k % 1 - 1` is `0 - 1` and underflows. With a 2048-entry table, any `k` divisible by 2048 does the same, and the last entry is never chosen | an index in `0..len`, namely `k % len` | high; not executed | Fractalinator.ColorIndexAsWritten, Fractalinator.DefaultTableUnderflows, Fractalinator.DefaultTablePixelPanics | Fractalinator.ColorIndex, Fractalinator.ColorIndexCoversTable, Fractalinator.RenderIntended |
