/**
 * The command-line helpers and the render loop of `src/main.rs`: splitting
 * and parsing of arguments, the validators, the pixel-to-plane map, the
 * defaults of `handle_fractal`, the colour-table choice and the per-pixel
 * colour index.
 *
 * Library parsers (`str::parse` for `f64`, `u32`, `u8`), the `mandelbrot`
 * iteration and the logarithmic smoothing are parameters of this model.
 */
module Fractalinator {
  import opened Wrappers
  import opened Numeric
  import opened ComplexNum
  import opened Cubic

  // ---------------------------------------------------------------------
  // `str::split` on a single character
  // ---------------------------------------------------------------------

  /** `s.split(sep)` collected into a vector: the pieces between separators, empty pieces kept. */
  function Split(s: string, sep: char): (parts: seq<string>)
    ensures |parts| >= 1
    ensures forall i :: 0 <= i < |parts| ==> sep !in parts[i]
    decreases |s|
  {
    if |s| == 0 then [""]
    else
      var rest := Split(s[1..], sep);
      if s[0] == sep then [""] + rest
      else [[s[0]] + rest[0]] + rest[1..]
  }

  /** The pieces put back together with the separator between them. */
  function Join(parts: seq<string>, sep: char): string
    requires |parts| >= 1
    decreases |parts|
  {
    if |parts| == 1 then parts[0] else parts[0] + [sep] + Join(parts[1..], sep)
  }

  /** Splitting loses nothing: joining the pieces gives the string back. */
  lemma {:induction false} JoinSplit(s: string, sep: char)
    ensures Join(Split(s, sep), sep) == s
    decreases |s|
  {
    if |s| > 0 {
      JoinSplit(s[1..], sep);
      var rest := Split(s[1..], sep);
      if s[0] != sep {
        var parts := Split(s, sep);
        if |rest| > 1 {
          assert parts[1..] == rest[1..];
        }
      }
    }
  }

  /** A string without the separator is one piece. */
  lemma {:induction false} SplitWithoutSep(s: string, sep: char)
    requires sep !in s
    ensures Split(s, sep) == [s]
    decreases |s|
  {
    if |s| > 0 {
      SplitWithoutSep(s[1..], sep);
      assert [s[0]] + s[1..] == s;
    }
  }

  /** A separator-free prefix followed by the separator is split off as the first piece. */
  lemma {:induction false} SplitAfterField(x: string, sep: char, y: string)
    requires sep !in x
    ensures Split(x + [sep] + y, sep) == [x] + Split(y, sep)
    decreases |x|
  {
    var s := x + [sep] + y;
    if |x| > 0 {
      assert s[1..] == x[1..] + [sep] + y;
      SplitAfterField(x[1..], sep, y);
      assert [x[0]] + x[1..] == x;
    } else {
      assert s[1..] == y;
    }
  }

  /** Pieces without the separator come back unchanged from splitting their join. */
  lemma {:induction false} SplitJoin(parts: seq<string>, sep: char)
    requires |parts| >= 1
    requires forall i :: 0 <= i < |parts| ==> sep !in parts[i]
    ensures Split(Join(parts, sep), sep) == parts
    decreases |parts|
  {
    if |parts| == 1 {
      SplitWithoutSep(parts[0], sep);
    } else {
      SplitJoin(parts[1..], sep);
      SplitAfterField(parts[0], sep, Join(parts[1..], sep));
    }
  }

  /** There is one more piece than there are separators. */
  lemma {:induction false} SplitCount(s: string, sep: char)
    ensures |Split(s, sep)| == multiset(s)[sep] + 1
    decreases |s|
  {
    if |s| > 0 {
      SplitCount(s[1..], sep);
      assert s == [s[0]] + s[1..];
      assert multiset(s) == multiset{s[0]} + multiset(s[1..]);
    }
  }

  // ---------------------------------------------------------------------
  // `parse_tripple`
  // ---------------------------------------------------------------------

  /**
   * `parse_tripple`: split on ',', give up with fewer than three fields,
   * otherwise parse the first three and ignore the rest.
   */
  function ParseTriple<T>(s: string, parse: string -> Option<T>): (r: Option<(T, T, T)>)
    ensures r.Some? <==>
              && |Split(s, ',')| >= 3
              && parse(Split(s, ',')[0]).Some? && parse(Split(s, ',')[1]).Some? && parse(Split(s, ',')[2]).Some?
    ensures r.Some? ==>
              r.value == (parse(Split(s, ',')[0]).value, parse(Split(s, ',')[1]).value, parse(Split(s, ',')[2]).value)
  {
    var lst := Split(s, ',');
    if |lst| < 3 then None
    else
      match (parse(lst[0]), parse(lst[1]), parse(lst[2]))
      case (Some(r), Some(g), Some(b)) => Some((r, g, b))
      case _ => None
  }

  /** With fewer than two commas there are fewer than three fields, and nothing is parsed. */
  lemma ParseTripleTooFewFields<T>(s: string, parse: string -> Option<T>)
    requires multiset(s)[','] < 2
    ensures ParseTriple(s, parse) == None
  {
    SplitCount(s, ',');
  }

  /**
   * Three comma-free fields, then nothing or a comma and any further
   * fields: the result is decided by the three fields alone, and is `Some`
   * exactly when each one parses.
   */
  lemma ParseTripleFields<T>(a: string, b: string, c: string, tail: string, parse: string -> Option<T>)
    requires ',' !in a && ',' !in b && ',' !in c
    requires |tail| == 0 || tail[0] == ','
    ensures ParseTriple(a + [','] + b + [','] + c + tail, parse) ==
              if parse(a).Some? && parse(b).Some? && parse(c).Some?
              then Some((parse(a).value, parse(b).value, parse(c).value))
              else None
  {
    var s := a + [','] + b + [','] + c + tail;
    assert s == a + [','] + (b + [','] + (c + tail));
    SplitAfterField(a, ',', b + [','] + (c + tail));
    SplitAfterField(b, ',', c + tail);
    var rest := Split(c + tail, ',');
    assert Split(s, ',') == [a, b] + rest;
    CommaFreeFirstField(c, tail);
  }

  /** When `tail` is empty or opens with a comma, the first piece of `c + tail` is the comma-free `c`. */
  lemma CommaFreeFirstField(c: string, tail: string)
    requires ',' !in c
    requires |tail| == 0 || tail[0] == ','
    ensures Split(c + tail, ',')[0] == c
  {
    FirstPiece(c, tail, ',');
  }

  /** The first piece of `c + tail` is `c` extended by the first piece of `tail`. */
  lemma {:induction false} FirstPiece(c: string, tail: string, sep: char)
    requires sep !in c
    ensures Split(c + tail, sep)[0] == c + Split(tail, sep)[0]
    decreases |c|
  {
    if |c| > 0 {
      assert (c + tail)[1..] == c[1..] + tail;
      FirstPiece(c[1..], tail, sep);
      assert [c[0]] + c[1..] == c;
    } else {
      assert c + tail == tail;
    }
  }

  // ---------------------------------------------------------------------
  // Validators
  // ---------------------------------------------------------------------

  const F64Error: string := "Not a valid f64!"
  const U32Error: string := "Not a valid u32!"

  /** `is_f64`: Ok exactly when the text parses as a float. */
  function IsF64(s: string, parseF64: string -> Option<real>): (r: Result<(), string>)
    ensures r.Ok? <==> parseF64(s).Some?
    ensures r.Err? ==> r.error == F64Error
  {
    if parseF64(s).None? then Err(F64Error) else Ok(())
  }

  /** `is_u32`: Ok exactly when the text parses as a `u32`. */
  function IsU32(s: string, parseU32: string -> Option<u32>): (r: Result<(), string>)
    ensures r.Ok? <==> parseU32(s).Some?
    ensures r.Err? ==> r.error == U32Error
  {
    if parseU32(s).None? then Err(U32Error) else Ok(())
  }

  /**
   * `is_list_of_f64`: check the space-separated tokens in order and return
   * the error of the first one that does not parse.
   */
  method IsListOfF64(s: string, parseF64: string -> Option<real>) returns (r: Result<(), string>)
    ensures r.Ok? <==> forall i :: 0 <= i < |Split(s, ' ')| ==> parseF64(Split(s, ' ')[i]).Some?
    ensures r.Err? ==>
              exists i :: 0 <= i < |Split(s, ' ')| && r == IsF64(Split(s, ' ')[i], parseF64) &&
                forall j :: 0 <= j < i ==> parseF64(Split(s, ' ')[j]).Some?
  {
    var lst := Split(s, ' ');
    for i := 0 to |lst|
      invariant forall j :: 0 <= j < i ==> parseF64(lst[j]).Some?
    {
      var check := IsF64(lst[i], parseF64);
      if check.Err? {
        assert lst[i] == Split(s, ' ')[i];
        return check;
      }
    }
    return Ok(());
  }

  // ---------------------------------------------------------------------
  // `pixel_to_point`
  // ---------------------------------------------------------------------

  /** The zoom actually used: 0 is treated as 1. */
  function EffectiveZoom(zoom: u32): (z: u32)
    ensures z >= 1
    ensures zoom != 0 ==> z == zoom
  {
    if zoom == 0 then 1 else zoom
  }

  /**
   * `pixel_to_point`: the image, shrunk by the zoom, is centred on `center`;
   * pixel `(x, y)` is `(x/zoom, y/zoom)` away from its top-left corner.
   */
  function PixelToPoint(dimensions: (u32, u32), pixel: (u32, u32), zoom: u32, center: Complex): (w: Complex)
    ensures w.re == center.re + (pixel.0 as real - dimensions.0 as real / 2.0) / EffectiveZoom(zoom) as real
    ensures w.im == center.im + (pixel.1 as real - dimensions.1 as real / 2.0) / EffectiveZoom(zoom) as real
  {
    var z := EffectiveZoom(zoom) as real;
    var halfWidth := (dimensions.0 as real / z) / 2.0;
    var halfHeight := (dimensions.1 as real / z) / 2.0;
    OffsetFromMiddle(center.re, dimensions.0 as real, pixel.0 as real, z);
    OffsetFromMiddle(center.im, dimensions.1 as real, pixel.1 as real, z);
    Complex(center.re - halfWidth + pixel.0 as real / z, center.im - halfHeight + pixel.1 as real / z)
  }

  /** `c - (d/z)/2 + p/z` is the centre moved by the offset `p - d/2` scaled by `1/z`. */
  lemma OffsetFromMiddle(c: real, d: real, p: real, z: real)
    requires z > 0.0
    ensures c - (d / z) / 2.0 + p / z == c + (p - d / 2.0) / z
  {
    DivisionSplits(p, -(d / 2.0), z);
    assert (-(d / 2.0)) / z == -((d / z) / 2.0);
  }

  /** The inverse map, from a point of the plane back to (real) pixel coordinates. */
  function PointToPixel(dimensions: (u32, u32), zoom: u32, center: Complex, w: Complex): (real, real)
  {
    var z := EffectiveZoom(zoom) as real;
    ((w.re - center.re) * z + dimensions.0 as real / 2.0, (w.im - center.im) * z + dimensions.1 as real / 2.0)
  }

  /** Zoom 0 draws exactly what zoom 1 draws. */
  lemma ZoomZeroIsOne(dimensions: (u32, u32), pixel: (u32, u32), center: Complex)
    ensures PixelToPoint(dimensions, pixel, 0, center) == PixelToPoint(dimensions, pixel, 1, center)
  {
  }

  /** Pixel (0, 0) is the top-left corner: half the zoomed width and height before the centre. */
  lemma TopLeftPixel(dimensions: (u32, u32), zoom: u32, center: Complex)
    ensures PixelToPoint(dimensions, (0, 0), zoom, center) ==
              Complex(center.re - (dimensions.0 as real / EffectiveZoom(zoom) as real) / 2.0,
                      center.im - (dimensions.1 as real / EffectiveZoom(zoom) as real) / 2.0)
  {
  }

  /**
   * One pixel step moves the point by `1/zoom`: a step right along the real
   * axis only, a step down along the imaginary axis only.
   */
  lemma PixelStep(dimensions: (u32, u32), x: u32, y: u32, zoom: u32, center: Complex)
    ensures x as int + 1 < 0x1_0000_0000 ==>
              && PixelToPoint(dimensions, (x + 1, y), zoom, center).re ==
                   PixelToPoint(dimensions, (x, y), zoom, center).re + 1.0 / EffectiveZoom(zoom) as real
              && PixelToPoint(dimensions, (x + 1, y), zoom, center).im == PixelToPoint(dimensions, (x, y), zoom, center).im
    ensures y as int + 1 < 0x1_0000_0000 ==>
              && PixelToPoint(dimensions, (x, y + 1), zoom, center).im ==
                   PixelToPoint(dimensions, (x, y), zoom, center).im + 1.0 / EffectiveZoom(zoom) as real
              && PixelToPoint(dimensions, (x, y + 1), zoom, center).re == PixelToPoint(dimensions, (x, y), zoom, center).re
  {
    var z := EffectiveZoom(zoom) as real;
    DivisionSplits(x as real, 1.0, z);
    DivisionSplits(y as real, 1.0, z);
  }

  /** `(a + b) / z == a / z + b / z`. */
  lemma DivisionSplits(a: real, b: real, z: real)
    requires z > 0.0
    ensures (a + b) / z == a / z + b / z
  {
  }

  /** The middle pixel of an image with even sides maps to the centre. */
  lemma MiddlePixel(dimensions: (u32, u32), pixel: (u32, u32), zoom: u32, center: Complex)
    requires dimensions.0 as int == 2 * pixel.0 as int && dimensions.1 as int == 2 * pixel.1 as int
    ensures PixelToPoint(dimensions, pixel, zoom, center) == center
  {
    var z := EffectiveZoom(zoom) as real;
    DivisionSplits(pixel.0 as real, pixel.0 as real, z);
    DivisionSplits(pixel.1 as real, pixel.1 as real, z);
  }

  /** Mapping a pixel to the plane and back gives the pixel again: the map is one-to-one. */
  lemma PixelRoundTrip(dimensions: (u32, u32), pixel: (u32, u32), zoom: u32, center: Complex)
    ensures PointToPixel(dimensions, zoom, center, PixelToPoint(dimensions, pixel, zoom, center)) ==
              (pixel.0 as real, pixel.1 as real)
  {
    var z := EffectiveZoom(zoom) as real;
    var w := PixelToPoint(dimensions, pixel, zoom, center);
    var back := PointToPixel(dimensions, zoom, center, w);
    assert back.0 == pixel.0 as real by {
      ScaleBack(center.re, dimensions.0 as real, pixel.0 as real, z, w.re);
    }
    assert back.1 == pixel.1 as real by {
      ScaleBack(center.im, dimensions.1 as real, pixel.1 as real, z, w.im);
    }
  }

  /** One coordinate of the round trip: a coordinate `v` placed by the forward map is sent back to `p`. */
  lemma ScaleBack(c: real, d: real, p: real, z: real, v: real)
    requires z > 0.0
    requires v == c - (d / z) / 2.0 + p / z
    ensures (v - c) * z + d / 2.0 == p
  {
    assert (p / z) * z == p;
    assert (d / z) * z == d;
    assert (p / z - (d / z) / 2.0) * z == (p / z) * z - ((d / z) * z) / 2.0;
  }

  // ---------------------------------------------------------------------
  // Defaults and the colour table of `handle_fractal`
  // ---------------------------------------------------------------------

  const White: Rgb := (255, 255, 255)
  const Black: Rgb := (0, 0, 0)
  const DefaultLimit: u32 := 255

  /** The iteration limit: 255 when absent, otherwise the parsed text (None when it does not parse). */
  function IterationLimit(arg: Option<string>, parseU32: string -> Option<u32>): (r: Option<u32>)
    ensures arg.None? ==> r == Some(DefaultLimit)
    ensures arg.Some? ==> r == parseU32(arg.value)
    ensures arg.Some? && IsU32(arg.value, parseU32).Ok? ==> r.Some?
  {
    match arg
    case None => Some(DefaultLimit)
    case Some(s) => parseU32(s)
  }

  /** The zoom text: "1" when absent. */
  function ZoomText(arg: Option<string>): (s: string)
    ensures arg.None? ==> s == "1"
    ensures arg.Some? ==> s == arg.value
  {
    match arg
    case None => "1"
    case Some(s) => s
  }

  /** The zoom: the zoom text parsed as a `u32` (None when it does not parse). */
  function ZoomSetting(arg: Option<string>, parseU32: string -> Option<u32>): (r: Option<u32>)
    ensures arg.None? ==> r == parseU32("1")
    ensures arg.Some? ==> r == parseU32(arg.value)
  {
    parseU32(ZoomText(arg))
  }

  /** The table the pixels are coloured from: plain white unless both colours and positions were given. */
  function ColorTable(colors: Option<seq<Rgb>>, positions: Option<seq<real>>): (r: Result<seq<Rgb>, GradientError>)
    ensures colors.None? || positions.None? ==> r == Ok([White])
    ensures r.Err? ==> colors.Some? && positions.Some? && r == Gradient(colors.value, positions.value)
  {
    match colors
    case None => Ok([White])
    case Some(c) =>
      match positions
      case None => Ok([White])
      case Some(p) => Gradient(c, p)
  }

  /** The `match` of `handle_fractal` that picks the colour table. */
  method ChooseColorTable(colors: Option<seq<Rgb>>, positions: Option<seq<real>>)
    returns (r: Result<seq<Rgb>, GradientError>)
    ensures r == ColorTable(colors, positions)
  {
    if colors.None? || positions.None? {
      return Ok([White]);
    }
    r := InterpolateRgb(colors.value, positions.value);
  }

  /** Every table that exists is white alone or a full gradient: never empty. */
  lemma ColorTableSize(colors: Option<seq<Rgb>>, positions: Option<seq<real>>)
    requires ColorTable(colors, positions).Ok?
    ensures |ColorTable(colors, positions).value| == 1 || |ColorTable(colors, positions).value| == TableSize
    ensures colors.None? || positions.None? ==> ColorTable(colors, positions).value == [White]
  {
    if colors.Some? && positions.Some? {
      GradientEntries(colors.value, positions.value, ColorTable(colors, positions).value);
    }
  }

  // ---------------------------------------------------------------------
  // The per-pixel colour index
  // ---------------------------------------------------------------------

  /** Why the index expression as written panics. */
  datatype IndexError =
    | RemainderByZero   // `% rgb_vec.len()` of an empty table
    | Underflow         // `usize` subtraction `0 - 1`

  /**
   * The index as written, `k % len - 1` on `usize` with `k` the scaled,
   * smoothed escape count: the subtraction binds after the remainder.
   */
  function ColorIndexAsWritten(k: nat, len: nat): (r: Result<nat, IndexError>)
    ensures r == Err(RemainderByZero) <==> len == 0
    ensures r == Err(Underflow) <==> len > 0 && k % len == 0
    ensures r.Ok? ==> r.value < len - 1 && r.value + 1 == k % len
  {
    if len == 0 then Err(RemainderByZero)
    else if k % len == 0 then Err(Underflow)
    else Ok(k % len - 1)
  }

  /**
   * As written, the index underflows exactly when `k` is a multiple of the
   * table length, and otherwise never selects the last entry.
   */
  lemma AsWrittenIndexRange(k: nat, len: nat)
    requires len > 0
    ensures ColorIndexAsWritten(k, len) == Err(Underflow) <==> k % len == 0
    ensures ColorIndexAsWritten(k, len).Ok? ==> ColorIndexAsWritten(k, len).value < len - 1
  {
  }

  /** With the default one-entry white table every escaping pixel underflows. */
  lemma DefaultTableUnderflows(k: nat)
    ensures ColorIndexAsWritten(k, |ColorTable(None, None).value|) == Err(Underflow)
  {
  }

  /** The index evidently intended: the smoothed count wrapped around the table. */
  function ColorIndex(k: nat, len: nat): (i: nat)
    requires len > 0
    ensures i < len
    ensures k < len ==> i == k
  {
    k % len
  }

  /** Where the written index exists, it is the intended one shifted down by one. */
  lemma AsWrittenIsShifted(k: nat, len: nat)
    requires len > 0 && ColorIndexAsWritten(k, len).Ok?
    ensures ColorIndexAsWritten(k, len).value + 1 == ColorIndex(k, len)
  {
  }

  /** Every entry of the table is reached by some count. */
  lemma ColorIndexCoversTable(len: nat, j: nat)
    requires j < len
    ensures exists k: nat :: ColorIndex(k, len) == j
  {
    assert ColorIndex(j, len) == j;
  }

  // ---------------------------------------------------------------------
  // The render loop
  // ---------------------------------------------------------------------

  /** The settings the render loop reads. */
  datatype RenderConfig = RenderConfig(width: u32, height: u32, zoom: u32, center: Complex, limit: u32)

  /** `lim`: the escape count, with "never escaped" collapsed to 0. */
  function EscapeCount(result: Option<u32>): (lim: u32)
    ensures lim == 0 <==> result.None? || result.value == 0
  {
    match result
    case None => 0
    case Some(count) => count
  }

  /** The escape count of pixel `(x, y)`, as the render loop computes it from the mapped point. */
  function PixelCount(cfg: RenderConfig, escape: (Complex, u32) -> Option<u32>, x: nat, y: nat): u32
    requires x < cfg.width as nat && y < cfg.height as nat
  {
    EscapeCount(escape(PixelToPoint((cfg.width, cfg.height), (x as u32, y as u32), cfg.zoom, cfg.center), cfg.limit))
  }

  /**
   * What the loop body does to pixel `(x, y)` as written: nothing (the
   * buffer's black stays) when the count is 0, otherwise paint the entry at
   * `k % len - 1`, or panic where that index does not exist.
   */
  function PixelColorAsWritten(cfg: RenderConfig, table: seq<Rgb>, escape: (Complex, u32) -> Option<u32>,
                               smoothIndex: u32 -> nat, x: nat, y: nat): (r: Result<Rgb, IndexError>)
    requires x < cfg.width as nat && y < cfg.height as nat
    ensures r.Ok? ==> r.value == Black || r.value in table
  {
    var lim := PixelCount(cfg, escape, x, y);
    if lim == 0 then Ok(Black)
    else
      match ColorIndexAsWritten(smoothIndex(lim), |table|)
      case Err(e) => Err(e)
      case Ok(i) => Ok(table[i])
  }

  /**
   * The pixel as a pixel painted as evidently intended: black when the
   * count is 0, otherwise the table entry at the corrected index.
   */
  function PixelColor(cfg: RenderConfig, table: seq<Rgb>, escape: (Complex, u32) -> Option<u32>,
                      smoothIndex: u32 -> nat, x: nat, y: nat): (c: Rgb)
    requires |table| > 0 && x < cfg.width as nat && y < cfg.height as nat
    ensures c == Black || c in table
  {
    var lim := PixelCount(cfg, escape, x, y);
    if lim == 0 then Black else table[ColorIndex(smoothIndex(lim), |table|)]
  }

  /**
   * As written, a pixel whose point does not escape (or escapes at count 0)
   * is left black; an escaping pixel panics exactly when the table length
   * divides its smoothed count, and is otherwise painted with the entry one
   * before the intended one.
   */
  lemma PixelColorChoice(cfg: RenderConfig, table: seq<Rgb>, escape: (Complex, u32) -> Option<u32>,
                         smoothIndex: u32 -> nat, x: nat, y: nat)
    requires x < cfg.width as nat && y < cfg.height as nat
    ensures var z := PixelToPoint((cfg.width, cfg.height), (x as u32, y as u32), cfg.zoom, cfg.center);
            var result := escape(z, cfg.limit);
            (result.None? || result.value == 0 ==> PixelColorAsWritten(cfg, table, escape, smoothIndex, x, y) == Ok(Black))
    ensures var lim := PixelCount(cfg, escape, x, y);
            lim != 0 ==>
              (PixelColorAsWritten(cfg, table, escape, smoothIndex, x, y).Err? <==>
                 |table| == 0 || smoothIndex(lim) % |table| == 0)
    ensures var lim := PixelCount(cfg, escape, x, y);
            lim != 0 && PixelColorAsWritten(cfg, table, escape, smoothIndex, x, y).Ok? ==>
              && ColorIndex(smoothIndex(lim), |table|) >= 1
              && PixelColorAsWritten(cfg, table, escape, smoothIndex, x, y).value ==
                   table[ColorIndex(smoothIndex(lim), |table|) - 1]
  {
  }

  /** With the default one-entry white table, every escaping pixel panics. */
  lemma DefaultTablePixelPanics(cfg: RenderConfig, escape: (Complex, u32) -> Option<u32>,
                                smoothIndex: u32 -> nat, x: nat, y: nat)
    requires x < cfg.width as nat && y < cfg.height as nat
    requires PixelCount(cfg, escape, x, y) != 0
    ensures PixelColorAsWritten(cfg, ColorTable(None, None).value, escape, smoothIndex, x, y) == Err(Underflow)
  {
  }

  /** As intended, a pixel is painted exactly when its point escapes with a positive count, and only with a table colour. */
  lemma PixelColorIntendedChoice(cfg: RenderConfig, table: seq<Rgb>, escape: (Complex, u32) -> Option<u32>,
                                 smoothIndex: u32 -> nat, x: nat, y: nat)
    requires |table| > 0 && x < cfg.width as nat && y < cfg.height as nat
    ensures var z := PixelToPoint((cfg.width, cfg.height), (x as u32, y as u32), cfg.zoom, cfg.center);
            var result := escape(z, cfg.limit);
            (result.None? || result.value == 0 ==> PixelColor(cfg, table, escape, smoothIndex, x, y) == Black) &&
            (result.Some? && result.value != 0 ==> PixelColor(cfg, table, escape, smoothIndex, x, y) in table)
  {
    var lim := PixelCount(cfg, escape, x, y);
    if lim != 0 {
      var i := ColorIndex(smoothIndex(lim), |table|);
      assert table[i] in table;
    }
  }

  /** Every pixel of the image gets through the loop body without a panic. */
  predicate AllPixelsPaint(cfg: RenderConfig, table: seq<Rgb>, escape: (Complex, u32) -> Option<u32>, smoothIndex: u32 -> nat)
  {
    forall x, y :: 0 <= x < cfg.width as nat && 0 <= y < cfg.height as nat ==>
      PixelColorAsWritten(cfg, table, escape, smoothIndex, x, y).Ok?
  }

  /** Pixel `(x, y)` panics with `e`, and every pixel the loop visits before it (column by column) does not. */
  predicate FirstPanicAt(cfg: RenderConfig, table: seq<Rgb>, escape: (Complex, u32) -> Option<u32>, smoothIndex: u32 -> nat,
                         x: nat, y: nat, e: IndexError)
  {
    && x < cfg.width as nat && y < cfg.height as nat
    && PixelColorAsWritten(cfg, table, escape, smoothIndex, x, y) == Err(e)
    && (forall i, j :: 0 <= i < x && 0 <= j < cfg.height as nat ==> PixelColorAsWritten(cfg, table, escape, smoothIndex, i, j).Ok?)
    && (forall j :: 0 <= j < y ==> PixelColorAsWritten(cfg, table, escape, smoothIndex, x, j).Ok?)
  }

  /** The image has the configured size and every pixel holds what the loop body as written puts there. */
  predicate Painted(cfg: RenderConfig, table: seq<Rgb>, escape: (Complex, u32) -> Option<u32>, smoothIndex: u32 -> nat,
                    img: array2<Rgb>)
    reads img
  {
    && img.Length0 == cfg.width as nat && img.Length1 == cfg.height as nat
    && forall x, y :: 0 <= x < img.Length0 && 0 <= y < img.Length1 ==>
         Ok(img[x, y]) == PixelColorAsWritten(cfg, table, escape, smoothIndex, x, y)
  }

  /** Some pixel panics with `e`, and it is the first the loop reaches. */
  ghost predicate PanicsWith(cfg: RenderConfig, table: seq<Rgb>, escape: (Complex, u32) -> Option<u32>, smoothIndex: u32 -> nat,
                       e: IndexError)
  {
    exists x: nat, y: nat :: FirstPanicAt(cfg, table, escape, smoothIndex, x, y, e)
  }

  /**
   * The nested `x`/`y` loop of `handle_fractal` as written, over a
   * zero-filled image buffer: each pixel is visited once, column by column,
   * and painted only when it escapes; the first pixel whose index does not
   * exist stops the render with that panic.
   */
  method Render(cfg: RenderConfig, table: seq<Rgb>, escape: (Complex, u32) -> Option<u32>, smoothIndex: u32 -> nat)
    returns (r: Result<array2<Rgb>, IndexError>)
    ensures r.Ok? <==> AllPixelsPaint(cfg, table, escape, smoothIndex)
    ensures r.Err? ==> PanicsWith(cfg, table, escape, smoothIndex, r.error)
    ensures r.Ok? ==> fresh(r.value) && Painted(cfg, table, escape, smoothIndex, r.value)
  {
    var w, h := cfg.width as nat, cfg.height as nat;
    var img := new Rgb[w, h]((_, _) => Black);
    for x := 0 to w
      invariant forall i, j :: 0 <= i < x && 0 <= j < h ==>
                  Ok(img[i, j]) == PixelColorAsWritten(cfg, table, escape, smoothIndex, i, j)
      invariant forall i, j :: x <= i < w && 0 <= j < h ==> img[i, j] == Black
    {
      for y := 0 to h
        invariant forall i, j :: 0 <= i < x && 0 <= j < h ==>
                    Ok(img[i, j]) == PixelColorAsWritten(cfg, table, escape, smoothIndex, i, j)
        invariant forall j :: 0 <= j < y ==> Ok(img[x, j]) == PixelColorAsWritten(cfg, table, escape, smoothIndex, x, j)
        invariant forall j :: y <= j < h ==> img[x, j] == Black
        invariant forall i, j :: x < i < w && 0 <= j < h ==> img[i, j] == Black
      {
        var lim := PixelCount(cfg, escape, x, y);
        if lim != 0 {
          var colorI := ColorIndexAsWritten(smoothIndex(lim), |table|);
          if colorI.Err? {
            assert FirstPanicAt(cfg, table, escape, smoothIndex, x, y, colorI.error);
            assert PanicsWith(cfg, table, escape, smoothIndex, colorI.error);
            return Err(colorI.error);
          }
          img[x, y] := table[colorI.value];
        }
      }
    }
    return Ok(img);
  }

  /**
   * The render loop with the corrected index: every pixel is drawn, each
   * with its intended colour.
   */
  method RenderIntended(cfg: RenderConfig, table: seq<Rgb>, escape: (Complex, u32) -> Option<u32>, smoothIndex: u32 -> nat)
    returns (img: array2<Rgb>)
    requires |table| > 0
    ensures fresh(img)
    ensures img.Length0 == cfg.width as nat && img.Length1 == cfg.height as nat
    ensures forall x, y :: 0 <= x < img.Length0 && 0 <= y < img.Length1 ==>
              img[x, y] == PixelColor(cfg, table, escape, smoothIndex, x, y)
  {
    var w, h := cfg.width as nat, cfg.height as nat;
    img := new Rgb[w, h]((_, _) => Black);
    for x := 0 to w
      invariant forall i, j :: 0 <= i < x && 0 <= j < h ==> img[i, j] == PixelColor(cfg, table, escape, smoothIndex, i, j)
      invariant forall i, j :: x <= i < w && 0 <= j < h ==> img[i, j] == Black
    {
      for y := 0 to h
        invariant forall i, j :: 0 <= i < x && 0 <= j < h ==> img[i, j] == PixelColor(cfg, table, escape, smoothIndex, i, j)
        invariant forall j :: 0 <= j < y ==> img[x, j] == PixelColor(cfg, table, escape, smoothIndex, x, j)
        invariant forall j :: y <= j < h ==> img[x, j] == Black
        invariant forall i, j :: x < i < w && 0 <= j < h ==> img[i, j] == Black
      {
        var lim := PixelCount(cfg, escape, x, y);
        if lim != 0 {
          img[x, y] := table[ColorIndex(smoothIndex(lim), |table|)];
        }
      }
    }
  }

  /** Why `handle_fractal` stops before saving an image. */
  datatype FractalError =
    | BadZoom                               // the zoom text does not parse as a `u32`
    | TableError(gradient: GradientError)   // `interpolate_rgb` panics
    | BadLimit                              // the limit text does not parse
    | IndexPanic(index: IndexError)         // the colour index of some pixel does not exist

  /**
   * The zoom read at line 202 and lines 224-262 of `handle_fractal`: parse
   * the zoom, pick the colour table, read the iteration limit, and render.
   */
  method HandleFractal(colors: Option<seq<Rgb>>, positions: Option<seq<real>>, zoomArg: Option<string>,
                       limitArg: Option<string>, width: u32, height: u32, center: Complex,
                       parseU32: string -> Option<u32>, escape: (Complex, u32) -> Option<u32>, smoothIndex: u32 -> nat)
    returns (r: Result<array2<Rgb>, FractalError>)
    ensures ZoomSetting(zoomArg, parseU32).None? ==> r == Err(BadZoom)
    ensures ZoomSetting(zoomArg, parseU32).Some? && ColorTable(colors, positions).Err? ==>
              r == Err(TableError(ColorTable(colors, positions).error))
    ensures (ZoomSetting(zoomArg, parseU32).Some? && ColorTable(colors, positions).Ok? &&
             IterationLimit(limitArg, parseU32).None?) ==> r == Err(BadLimit)
    ensures (ZoomSetting(zoomArg, parseU32).Some? && ColorTable(colors, positions).Ok? &&
             IterationLimit(limitArg, parseU32).Some?) ==>
              var cfg := RenderConfig(width, height, ZoomSetting(zoomArg, parseU32).value, center,
                                      IterationLimit(limitArg, parseU32).value);
              var table := ColorTable(colors, positions).value;
              && (r.Ok? <==> AllPixelsPaint(cfg, table, escape, smoothIndex))
              && (r.Err? ==> r.error.IndexPanic? && PanicsWith(cfg, table, escape, smoothIndex, r.error.index))
              && (r.Ok? ==> fresh(r.value) && Painted(cfg, table, escape, smoothIndex, r.value))
  {
    var zoom := ZoomSetting(zoomArg, parseU32);
    if zoom.None? {
      return Err(BadZoom);
    }
    var rgbVec := ChooseColorTable(colors, positions);
    if rgbVec.Err? {
      return Err(TableError(rgbVec.error));
    }
    var limit := IterationLimit(limitArg, parseU32);
    if limit.None? {
      return Err(BadLimit);
    }
    var cfg := RenderConfig(width, height, zoom.value, center, limit.value);
    var img := Render(cfg, rgbVec.value, escape, smoothIndex);
    if img.Err? {
      return Err(IndexPanic(img.error));
    }
    return Ok(img.value);
  }
}
