/**
 * The fragment shader of the renderer: the map from a fragment coordinate
 * into the complex plane, the escape-time iteration `mandelbrot(c)` and the
 * colour map `getColor(t)`. The shader is evaluated once per pixel; here it
 * is one pure evaluation for one fragment.
 */
module Shader {
  import opened Complex

  /** `const int maxIterations = 100`. */
  const MaxIterations: nat := 100

  /** `length(z) > 4.0`, squared so that no square root is needed. */
  const EscapeRadiusSq: real := 16.0

  // ---------------------------------------------------------------------
  // Escape-time iteration
  // ---------------------------------------------------------------------

  /** One step of the quadratic map z := z*z + c. */
  function Step(z: Vec2, c: Vec2): Vec2 {
    Add(Square(z), c)
  }

  /** The n-th iterate: z_0 = c and z_{n+1} = z_n * z_n + c. */
  function Iterate(c: Vec2, n: nat): Vec2 {
    if n == 0 then c else Step(Iterate(c, n - 1), c)
  }

  predicate Escaped(z: Vec2) {
    NormSq(z) > EscapeRadiusSq
  }

  /**
   * The test that loop index i makes. The loop updates z before testing
   * it, so index i looks at z_{i+1}, and the seed z_0 = c is never tested.
   */
  predicate EscapesAt(c: Vec2, i: nat) {
    Escaped(Iterate(c, i + 1))
  }

  /**
   * k is the escape time of c: no test before index k succeeds, and, unless
   * k is the iteration bound, the test at index k does.
   */
  ghost predicate IsFirstEscape(c: Vec2, k: int) {
    && 0 <= k <= MaxIterations
    && (forall j :: 0 <= j < k ==> !EscapesAt(c, j))
    && (k < MaxIterations ==> EscapesAt(c, k))
  }

  /** The first index in [i, MaxIterations) whose test succeeds, or MaxIterations. */
  function EscapeFrom(c: Vec2, i: nat): (r: nat)
    requires i <= MaxIterations
    ensures i <= r <= MaxIterations
    ensures forall j :: i <= j < r ==> !EscapesAt(c, j)
    ensures r < MaxIterations ==> EscapesAt(c, r)
    decreases MaxIterations - i
  {
    if i == MaxIterations then MaxIterations
    else if EscapesAt(c, i) then i
    else EscapeFrom(c, i + 1)
  }

  /** The value `mandelbrot(c)` returns, as a function. */
  function EscapeTime(c: Vec2): (r: nat)
    ensures r <= MaxIterations
    ensures IsFirstEscape(c, r)
  {
    EscapeFrom(c, 0)
  }

  /** At most one index is the first escape. */
  lemma FirstEscapeUnique(c: Vec2, k1: int, k2: int)
    requires IsFirstEscape(c, k1) && IsFirstEscape(c, k2)
    ensures k1 == k2
  {
  }

  /** The escape time is exactly the first escape, in both directions. */
  lemma EscapeTimeIsFirstEscape(c: Vec2, k: int)
    ensures EscapeTime(c) == k <==> IsFirstEscape(c, k)
  {
    if IsFirstEscape(c, k) {
      FirstEscapeUnique(c, k, EscapeTime(c));
    }
  }

  /**
   * The iteration runs to the bound exactly when none of z_1 .. z_100 is
   * longer than 4.
   */
  lemma NoEscapeIffBounded(c: Vec2)
    ensures EscapeTime(c) == MaxIterations <==>
            forall n :: 1 <= n <= MaxIterations ==> NormSq(Iterate(c, n)) <= EscapeRadiusSq
  {
    var r := EscapeTime(c);
    if r == MaxIterations {
      forall n | 1 <= n <= MaxIterations
        ensures NormSq(Iterate(c, n)) <= EscapeRadiusSq
      {
        assert !EscapesAt(c, n - 1);
      }
    } else {
      var n := r + 1;
      assert EscapesAt(c, r);
      assert 1 <= n <= MaxIterations && NormSq(Iterate(c, n)) > EscapeRadiusSq;
    }
  }

  /** `int mandelbrot(vec2 c)`: the bounded loop with its early return. */
  method Mandelbrot(c: Vec2) returns (iterations: int)
    ensures 0 <= iterations <= MaxIterations
    ensures IsFirstEscape(c, iterations)
    ensures iterations == EscapeTime(c)
  {
    var z := c;
    for i := 0 to MaxIterations
      invariant z == Iterate(c, i)
      invariant forall j :: 0 <= j < i ==> !EscapesAt(c, j)
    {
      z := Step(z, c);
      if NormSq(z) > EscapeRadiusSq {
        FirstEscapeUnique(c, i, EscapeTime(c));
        return i;
      }
    }
    FirstEscapeUnique(c, MaxIterations, EscapeTime(c));
    return MaxIterations;
  }

  /** Once the iteration reaches a fixed point of the map, it stays there. */
  lemma {:induction false} StaysAtFixedPoint(c: Vec2, p: Vec2, n: nat)
    requires Step(c, c) == p && Step(p, c) == p
    requires n >= 1
    ensures Iterate(c, n) == p
  {
    if n > 1 {
      StaysAtFixedPoint(c, p, n - 1);
    }
  }

  /** A seed whose first iterate is a fixed point inside the radius never escapes. */
  lemma FixedPointNeverEscapes(c: Vec2, p: Vec2)
    requires Step(c, c) == p && Step(p, c) == p
    requires NormSq(p) <= EscapeRadiusSq
    ensures EscapeTime(c) == MaxIterations
  {
    var r := EscapeTime(c);
    if r < MaxIterations {
      StaysAtFixedPoint(c, p, r + 1);
    }
  }

  lemma OriginIsFixed(c: Vec2)
    requires c.x == 0.0 && c.y == 0.0
    ensures Step(c, c) == c
  {
    assert c.x * c.x == 0.0;
    assert c.y * c.y == 0.0;
    assert c.x * c.y == 0.0;
  }

  lemma OriginIsShort(c: Vec2)
    requires c.x == 0.0 && c.y == 0.0
    ensures NormSq(c) <= EscapeRadiusSq
  {
    assert c.x * c.x == 0.0;
    assert c.y * c.y == 0.0;
  }

  /** The origin lies in the set: its iteration never escapes. */
  lemma OriginNeverEscapes(c: Vec2)
    requires c.x == 0.0 && c.y == 0.0
    ensures EscapeTime(c) == MaxIterations
  {
    OriginIsFixed(c);
    OriginIsShort(c);
    FixedPointNeverEscapes(c, c);
  }

  lemma MinusTwoFirstStep(c: Vec2, p: Vec2)
    requires c.x == -2.0 && c.y == 0.0 && p.x == 2.0 && p.y == 0.0
    ensures Step(c, c) == p
  {
    assert c.x * c.x == 4.0;
    assert c.y * c.y == 0.0;
    assert c.x * c.y == 0.0;
  }

  lemma MinusTwoStaysAtTwo(c: Vec2, p: Vec2)
    requires c.x == -2.0 && c.y == 0.0 && p.x == 2.0 && p.y == 0.0
    ensures Step(p, c) == p
  {
    assert p.x * p.x == 4.0;
    assert p.y * p.y == 0.0;
    assert p.x * p.y == 0.0;
  }

  lemma TwoIsShort(p: Vec2)
    requires p.x == 2.0 && p.y == 0.0
    ensures NormSq(p) <= EscapeRadiusSq
  {
    assert p.x * p.x == 4.0;
    assert p.y * p.y == 0.0;
  }

  /** The leftmost point of the set, -2, reaches the fixed point 2 and stays. */
  lemma MinusTwoNeverEscapes(c: Vec2)
    requires c.x == -2.0 && c.y == 0.0
    ensures EscapeTime(c) == MaxIterations
  {
    var p := Vec2(-c.x, c.y);
    MinusTwoFirstStep(c, p);
    MinusTwoStaysAtTwo(c, p);
    TwoIsShort(p);
    FixedPointNeverEscapes(c, p);
  }

  lemma TwoFirstIterate(c: Vec2)
    requires c.x == 2.0 && c.y == 0.0
    ensures Iterate(c, 1).x == 6.0
  {
    assert c.x * c.x == 4.0;
    assert c.y * c.y == 0.0;
  }

  lemma SixIsLong(z: Vec2)
    requires z.x == 6.0
    ensures NormSq(z) > EscapeRadiusSq
  {
    assert z.x * z.x == 36.0;
    assert z.y * z.y >= 0.0;
  }

  /** c = 2: the first tested iterate is z_1 = 6, so the loop returns index 0. */
  lemma TwoEscapesAtFirstTest(c: Vec2)
    requires c.x == 2.0 && c.y == 0.0
    ensures EscapeTime(c) == 0
  {
    TwoFirstIterate(c);
    SixIsLong(Iterate(c, 1));
    assert EscapesAt(c, 0);
    EscapeTimeIsFirstEscape(c, 0);
  }

  lemma {:induction false} IterateOfConj(c: Vec2, n: nat)
    ensures Iterate(Conj(c), n) == Conj(Iterate(c, n))
  {
    if n > 0 {
      IterateOfConj(c, n - 1);
      SquareOfConj(Iterate(c, n - 1));
    }
  }

  /** The rendered image is symmetric about the real axis. */
  lemma EscapeTimeOfConj(c: Vec2)
    ensures EscapeTime(Conj(c)) == EscapeTime(c)
  {
    forall j: nat
      ensures EscapesAt(Conj(c), j) == EscapesAt(c, j)
    {
      IterateOfConj(c, j + 1);
      SquareOfConj(Iterate(c, j + 1));
    }
    EscapeTimeIsFirstEscape(Conj(c), EscapeTime(c));
  }

  // ---------------------------------------------------------------------
  // Colour
  // ---------------------------------------------------------------------

  datatype Rgb = Rgb(r: real, g: real, b: real)

  /** A `vec4` colour with alpha. */
  datatype Rgba = Rgba(r: real, g: real, b: real, a: real)

  predicate InUnit(v: real) {
    0.0 <= v <= 1.0
  }

  /**
   * `getColor(t)`: red fades out as t grows, blue fades in, green ramps to
   * half of blue.
   */
  function GetColor(t: real): (color: Rgb)
    ensures InUnit(t) ==> InUnit(color.r) && InUnit(color.g) && InUnit(color.b)
    ensures color.r + color.b == 1.0
    ensures color.g * 2.0 == color.b
    ensures color.b == t
  {
    Rgb(1.0 - t, t * 0.5, t)
  }

  /** `float(iterations) / float(100)`. */
  function Normalize(iterations: int): (t: real)
    ensures 0 <= iterations <= MaxIterations <==> InUnit(t)
    ensures iterations == 0 <==> t == 0.0
    ensures iterations == MaxIterations <==> t == 1.0
    ensures t * 100.0 == iterations as real
  {
    iterations as real / 100.0
  }

  // ---------------------------------------------------------------------
  // Coordinate mapping
  // ---------------------------------------------------------------------

  /**
   * `(gl_FragCoord.xy / u_resolution) * (hi - lo) + vec2(lo, lo)`: both axes
   * are rescaled by the same range and offset by the same lo. The uniform
   * `u_boundaries` is the pair (lo, hi) = (boundaries.x, boundaries.y).
   */
  function MapToPlane(fragCoord: Vec2, resolution: Vec2, boundaries: Vec2): (c: Vec2)
    requires resolution.x > 0.0 && resolution.y > 0.0
    ensures boundaries.x <= boundaries.y && 0.0 <= fragCoord.x <= resolution.x ==>
              boundaries.x <= c.x <= boundaries.y
    ensures boundaries.x <= boundaries.y && 0.0 <= fragCoord.y <= resolution.y ==>
              boundaries.x <= c.y <= boundaries.y
  {
    var lo, hi := boundaries.x, boundaries.y;
    Vec2(Rescale(fragCoord.x, resolution.x, lo, hi), Rescale(fragCoord.y, resolution.y, lo, hi))
  }

  /** One axis of the mapping: from [0, res] to [lo, hi]. */
  function Rescale(p: real, res: real, lo: real, hi: real): (q: real)
    requires res > 0.0
    ensures lo <= hi && 0.0 <= p <= res ==> lo <= q <= hi
  {
    var u := p / res;
    FractionWithin(p, res);
    ScaleWithin(u, hi - lo);
    u * (hi - lo) + lo
  }

  lemma FractionWithin(p: real, res: real)
    requires res > 0.0
    ensures 0.0 <= p <= res ==> 0.0 <= p / res <= 1.0
  {
    DivThenMul(p, res);
  }

  lemma ScaleWithin(u: real, range: real)
    ensures 0.0 <= u <= 1.0 && range >= 0.0 ==> 0.0 <= u * range <= range
  {
    if 0.0 <= u <= 1.0 && range >= 0.0 {
      assert u * range <= 1.0 * range;
    }
  }

  /** The inverse of one axis of the mapping: from [lo, hi] back to [0, res]. */
  function Unscale(q: real, res: real, lo: real, hi: real): real
    requires lo < hi
  {
    (q - lo) / (hi - lo) * res
  }

  lemma DivThenMul(a: real, d: real)
    requires d != 0.0
    ensures (a / d) * d == a
  {
  }

  lemma MulThenDiv(a: real, d: real)
    requires d != 0.0
    ensures (a * d) / d == a
  {
  }

  lemma RescaleRoundTrip(p: real, res: real, lo: real, hi: real)
    requires res > 0.0 && lo < hi
    ensures Unscale(Rescale(p, res, lo, hi), res, lo, hi) == p
  {
    var u := p / res;
    assert Rescale(p, res, lo, hi) - lo == u * (hi - lo);
    MulThenDiv(u, hi - lo);
    DivThenMul(p, res);
  }

  lemma UnscaleRoundTrip(q: real, res: real, lo: real, hi: real)
    requires res > 0.0 && lo < hi
    ensures Rescale(Unscale(q, res, lo, hi), res, lo, hi) == q
  {
    var u := (q - lo) / (hi - lo);
    var p := Unscale(q, res, lo, hi);
    assert p == u * res;
    MulThenDiv(u, res);
    assert p / res == u;
    DivThenMul(q - lo, hi - lo);
    assert u * (hi - lo) == q - lo;
    assert Rescale(p, res, lo, hi) == u * (hi - lo) + lo;
  }

  /** The inverse of the mapping: from a point of the plane back to its fragment. */
  function PlaneToFrag(c: Vec2, resolution: Vec2, boundaries: Vec2): Vec2
    requires boundaries.x < boundaries.y
  {
    var lo, hi := boundaries.x, boundaries.y;
    Vec2(Unscale(c.x, resolution.x, lo, hi), Unscale(c.y, resolution.y, lo, hi))
  }

  /** The corners of the canvas go to the corners of the square viewport. */
  lemma MapCorners(resolution: Vec2, boundaries: Vec2)
    requires resolution.x > 0.0 && resolution.y > 0.0
    ensures MapToPlane(Vec2(0.0, 0.0), resolution, boundaries) == Vec2(boundaries.x, boundaries.x)
    ensures MapToPlane(resolution, resolution, boundaries) == Vec2(boundaries.y, boundaries.y)
  {
  }

  lemma MapRoundTrip(fragCoord: Vec2, resolution: Vec2, boundaries: Vec2)
    requires resolution.x > 0.0 && resolution.y > 0.0
    requires boundaries.x < boundaries.y
    ensures PlaneToFrag(MapToPlane(fragCoord, resolution, boundaries), resolution, boundaries) == fragCoord
  {
    RescaleRoundTrip(fragCoord.x, resolution.x, boundaries.x, boundaries.y);
    RescaleRoundTrip(fragCoord.y, resolution.y, boundaries.x, boundaries.y);
  }

  lemma PlaneRoundTrip(c: Vec2, resolution: Vec2, boundaries: Vec2)
    requires resolution.x > 0.0 && resolution.y > 0.0
    requires boundaries.x < boundaries.y
    ensures MapToPlane(PlaneToFrag(c, resolution, boundaries), resolution, boundaries) == c
  {
    UnscaleRoundTrip(c.x, resolution.x, boundaries.x, boundaries.y);
    UnscaleRoundTrip(c.y, resolution.y, boundaries.x, boundaries.y);
  }

  /**
   * Both axes share one interval: fragments with equal x and y coordinates
   * on a square canvas land on the diagonal of the plane.
   */
  lemma SquareCanvasDiagonal(p: real, side: real, boundaries: Vec2)
    requires side > 0.0
    ensures var c := MapToPlane(Vec2(p, p), Vec2(side, side), boundaries); c.x == c.y
  {
  }

  // ---------------------------------------------------------------------
  // The fragment shader's main
  // ---------------------------------------------------------------------

  /** The colour `main` writes to `gl_FragColor`, as a function of its inputs. */
  function PixelColor(fragCoord: Vec2, resolution: Vec2, boundaries: Vec2): (color: Rgba)
    requires resolution.x > 0.0 && resolution.y > 0.0
    ensures color.a == 1.0
    ensures InUnit(color.r) && InUnit(color.g) && InUnit(color.b)
    ensures color.b * 100.0 == EscapeTime(MapToPlane(fragCoord, resolution, boundaries)) as real
  {
    var c := MapToPlane(fragCoord, resolution, boundaries);
    var rgb := GetColor(Normalize(EscapeTime(c)));
    Rgba(rgb.r, rgb.g, rgb.b, 1.0)
  }

  /** Points that never escape are drawn in (0, 0.5, 1); the first-test escapes in pure red. */
  lemma ColorOfExtremes(fragCoord: Vec2, resolution: Vec2, boundaries: Vec2)
    requires resolution.x > 0.0 && resolution.y > 0.0
    ensures var k := EscapeTime(MapToPlane(fragCoord, resolution, boundaries));
            (k == MaxIterations ==> PixelColor(fragCoord, resolution, boundaries) == Rgba(0.0, 0.5, 1.0, 1.0))
            && (k == 0 ==> PixelColor(fragCoord, resolution, boundaries) == Rgba(1.0, 0.0, 0.0, 1.0))
  {
  }

  /** `void main()` of the fragment shader. */
  method FragmentMain(fragCoord: Vec2, resolution: Vec2, boundaries: Vec2) returns (fragColor: Rgba)
    requires resolution.x > 0.0 && resolution.y > 0.0
    ensures fragColor == PixelColor(fragCoord, resolution, boundaries)
  {
    var c := MapToPlane(fragCoord, resolution, boundaries);
    var iterations := Mandelbrot(c);
    var t := Normalize(iterations);
    var color := GetColor(t);
    fragColor := Rgba(color.r, color.g, color.b, 1.0);
  }
}
