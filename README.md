# ZoomBrot core, modelled in Dafny

ZoomBrot draws the Mandelbrot set in a browser. A WebGL fragment shader runs
once per pixel. It maps the pixel into the complex plane, runs the
escape-time iteration `z := z² + c` for at most 100 steps and turns the
iteration count into a colour. The JavaScript host holds the viewport
`u_boundaries = [lo, hi]`, one interval used for both axes. The PageUp and
PageDown keys zoom that interval in and out by 10% around its centre.

This project models those two pieces and proves their properties:

- `Complex.dfy`: `vec2` values read as complex numbers (addition, squaring,
  squared length, conjugate).
- `Shader.dfy`: the fragment shader. It has the iterate sequence `Iterate(c, n)`,
  the first-escape characterisation `IsFirstEscape` and its functional
  definition `EscapeTime`. `Mandelbrot` is the GLSL loop as a method proved
  equal to `EscapeTime`. It also has the colour map, the normalisation
  `t = iterations / 100`, the pixel-to-plane mapping with its inverse, and the
  shader's `main` (`FragmentMain`), proved equal to the pure `PixelColor`.
- `Viewport.dfy`: the viewport. The pure maps `ZoomedIn`, `ZoomedOut` and
  `HandleKey` work on `Bounds(lo, hi)`. The class `Boundaries` holds the
  two-element `array<real>` that the `keydown` handler updates in place. Its
  methods are proved against those maps.

GLSL and JavaScript floats are modelled as `real`. The test
`length(z) > 4.0` is written `NormSq(z) > 16`, which needs no square root.
The loop updates `z` before it tests it, so loop index `i` tests iterate
`z_{i+1}`, and the seed `z_0 = c` is never tested. The result is the 0-based
index of the first failing test, or 100.

Two points where the code's behaviour is easy to misread, as the model has it:

- The escape test in the code is `length(z) > 4.0`, i.e. `|z|² > 16`, not
  `|z|² > 4`.
- For `c = 2` the code returns 0, not 1. The first tested iterate is
  `z_1 = 2² + 2 = 6`, which already fails the test at loop index 0
  (`TwoEscapesAtFirstTest`).

## Model

| member | source | states |
|---|---|---|
| `Shader.EscapeFrom` | mandelbrot.js:24-30 | Searching from index i, the result r lies in [i, 100]. No test at an index in [i, r) succeeds. If r < 100, the test at r succeeds. |
| `Shader.EscapeTime` | mandelbrot.js:21-31 | The escape count is at most 100 and is the first escape of c: no iterate z_1..z_k is longer than 4, and z_{k+1} is, unless k = 100. |
| `Shader.FirstEscapeUnique` | mandelbrot.js:24-30 | At most one index meets the first-escape characterisation. |
| `Shader.EscapeTimeIsFirstEscape` | mandelbrot.js:21-31 | `EscapeTime(c) == k` holds if and only if k is the first escape of c (both directions). |
| `Shader.NoEscapeIffBounded` | mandelbrot.js:24-30 | The count is 100 exactly when none of the iterates z_1..z_100 has length greater than 4. |
| `Shader.Mandelbrot` | mandelbrot.js:21-31 | The bounded loop with its early return yields a value in [0, 100]. It is the first escape of c and equals `EscapeTime(c)`. The loop invariant is that z is the i-th iterate and no earlier test succeeded. |
| `Shader.StaysAtFixedPoint` | mandelbrot.js:25 | If z_1 is a fixed point p of `z := z² + c`, every later iterate equals p. |
| `Shader.FixedPointNeverEscapes` | mandelbrot.js:23-30 | If z_1 is a fixed point inside the escape radius, the loop runs to 100. |
| `Shader.OriginNeverEscapes` | mandelbrot.js:23-30 | For c = (0, 0) the result is 100. |
| `Shader.MinusTwoNeverEscapes` | mandelbrot.js:23-30 | For c = (-2, 0) the iteration settles at 2 and the result is 100. |
| `Shader.TwoEscapesAtFirstTest` | mandelbrot.js:23-28 | For c = (2, 0) the first tested iterate is 6, so the result is 0. |
| `Shader.IterateOfConj` | mandelbrot.js:25 | The iterates of the conjugate seed are the conjugates of the iterates. |
| `Shader.EscapeTimeOfConj` | mandelbrot.js:21-31 | c and its conjugate get the same count, so the picture is symmetric about the real axis. |
| `Complex.SquareOfConj` | mandelbrot.js:25 | Squaring commutes with conjugation, and conjugation keeps the squared length. |
| `Shader.GetColor` | mandelbrot.js:16-19 | For t in [0, 1] every channel lies in [0, 1]. Red and blue sum to 1, green is half of blue, and blue carries t. |
| `Shader.Normalize` | mandelbrot.js:42 | t lies in [0, 1] if and only if the count lies in [0, 100]. t = 0 exactly for count 0 and t = 1 exactly for count 100. |
| `Shader.MapToPlane` | mandelbrot.js:35-38 | For lo <= hi, a fragment inside the canvas maps inside the square [lo, hi]². Each axis is checked separately. |
| `Shader.Rescale` | mandelbrot.js:35 | One axis maps [0, res] into [lo, hi]. |
| `Shader.MapCorners` | mandelbrot.js:35 | Fragment (0, 0) maps to (lo, lo), and fragment (W, H) maps to (hi, hi). |
| `Shader.MapRoundTrip` | mandelbrot.js:35 | For lo < hi, the inverse map recovers the fragment coordinate from its plane point. |
| `Shader.PlaneRoundTrip` | mandelbrot.js:35 | For lo < hi, every plane point is the image of the fragment the inverse map gives, so the map is onto. |
| `Shader.SquareCanvasDiagonal` | mandelbrot.js:35 | Both axes share the same lo and hi: on a square canvas, a fragment with equal coordinates lands on the diagonal. |
| `Shader.PixelColor` | mandelbrot.js:33-49 | The fragment colour is opaque, every channel lies in [0, 1], and its blue channel times 100 is the escape count of the pixel's plane point. |
| `Shader.ColorOfExtremes` | mandelbrot.js:16-19 | Points that never escape are drawn (0, 0.5, 1, 1). Points that escape at the first test are drawn (1, 0, 0, 1). |
| `Shader.FragmentMain` | mandelbrot.js:33-49 | The shader's `main`, calling the loop method, writes exactly `PixelColor` of its inputs. |
| `Viewport.ZoomedIn` | mandelbrot.js:121-124 | Zoom in keeps the midpoint, makes the range exactly 0.9 of the old one, keeps lo < hi and moves both ends inwards. |
| `Viewport.ZoomedOut` | mandelbrot.js:131-134 | Zoom out keeps the midpoint, makes the range exactly 1.1 of the old one, keeps lo < hi and moves both ends outwards. |
| `Viewport.HandleKey` | mandelbrot.js:117-138 | Every key keeps the midpoint. Key 33 scales the range by 0.9, key 34 by 1.1 and any other key by 1. lo < hi is preserved, and other keys leave the bounds unchanged. |
| `Viewport.ZoomInThenOut` | mandelbrot.js:117-138 | Zoom in then out keeps the midpoint and gives range 0.99 of the original. It never returns to the start when lo < hi. |
| `Viewport.ZoomOutThenIn` | mandelbrot.js:117-138 | Zoom out then in likewise gives range 0.99 of the original and differs from the start. |
| `Viewport.ZoomsCommute` | mandelbrot.js:117-138 | Zooming in then out gives the same interval as zooming out then in. |
| `Viewport.InitialZooms` | mandelbrot.js:112-134 | From [-2, 2], zoom in gives [-1.8, 1.8], zoom out gives [-2.2, 2.2], and in then out gives [-1.98, 1.98]. |
| `Viewport.RepeatedZoomIn` | mandelbrot.js:121-124 | n zoom-ins keep the midpoint and scale the range by 0.9^n. The interval never becomes empty. |
| `Viewport.Boundaries.constructor` | mandelbrot.js:112 | The array starts as [-2.0, 2.0] and satisfies the invariant (two elements, lo < hi). |
| `Viewport.Boundaries.ZoomIn` | mandelbrot.js:121-124 | The array update in place leaves `ZoomedIn` of the old interval and keeps the invariant. |
| `Viewport.Boundaries.ZoomOut` | mandelbrot.js:131-134 | The array update in place leaves `ZoomedOut` of the old interval and keeps the invariant. |
| `Viewport.Boundaries.KeyDown` | mandelbrot.js:117-138 | The handler leaves `HandleKey(keyCode, old interval)`, keeps the invariant, and does not touch the array for other keys. |

## Left out

- WebGL setup (shader compilation, program linking, buffers, attributes, uniforms). These are calls into a browser API whose code is not visible.
- Drawing (`clearColor`, `clear`, `drawArrays`) and the re-upload of `u_boundaries` after each key. They are side effects on the GPU. The model passes the viewport to `FragmentMain` as a parameter instead.
- DOM and event plumbing: `getElementById`, `addEventListener`, `focus`, `alert` and `console.log` are I/O. The handler is modelled as a function of the key code.
- IEEE-754 and GLSL `highp` rounding, and so the precision limit of repeated zoom. All arithmetic is over `real`. Zoom in and out are exact here, while in floats they are only approximately so.
- `length(z)`: the square root is not modelled. `length(z) > 4.0` is written as the equivalent `z.x² + z.y² > 16`.
- `gl_FragCoord` is taken as given. That it is the pixel centre, and that it lies in the canvas, are facts about the GPU, not the shader.
- `Shader.MapToPlane` and `Shader.PixelColor` require a positive resolution. Real division by zero is undefined, and a canvas of zero width or height shades no fragments.
- Per-pixel parallelism: the shader is one pure evaluation for one fragment. No loop over the pixel grid is modelled.
- Viewport.Boundaries.ZoomIn: requires the invariant `lo < hi`, which the source does not check. It holds initially and every key preserves it, so every reachable state meets it.
- Viewport.Boundaries.ZoomOut: requires `lo < hi` for the same reason.
- Viewport.Boundaries.KeyDown: requires `lo < hi` for the same reason.
