/**
 * The viewport of the renderer: the two-element array `u_boundaries`
 * holding the interval [lo, hi] shown on both axes, and the keyboard
 * handler that zooms it in place. Key 33 (PageUp) zooms in by 10%, key 34
 * (PageDown) zooms out by 10%, every other key leaves it alone.
 */
module Viewport {

  const KeyZoomIn: int := 33
  const KeyZoomOut: int := 34

  /** The value of `u_boundaries`: [lo, hi]. */
  datatype Bounds = Bounds(lo: real, hi: real)

  function Width(b: Bounds): real {
    b.hi - b.lo
  }

  function Mid(b: Bounds): real {
    (b.lo + b.hi) / 2.0
  }

  /** The initial value `[-2.0, 2.0]`. */
  const Initial: Bounds := Bounds(-2.0, 2.0)

  /** Zoom in: move both ends inwards by half of 10% of the range. */
  function ZoomedIn(b: Bounds): (r: Bounds)
    ensures Mid(r) == Mid(b)
    ensures Width(r) == 0.9 * Width(b)
    ensures b.lo < b.hi ==> r.lo < r.hi
    ensures b.lo < b.hi ==> b.lo < r.lo && r.hi < b.hi
  {
    var range := b.hi - b.lo;
    var delta := (range - range * 0.9) * 0.5;
    Bounds(b.lo + delta, b.hi - delta)
  }

  /** Zoom out: move both ends outwards by half of 10% of the range. */
  function ZoomedOut(b: Bounds): (r: Bounds)
    ensures Mid(r) == Mid(b)
    ensures Width(r) == 1.1 * Width(b)
    ensures b.lo < b.hi ==> r.lo < r.hi
    ensures b.lo < b.hi ==> r.lo < b.lo && b.hi < r.hi
  {
    var range := b.hi - b.lo;
    var delta := (range * 1.1 - range) * 0.5;
    Bounds(b.lo - delta, b.hi + delta)
  }

  /** The effect of one `keydown` event on the boundaries. */
  function HandleKey(keyCode: int, b: Bounds): (r: Bounds)
    ensures Mid(r) == Mid(b)
    ensures Width(r) == (if keyCode == KeyZoomIn then 0.9
                         else if keyCode == KeyZoomOut then 1.1
                         else 1.0) * Width(b)
    ensures b.lo < b.hi ==> r.lo < r.hi
    ensures keyCode != KeyZoomIn && keyCode != KeyZoomOut ==> r == b
  {
    match keyCode
    case 33 => ZoomedIn(b)
    case 34 => ZoomedOut(b)
    case _ => b
  }

  /** An interval is determined by its midpoint and its width. */
  lemma BoundsFromMidAndWidth(a: Bounds, b: Bounds)
    requires Mid(a) == Mid(b) && Width(a) == Width(b)
    ensures a == b
  {
  }

  /**
   * Zooming in and then out does not return to the start: the range
   * becomes 0.9 * 1.1 = 0.99 of what it was, with the same midpoint.
   */
  lemma ZoomInThenOut(b: Bounds)
    ensures Mid(ZoomedOut(ZoomedIn(b))) == Mid(b)
    ensures Width(ZoomedOut(ZoomedIn(b))) == 0.99 * Width(b)
    ensures b.lo < b.hi ==> ZoomedOut(ZoomedIn(b)) != b
  {
  }

  lemma ZoomOutThenIn(b: Bounds)
    ensures Mid(ZoomedIn(ZoomedOut(b))) == Mid(b)
    ensures Width(ZoomedIn(ZoomedOut(b))) == 0.99 * Width(b)
    ensures b.lo < b.hi ==> ZoomedIn(ZoomedOut(b)) != b
  {
  }

  /** The two zooms commute. */
  lemma ZoomsCommute(b: Bounds)
    ensures ZoomedOut(ZoomedIn(b)) == ZoomedIn(ZoomedOut(b))
  {
    BoundsFromMidAndWidth(ZoomedOut(ZoomedIn(b)), ZoomedIn(ZoomedOut(b)));
  }

  /** The first key presses from the initial viewport. */
  lemma InitialZooms()
    ensures ZoomedIn(Initial) == Bounds(-1.8, 1.8)
    ensures ZoomedOut(Initial) == Bounds(-2.2, 2.2)
    ensures ZoomedOut(ZoomedIn(Initial)) == Bounds(-1.98, 1.98)
  {
  }

  function Pow(base: real, n: nat): real {
    if n == 0 then 1.0 else base * Pow(base, n - 1)
  }

  /** The boundaries after n presses of the zoom-in key. */
  function ZoomedInTimes(b: Bounds, n: nat): Bounds {
    if n == 0 then b else ZoomedIn(ZoomedInTimes(b, n - 1))
  }

  /**
   * Repeated zoom-in keeps the midpoint and scales the range by 0.9^n; the
   * interval shrinks but never becomes empty.
   */
  lemma {:induction false} RepeatedZoomIn(b: Bounds, n: nat)
    ensures Mid(ZoomedInTimes(b, n)) == Mid(b)
    ensures Width(ZoomedInTimes(b, n)) == Pow(0.9, n) * Width(b)
    ensures b.lo < b.hi ==> ZoomedInTimes(b, n).lo < ZoomedInTimes(b, n).hi
  {
    if n > 0 {
      RepeatedZoomIn(b, n - 1);
      var prev := ZoomedInTimes(b, n - 1);
      calc {
        Width(ZoomedInTimes(b, n));
        0.9 * Width(prev);
        0.9 * (Pow(0.9, n - 1) * Width(b));
        Pow(0.9, n) * Width(b);
      }
    }
  }

  /** The array `u_boundaries` that the `keydown` handler changes in place. */
  class Boundaries {
    var boundaries: array<real>

    ghost predicate Valid()
      reads this, boundaries
    {
      boundaries.Length == 2 && boundaries[0] < boundaries[1]
    }

    /** The interval the array holds. */
    function Current(): Bounds
      reads this, boundaries
      requires boundaries.Length == 2
    {
      Bounds(boundaries[0], boundaries[1])
    }

    /** `const u_boundaries = [-2.0, 2.0]`. */
    constructor ()
      ensures Valid() && fresh(boundaries)
      ensures Current() == Initial
    {
      boundaries := new real[2] [-2.0, 2.0];
    }

    /** Key 33: shrink the range by 10% around its centre. */
    method ZoomIn()
      requires Valid()
      modifies boundaries
      ensures Valid()
      ensures Current() == ZoomedIn(old(Current()))
    {
      var range := boundaries[1] - boundaries[0];
      var delta := (range - range * 0.9) * 0.5;
      boundaries[0] := boundaries[0] + delta;
      boundaries[1] := boundaries[1] - delta;
    }

    /** Key 34: grow the range by 10% around its centre. */
    method ZoomOut()
      requires Valid()
      modifies boundaries
      ensures Valid()
      ensures Current() == ZoomedOut(old(Current()))
    {
      var range := boundaries[1] - boundaries[0];
      var delta := (range * 1.1 - range) * 0.5;
      boundaries[0] := boundaries[0] - delta;
      boundaries[1] := boundaries[1] + delta;
    }

    /** The `keydown` handler, as a function of the key code. */
    method KeyDown(keyCode: int)
      requires Valid()
      modifies boundaries
      ensures Valid()
      ensures Current() == HandleKey(keyCode, old(Current()))
      ensures keyCode != KeyZoomIn && keyCode != KeyZoomOut ==> unchanged(boundaries)
    {
      match keyCode
      case 33 => ZoomIn();
      case 34 => ZoomOut();
      case _ =>
    }
  }
}
