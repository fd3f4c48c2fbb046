/** Points, image shapes and the scalar helpers both rule engines rely on. */
module Geometry {

  /** One face-mesh landmark: coordinates normalised to the image's width (x) and height (y). */
  datatype Point = Point(x: real, y: real)

  /** Image dimensions in pixels, in the (height, width) order of an image array's shape. */
  datatype Shape = Shape(height: nat, width: nat)

  /** A point in pixel space: (normalised x * width, normalised y * height). */
  type Pixel = (real, real)

  function ToPixel(p: Point, shape: Shape): Pixel
  {
    (p.x * shape.width as real, p.y * shape.height as real)
  }

  /** Holds of a distance function when it never returns a negative value, as the Euclidean norm does. */
  ghost predicate NonNegative(dist: (Pixel, Pixel) -> real)
  {
    forall p: Pixel, q: Pixel :: dist(p, q) >= 0.0
  }

  /** Python's `abs` on a number. */
  function Abs(x: real): (r: real)
    ensures r >= 0.0
    ensures r == x || r == -x
  {
    if x < 0.0 then -x else x
  }

  /** Python's `min` on two numbers. */
  function Min(a: real, b: real): (r: real)
    ensures r <= a && r <= b
    ensures r == a || r == b
  {
    if a <= b then a else b
  }

  /** Python's `int()` applied to a float: it drops the fractional part, rounding toward zero. */
  function Trunc(x: real): (n: int)
    ensures TowardZero(n, x)
  {
    if x >= 0.0 then x.Floor else -((-x).Floor)
  }

  /** `n` is `x` with its fractional part dropped, toward zero, as Python's `int()` does. */
  predicate TowardZero(n: int, x: real)
  {
    && (x >= 0.0 ==> n as real <= x < n as real + 1.0)
    && (x < 0.0 ==> x <= n as real < x + 1.0)
  }

  /** A value cut toward zero stays within any integer bound the value respects. */
  lemma TowardZeroBelow(n: int, x: real, bound: int)
    requires TowardZero(n, x) && x <= bound as real
    ensures n <= bound
  {
  }

  /** Truncation never moves a value past an integer bound that the value itself respects. */
  lemma TruncBelow(x: real, bound: int)
    requires x <= bound as real
    ensures Trunc(x) <= bound
  {
  }

  /** One normalised coordinate scaled by an image dimension and cut to an integer, as `int(landmark.x * ancho_img)`. */
  function PixelCoord(t: real, n: nat): int
  {
    Trunc(t * n as real)
  }

  /** `normalizar_coordenadas`: every landmark converted to integer pixel coordinates, in order. */
  function ToPixels(landmarks: seq<Point>, width: nat, height: nat): (coords: seq<(int, int)>)
    ensures |coords| == |landmarks|
    ensures forall i :: 0 <= i < |landmarks| ==>
      coords[i] == (PixelCoord(landmarks[i].x, width), PixelCoord(landmarks[i].y, height))
  {
    seq(|landmarks|, i requires 0 <= i < |landmarks| =>
      (PixelCoord(landmarks[i].x, width), PixelCoord(landmarks[i].y, height)))
  }

  /** One normalised coordinate in [0, 1] becomes a pixel index in [0, n]. */
  lemma CoordinateWithin(t: real, n: nat)
    requires 0.0 <= t <= 1.0
    ensures 0 <= PixelCoord(t, n) <= n
  {
    assert 0.0 <= t * n as real;
    assert t * n as real <= 1.0 * n as real;
    TruncBelow(t * n as real, n);
  }

  /** Landmarks inside the unit square land inside the image: 0 <= x <= width and 0 <= y <= height. */
  lemma PixelsWithinImage(landmarks: seq<Point>, width: nat, height: nat)
    requires forall i :: 0 <= i < |landmarks| ==>
      0.0 <= landmarks[i].x <= 1.0 && 0.0 <= landmarks[i].y <= 1.0
    ensures forall i :: 0 <= i < |landmarks| ==>
      0 <= ToPixels(landmarks, width, height)[i].0 <= width &&
      0 <= ToPixels(landmarks, width, height)[i].1 <= height
  {
    forall i | 0 <= i < |landmarks|
      ensures 0 <= ToPixels(landmarks, width, height)[i].0 <= width
      ensures 0 <= ToPixels(landmarks, width, height)[i].1 <= height
    {
      CoordinateWithin(landmarks[i].x, width);
      CoordinateWithin(landmarks[i].y, height);
    }
  }
}
