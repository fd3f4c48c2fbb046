/** The scale computation of `redimensionar_imagen`: shrink an image to fit a display box, never enlarge it. */
module Resize {
  import opened Geometry

  /** Default display box, the default arguments of `redimensionar_imagen`. */
  const DefaultMaxWidth: int := 800
  const DefaultMaxHeight: int := 600

  /** What is shown: the image as it is, or a copy resized to the given pixel dimensions. */
  datatype Display = Original | Resized(width: int, height: int)

  /** The returned image together with the returned scale factor. */
  datatype Fit = Fit(display: Display, factor: real)

  /** `min(ancho_max / ancho, alto_max / altura, 1.0)`. */
  function ScaleFactor(height: nat, width: nat, maxWidth: int, maxHeight: int): (f: real)
    requires height > 0 && width > 0
    ensures f <= 1.0
    ensures f <= maxWidth as real / width as real && f <= maxHeight as real / height as real
    ensures f == 1.0 || f == maxWidth as real / width as real || f == maxHeight as real / height as real
  {
    Min(Min(maxWidth as real / width as real, maxHeight as real / height as real), 1.0)
  }

  /** A factor no larger than bound / size scales size to at most bound. */
  lemma ScaledWithin(size: nat, bound: int, f: real)
    requires size > 0 && f <= bound as real / size as real
    ensures f * size as real <= bound as real
  {
    calc {
      f * size as real;
    <= (bound as real / size as real) * size as real;
      bound as real;
    }
  }

  /** A factor that scales size to at most bound is no larger than bound / size. */
  lemma WithinScaled(size: nat, bound: int, g: real)
    requires size > 0 && g * size as real <= bound as real
    ensures g <= bound as real / size as real
  {
    calc {
      g;
    == (g * size as real) / size as real;
    <= bound as real / size as real;
    }
  }

  /** The factor is the largest one, up to 1, that fits the image inside the box. */
  lemma LargestFittingFactor(height: nat, width: nat, maxWidth: int, maxHeight: int, g: real)
    requires height > 0 && width > 0
    requires g <= 1.0 && g * width as real <= maxWidth as real && g * height as real <= maxHeight as real
    ensures g <= ScaleFactor(height, width, maxWidth, maxHeight)
    ensures ScaleFactor(height, width, maxWidth, maxHeight) * width as real <= maxWidth as real
    ensures ScaleFactor(height, width, maxWidth, maxHeight) * height as real <= maxHeight as real
  {
    var f := ScaleFactor(height, width, maxWidth, maxHeight);
    WithinScaled(width, maxWidth, g);
    WithinScaled(height, maxHeight, g);
    ScaledWithin(width, maxWidth, f);
    ScaledWithin(height, maxHeight, f);
  }

  /** `ScaledWithin` with the product written size first, as `int(ancho * factor_escala)` has it. */
  lemma ResizedFits(size: nat, bound: int, f: real)
    requires size > 0 && f <= bound as real / size as real
    ensures size as real * f <= bound as real
  {
    ScaledWithin(size, bound, f);
    assert size as real * f == f * size as real;
  }

  /** A factor below 1 does not enlarge a size. */
  lemma ScaledBelow(size: nat, f: real)
    requires f < 1.0
    ensures size as real * f <= size as real
  {
    assert size as real * (1.0 - f) >= 0.0;
  }

  /** A side cut toward zero from `size * f` stays within a box side that `size * f` respects, and does not grow. */
  lemma SideWithin(size: nat, bound: int, f: real, n: int)
    requires size as real * f <= bound as real && f < 1.0
    requires TowardZero(n, size as real * f)
    ensures n <= bound && n <= size
  {
    ScaledBelow(size, f);
    TowardZeroBelow(n, size as real * f, bound);
    TowardZeroBelow(n, size as real * f, size);
  }

  /** What the shrinking branch of `redimensionar_imagen` needs: the box is exceeded and the copy fits inside it. */
  lemma ShrunkCopyFits(height: nat, width: nat, maxWidth: int, maxHeight: int, f: real)
    requires height > 0 && width > 0
    requires f == ScaleFactor(height, width, maxWidth, maxHeight) < 1.0
    ensures !(width <= maxWidth && height <= maxHeight)
    ensures Shrink(height, width, f).width <= maxWidth && Shrink(height, width, f).height <= maxHeight
    ensures Shrink(height, width, f).width <= width && Shrink(height, width, f).height <= height
  {
    var d := Shrink(height, width, f);
    ResizedFits(width, maxWidth, f);
    ResizedFits(height, maxHeight, f);
    SideWithin(width, maxWidth, f, d.width);
    SideWithin(height, maxHeight, f, d.height);
    if width <= maxWidth && height <= maxHeight {
      WithinScaled(width, maxWidth, 1.0);
      WithinScaled(height, maxHeight, 1.0);
    }
  }

  /** What the other branch needs: a factor of 1 means the image already fits the box. */
  lemma UnscaledFits(height: nat, width: nat, maxWidth: int, maxHeight: int, f: real)
    requires height > 0 && width > 0
    requires f == ScaleFactor(height, width, maxWidth, maxHeight) && !(f < 1.0)
    ensures f == 1.0 && width <= maxWidth && height <= maxHeight
  {
    ScaledWithin(width, maxWidth, f);
    ScaledWithin(height, maxHeight, f);
  }

  /** The resized copy for a factor below 1: each side times the factor, cut toward zero as `int()` does. */
  function Shrink(height: nat, width: nat, f: real): (d: Display)
    ensures d.Resized?
    ensures TowardZero(d.width, width as real * f) && TowardZero(d.height, height as real * f)
  {
    Resized(Trunc(width as real * f), Trunc(height as real * f))
  }

  /** `redimensionar_imagen(imagen, ancho_max, alto_max)`, without the pixel resampling itself. */
  function FitImage(height: nat, width: nat, maxWidth: int, maxHeight: int): (r: Fit)
    requires height > 0 && width > 0
    ensures r.factor <= 1.0 && r.factor == ScaleFactor(height, width, maxWidth, maxHeight)
    ensures r.display.Original? <==> width <= maxWidth && height <= maxHeight
    ensures r.display.Original? ==> r.factor == 1.0
    ensures r.display.Resized? ==>
      && r.factor < 1.0
      && r.display.width <= maxWidth && r.display.height <= maxHeight
      && r.display.width <= width && r.display.height <= height
    ensures r.display.Resized? ==> r.display == Shrink(height, width, r.factor)
  {
    var f := ScaleFactor(height, width, maxWidth, maxHeight);
    if f < 1.0 then
      ShrunkCopyFits(height, width, maxWidth, maxHeight, f);
      Fit(Shrink(height, width, f), f)
    else
      UnscaledFits(height, width, maxWidth, maxHeight, f);
      Fit(Original, 1.0)
  }

  /** The resized copy keeps the proportions: each new side is the old side times the returned factor, cut toward zero. */
  lemma FitImageKeepsProportions(height: nat, width: nat, maxWidth: int, maxHeight: int)
    requires height > 0 && width > 0
    ensures var r := FitImage(height, width, maxWidth, maxHeight);
      r.display.Resized? ==>
        && TowardZero(r.display.width, width as real * r.factor)
        && TowardZero(r.display.height, height as real * r.factor)
  {
    var r := FitImage(height, width, maxWidth, maxHeight);
    if r.display.Resized? {
      var d := Shrink(height, width, r.factor);
      assert r.display == d;
    }
  }

  /** With the default box, an image is shown as it is exactly when it is at most 800 by 600, and else shrunk into it. */
  lemma DefaultBoxFits(height: nat, width: nat)
    requires height > 0 && width > 0
    ensures var r := FitImage(height, width, DefaultMaxWidth, DefaultMaxHeight);
      && (r.display.Original? <==> width <= 800 && height <= 600)
      && (r.display.Resized? ==> r.display.width <= 800 && r.display.height <= 600)
  {
  }
}
