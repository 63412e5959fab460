/**
 * `resizeImage` (frontend/src/App.jsx): fit an image within a bounding box
 * before upload, first against the width bound, then against the height
 * bound, rounding each rescaled side with `Math.round`.
 */
module Resize {
  import opened Wrappers
  import opened Browser

  const DefaultMaxWidth: nat := 512
  const DefaultMaxHeight: nat := 512
  const CanvasEmptyMessage := "Canvas is empty"

  datatype Dims = Dims(width: nat, height: nat)

  /**
   * `Math.round(n / d)` for n >= 0 and d > 0, computed exactly: the nearest
   * integer, a half rounded up.
   */
  function RoundedRatio(n: nat, d: nat): (r: nat)
    requires d > 0
    ensures 2 * d * r <= 2 * n + d < 2 * d * r + 2 * d
  {
    (2 * n + d) / (2 * d)
  }

  /** `r` is what `Math.round(x)` returns: the integer with r - 1/2 <= x < r + 1/2. */
  ghost predicate IsMathRound(r: int, x: real) {
    r as real - 0.5 <= x < r as real + 0.5
  }

  lemma MathRoundUnique(r1: int, r2: int, x: real)
    requires IsMathRound(r1, x) && IsMathRound(r2, x)
    ensures r1 == r2
  {
  }

  /**
   * The exact integer formula gives what `Math.round((a / c) * b)` gives on
   * exact rationals, which is the shape of both rescaling expressions.
   */
  lemma RoundedRatioIsMathRound(a: nat, b: nat, c: nat)
    requires c > 0
    ensures IsMathRound(RoundedRatio(a * b, c), (a as real / c as real) * b as real)
  {
    var r := RoundedRatio(a * b, c);
    var x := (a as real / c as real) * b as real;
    var cr := c as real;
    assert x == (a * b) as real / cr by {
      assert (a as real / cr) * b as real == (a as real * b as real) / cr;
    }
    assert 2.0 * cr * r as real - cr <= 2.0 * (a * b) as real by {
      assert 2 * c * r <= 2 * (a * b) + c;
    }
    assert 2.0 * (a * b) as real < 2.0 * cr * r as real + cr by {
      assert 2 * (a * b) + c < 2 * c * r + 2 * c;
    }
    DivideBracket(r as real, (a * b) as real, cr);
  }

  lemma DivideBracket(r: real, n: real, c: real)
    requires c > 0.0
    requires 2.0 * c * r - c <= 2.0 * n < 2.0 * c * r + c
    ensures r - 0.5 <= n / c < r + 0.5
  {
    var q := n / c;
    assert n == q * c;
    assert 2.0 * c * r == 2.0 * (r * c);
    assert (r - 0.5) * c == r * c - 0.5 * c;
    assert (r + 0.5) * c == r * c + 0.5 * c;
    if q < r - 0.5 {
      assert ((r - 0.5) - q) * c == (r - 0.5) * c - q * c;
      PositiveProduct((r - 0.5) - q, c);
    }
    if q >= r + 0.5 {
      assert (q - (r + 0.5)) * c == q * c - (r + 0.5) * c;
      NonNegativeProduct(q - (r + 0.5), c);
    }
  }

  lemma PositiveProduct(a: real, b: real)
    requires a > 0.0 && b > 0.0
    ensures a * b > 0.0
  {
  }

  lemma NonNegativeProduct(a: real, b: real)
    requires a >= 0.0 && b > 0.0
    ensures a * b >= 0.0
  {
  }

  lemma ScaleLe(m: nat, d: nat, x: nat)
    requires m <= d
    ensures m * x <= d * x
  {
  }

  lemma PositiveFactor(d: int, k: int)
    requires d > 0 && d * k <= 0
    ensures k <= 0
  {
  }

  /** Rounding a ratio below one of an integer never exceeds that integer. */
  lemma RoundedRatioShrinks(m: nat, x: nat, d: nat)
    requires 0 < d && m < d
    ensures RoundedRatio(m * x, d) <= x
  {
    var r := RoundedRatio(m * x, d);
    assert 2 * d * r <= 2 * (m * x) + d;
    ScaleLe(m, d, x);
    var k := 2 * r - 2 * x - 1;
    assert d * k == 2 * d * r - 2 * (d * x) - d;
    PositiveFactor(d, k);
  }

  /**
   * The dimensions `resizeImage` settles on: an over-wide image is brought to
   * the maximum width with its height rescaled by the same ratio; then, if
   * the (possibly rescaled) height is still over the bound, it is brought to
   * the maximum height with its width rescaled.
   */
  function Fitted(d: Dims, maxWidth: nat, maxHeight: nat): Dims {
    var afterWidth :=
      if d.width > maxWidth then Dims(maxWidth, RoundedRatio(maxWidth * d.height, d.width)) else d;
    if afterWidth.height > maxHeight then
      Dims(RoundedRatio(maxHeight * afterWidth.width, afterWidth.height), maxHeight)
    else
      afterWidth
  }

  /** The result fits the bounds and neither side ever grows. */
  lemma FittedWithinBounds(d: Dims, maxWidth: nat, maxHeight: nat)
    ensures Fitted(d, maxWidth, maxHeight).width <= maxWidth
    ensures Fitted(d, maxWidth, maxHeight).height <= maxHeight
    ensures Fitted(d, maxWidth, maxHeight).width <= d.width
    ensures Fitted(d, maxWidth, maxHeight).height <= d.height
  {
    var afterWidth := d;
    if d.width > maxWidth {
      RoundedRatioShrinks(maxWidth, d.height, d.width);
      afterWidth := Dims(maxWidth, RoundedRatio(maxWidth * d.height, d.width));
    }
    assert afterWidth.width <= maxWidth && afterWidth.width <= d.width;
    assert afterWidth.height <= d.height;
    if afterWidth.height > maxHeight {
      RoundedRatioShrinks(maxHeight, afterWidth.width, afterWidth.height);
    }
  }

  /** An image that does not fit is brought to one of its bounds exactly. */
  lemma FittedReachesBound(d: Dims, maxWidth: nat, maxHeight: nat)
    requires d.width > maxWidth || d.height > maxHeight
    ensures var f := Fitted(d, maxWidth, maxHeight);
      f.width == maxWidth || f.height == maxHeight
  {
  }

  lemma ScaleBoth(x: int, y: int, k: int)
    requires x <= y && k >= 0
    ensures x * k <= y * k
  {
  }

  /**
   * The error of the second rounding, carried back to the original image:
   * h1 * e == b * h - mh * a with both rounding errors a and b bounded.
   */
  lemma TwoStepError(e: int, h1: int, b: int, h: int, mh: int, a: int, w: int)
    requires 0 <= mh < h1 && h >= 0 && w >= 0
    requires h1 * e == b * h - mh * a
    requires -h1 <= 2 * b <= h1
    requires -w <= 2 * a <= w
    ensures -(w + h) <= 2 * e <= w + h
  {
    ScaleBoth(2 * b, h1, h);
    ScaleBoth(-h1, 2 * b, h);
    ScaleBoth(-2 * a, w, mh);
    ScaleBoth(2 * a, w, mh);
    ScaleBoth(mh, h1, w);
    assert h1 * (2 * e) == 2 * b * h - mh * (2 * a);
    assert h1 * (2 * e) <= h1 * (w + h);
    assert h1 * (2 * e) >= -(h1 * (w + h));
    PositiveFactor(h1, 2 * e - (w + h));
    assert h1 * (-(w + h) - 2 * e) == -(h1 * (w + h)) - h1 * (2 * e);
    PositiveFactor(h1, -(w + h) - 2 * e);
  }

  /**
   * Fitting keeps the aspect ratio up to rounding: the cross products of the
   * fitted and the original sides differ by at most half the sum of the
   * original width and height, a quarter of the perimeter.
   */
  lemma FittedKeepsAspect(d: Dims, maxWidth: nat, maxHeight: nat)
    ensures var f := Fitted(d, maxWidth, maxHeight);
      && 2 * (f.width * d.height - f.height * d.width) <= d.width + d.height
      && 2 * (f.height * d.width - f.width * d.height) <= d.width + d.height
  {
    var w, h := d.width, d.height;
    if w > maxWidth {
      var h1 := RoundedRatio(maxWidth * h, w);
      if h1 > maxHeight {
        BothStepsAspect(w, h, maxWidth, maxHeight);
      } else {
        OneStepAspect(maxWidth, h, w);
      }
    } else if h > maxHeight {
      OneStepAspect(maxHeight, w, h);
    }
  }

  /** One rescaling to bound m: the rounding moves the cross product by at most d/2. */
  lemma OneStepAspect(m: nat, x: nat, d: nat)
    requires d > 0
    ensures -(d as int) <= 2 * (RoundedRatio(m * x, d) * d - m * x) <= d
  {
  }

  lemma BothStepsAspect(w: nat, h: nat, maxWidth: nat, maxHeight: nat)
    requires w > maxWidth
    requires RoundedRatio(maxWidth * h, w) > maxHeight
    ensures var h1 := RoundedRatio(maxWidth * h, w);
      var w2 := RoundedRatio(maxHeight * maxWidth, h1);
      -(w + h) <= 2 * (w2 * h - maxHeight * w) <= w + h
  {
    var h1 := RoundedRatio(maxWidth * h, w);
    var w2 := RoundedRatio(maxHeight * maxWidth, h1);
    OneStepAspect(maxWidth, h, w);
    OneStepAspect(maxHeight, maxWidth, h1);
    CrossIdentity(w2, h1, h, maxHeight, maxWidth, w);
    TwoStepError(w2 * h - maxHeight * w, h1, w2 * h1 - maxHeight * maxWidth, h, maxHeight,
                 h1 * w - maxWidth * h, w);
  }

  lemma CrossIdentity(w2: int, h1: int, h: int, mh: int, mw: int, w: int)
    ensures h1 * (w2 * h - mh * w) == (w2 * h1 - mh * mw) * h - mh * (h1 * w - mw * h)
  {
  }

  /** An image already within both bounds keeps its size. */
  lemma FittedKeepsSmallImages(d: Dims, maxWidth: nat, maxHeight: nat)
    requires d.width <= maxWidth && d.height <= maxHeight
    ensures Fitted(d, maxWidth, maxHeight) == d
  {
  }

  /**
   * The height test looks at the height after the width step: an image over
   * both bounds whose rescaled height already fits takes only the width step.
   */
  lemma HeightStepSeesScaledHeight(d: Dims, maxWidth: nat, maxHeight: nat)
    requires d.width > maxWidth && d.height > maxHeight
    requires RoundedRatio(maxWidth * d.height, d.width) <= maxHeight
    ensures Fitted(d, maxWidth, maxHeight) == Dims(maxWidth, RoundedRatio(maxWidth * d.height, d.width))
  {
  }

  /** 1000 x 500 against the default 512 x 512 box becomes 512 x 256. */
  lemma FittedWideExample()
    ensures Fitted(Dims(1000, 500), DefaultMaxWidth, DefaultMaxHeight) == Dims(512, 256)
  {
  }

  /**
   * One combined ratio, min(maxWidth / width, maxHeight / height), applied to
   * both sides: what the two-step order is not.
   */
  function SingleRatioFit(d: Dims, maxWidth: nat, maxHeight: nat): Dims {
    if d.width > maxWidth && d.width * maxHeight >= d.height * maxWidth then
      Dims(maxWidth, RoundedRatio(maxWidth * d.height, d.width))
    else if d.height > maxHeight then
      Dims(RoundedRatio(maxHeight * d.width, d.height), maxHeight)
    else
      d
  }

  /**
   * The two steps round twice, so they can land one pixel away from a
   * single combined ratio: 513 x 529 becomes 496 x 512, not 497 x 512.
   */
  lemma SequentialDiffersFromSingleRatio()
    ensures Fitted(Dims(513, 529), DefaultMaxWidth, DefaultMaxHeight) == Dims(496, 512)
    ensures SingleRatioFit(Dims(513, 529), DefaultMaxWidth, DefaultMaxHeight) == Dims(497, 512)
  {
    assert RoundedRatio(512 * 529, 513) == 528;
    assert RoundedRatio(512 * 512, 528) == 496;
    assert RoundedRatio(512 * 513, 529) == 497;
  }

  /**
   * Lines 22-31 of `resizeImage`: the local width and height are
   * reassigned by the width step, then by the height step.
   */
  method ScaleToFit(width: nat, height: nat, maxWidth: nat, maxHeight: nat) returns (w: nat, h: nat)
    ensures Dims(w, h) == Fitted(Dims(width, height), maxWidth, maxHeight)
    ensures w <= maxWidth && h <= maxHeight
    ensures w <= width && h <= height
    ensures width <= maxWidth && height <= maxHeight ==> w == width && h == height
  {
    w, h := width, height;
    if w > maxWidth {
      h := RoundedRatio(maxWidth * h, w);
      w := maxWidth;
    }
    if h > maxHeight {
      w := RoundedRatio(maxHeight * w, h);
      h := maxHeight;
    }
    FittedWithinBounds(Dims(width, height), maxWidth, maxHeight);
  }

  /**
   * What `resizeImage` resolves or rejects with: a file of the same name and
   * type at the fitted size, the event's missing message when reading or
   * decoding fails, or "Canvas is empty" when the canvas yields no blob.
   */
  function ResizeOutcome(file: ImageFile, load: ImageLoad, maxWidth: nat, maxHeight: nat): (r: Result<ImageFile, string>)
    ensures var f := Fitted(Dims(file.width, file.height), maxWidth, maxHeight);
      r.Success? <==> load.Loaded? && CanvasYieldsBlob(f.width, f.height, load.encodes)
    ensures r.Success? ==> r.value.name == file.name && r.value.mimeType == file.mimeType
    ensures r.Success? ==>
              Dims(r.value.width, r.value.height) == Fitted(Dims(file.width, file.height), maxWidth, maxHeight)
    ensures r.Success? ==> 0 < r.value.width <= maxWidth && 0 < r.value.height <= maxHeight
    ensures r.Success? ==> r.value.width <= file.width && r.value.height <= file.height
    ensures r.Success? && file.width <= maxWidth && file.height <= maxHeight ==>
              r.value.width == file.width && r.value.height == file.height
    ensures load.Loaded? && r.Failure? ==> r.error == CanvasEmptyMessage
    ensures load == LoadFailed ==> r == Failure("")
  {
    FittedWithinBounds(Dims(file.width, file.height), maxWidth, maxHeight);
    match load
    case LoadFailed => Failure("")
    case Loaded(encodes) =>
      var d := Fitted(Dims(file.width, file.height), maxWidth, maxHeight);
      if CanvasYieldsBlob(d.width, d.height, encodes) then
        Success(ImageFile(file.name, file.mimeType, d.width, d.height))
      else
        Failure(CanvasEmptyMessage)
  }

  /**
   * A very wide, one-pixel-high image fits to a height of 0, so the canvas
   * has no pixels and `resizeImage` rejects with "Canvas is empty".
   */
  lemma ThinImageGivesEmptyCanvas(name: string, mimeType: string)
    ensures Fitted(Dims(1100, 1), DefaultMaxWidth, DefaultMaxHeight) == Dims(512, 0)
    ensures ResizeOutcome(ImageFile(name, mimeType, 1100, 1), Loaded(true), DefaultMaxWidth, DefaultMaxHeight)
              == Failure(CanvasEmptyMessage)
  {
    assert RoundedRatio(512 * 1, 1100) == 0;
  }

  /** `resizeImage(file, maxWidth, maxHeight)`, with the browser's part given as `load`. */
  method ResizeImage(file: ImageFile, load: ImageLoad, maxWidth: nat, maxHeight: nat) returns (r: Result<ImageFile, string>)
    ensures r == ResizeOutcome(file, load, maxWidth, maxHeight)
  {
    match load
    case LoadFailed =>
      r := Failure("");
    case Loaded(encodes) =>
      var width, height := ScaleToFit(file.width, file.height, maxWidth, maxHeight);
      if CanvasYieldsBlob(width, height, encodes) {
        r := Success(ImageFile(file.name, file.mimeType, width, height));
      } else {
        r := Failure(CanvasEmptyMessage);
      }
  }
}
