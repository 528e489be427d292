/** Texture downsampling: bitmaps larger than the maximum texture dimension are
    displayed at a reduced, aspect-preserving pixel size (`ScaleImage` and the
    size test in `OnImageOpened`). */
module Texture {
  import opened Numerics
  import opened ZoomTypes

  /** Largest texture edge the control lets the presenter use. */
  const MaxTextureSize: int := 2048

  /** The uniform factor that makes a `width` x `height` image just fit a
      `maxWidth` x `maxHeight` box. */
  function ScaleRatio(width: int, height: int, maxWidth: int, maxHeight: int): real
    requires 0 < width && 0 < height
  {
    Min(maxWidth as real / width as real, maxHeight as real / height as real)
  }

  /** A `width` x `height` image scaled uniformly by `ratio`, each edge
      truncated to a whole pixel as the `(int)` casts do. */
  function ScaledSize(width: int, height: int, ratio: real): Size {
    Size(TruncateToInt(width as real * ratio) as real, TruncateToInt(height as real * ratio) as real)
  }

  /** `ScaleImage`: scales an image uniformly by ScaleRatio, truncating each
      edge to a whole pixel. */
  function ScaleImage(actualWidth: int, actualHeight: int, maxWidth: int, maxHeight: int): Size
    requires 0 < actualWidth && 0 < actualHeight
  {
    ScaledSize(actualWidth, actualHeight, ScaleRatio(actualWidth, actualHeight, maxWidth, maxHeight))
  }

  /** How far a `scaledWidth` x `scaledHeight` rectangle is from the aspect
      ratio of a `width` x `height` image, as the difference of the cross
      products: zero when the two rectangles are exactly similar. */
  function AspectSkew(scaledWidth: real, scaledHeight: real, width: int, height: int): real {
    scaledWidth * height as real - scaledHeight * width as real
  }

  /** ScaleImage as the truncations of the two edges scaled by `ratio`. */
  lemma ScaleImageEdges(actualWidth: int, actualHeight: int, maxWidth: int, maxHeight: int, ratio: real)
    requires 0 < actualWidth && 0 < actualHeight
    requires ratio == ScaleRatio(actualWidth, actualHeight, maxWidth, maxHeight)
    ensures ScaleImage(actualWidth, actualHeight, maxWidth, maxHeight)
              == ScaledSize(actualWidth, actualHeight, ratio)
  {
  }

  /** The ratio scales neither edge past the box and makes one edge meet it;
      for a box of non-negative size the ratio is non-negative. */
  lemma ScaleRatioFits(width: int, height: int, maxWidth: int, maxHeight: int, ratio: real)
    requires 0 < width && 0 < height
    requires ratio == ScaleRatio(width, height, maxWidth, maxHeight)
    ensures width as real * ratio <= maxWidth as real
    ensures height as real * ratio <= maxHeight as real
    ensures width as real * ratio == maxWidth as real || height as real * ratio == maxHeight as real
    ensures 0 <= maxWidth && 0 <= maxHeight ==> 0.0 <= ratio
  {
    EdgeWithinBox(width, maxWidth, ratio);
    EdgeWithinBox(height, maxHeight, ratio);
  }

  /** An edge `e` scaled by a ratio no larger than `m / e` stays within `m`,
      reaching it when the ratio is exactly `m / e`; a non-negative ratio
      gives a non-negative edge. */
  lemma EdgeWithinBox(e: int, m: int, ratio: real)
    requires 0 < e
    ensures ratio <= m as real / e as real ==> e as real * ratio <= m as real
    ensures ratio == m as real / e as real ==> e as real * ratio == m as real
    ensures 0.0 <= ratio ==> 0.0 <= e as real * ratio
    ensures 0 <= m ==> 0.0 <= m as real / e as real
  {
    var edge, box := e as real, m as real;
    DivMul(box, edge);
    if ratio <= box / edge {
      ScaleLeMono(edge, ratio, box / edge);
    }
    if 0.0 <= ratio {
      ScaleLeMono(edge, 0.0, ratio);
    }
  }

  /** What ScaleImage promises for a box of non-negative size: whole-pixel
      edges that fit the box, one of them filling it exactly. */
  lemma ScaleImageFits(actualWidth: int, actualHeight: int, maxWidth: int, maxHeight: int)
    requires 0 < actualWidth && 0 < actualHeight && 0 <= maxWidth && 0 <= maxHeight
    ensures var r := ScaleImage(actualWidth, actualHeight, maxWidth, maxHeight);
            && IsIntegral(r.width) && IsIntegral(r.height)
            && 0.0 <= r.width <= maxWidth as real
            && 0.0 <= r.height <= maxHeight as real
            && (r.width == maxWidth as real || r.height == maxHeight as real)
  {
    ScaleImageFitsBy(actualWidth, actualHeight, maxWidth, maxHeight,
                     ScaleRatio(actualWidth, actualHeight, maxWidth, maxHeight));
  }

  /** ScaleImageFits with the ratio named, so that its products stay apart
      from the definition of ScaleRatio. */
  lemma ScaleImageFitsBy(actualWidth: int, actualHeight: int, maxWidth: int, maxHeight: int, ratio: real)
    requires 0 < actualWidth && 0 < actualHeight && 0 <= maxWidth && 0 <= maxHeight
    requires ratio == ScaleRatio(actualWidth, actualHeight, maxWidth, maxHeight)
    ensures var r := ScaleImage(actualWidth, actualHeight, maxWidth, maxHeight);
            && IsIntegral(r.width) && IsIntegral(r.height)
            && 0.0 <= r.width <= maxWidth as real
            && 0.0 <= r.height <= maxHeight as real
            && (r.width == maxWidth as real || r.height == maxHeight as real)
  {
    ScaleRatioFits(actualWidth, actualHeight, maxWidth, maxHeight, ratio);
    ScaleImageEdges(actualWidth, actualHeight, maxWidth, maxHeight, ratio);
    EdgeWithinBox(actualWidth, maxWidth, ratio);
    EdgeWithinBox(actualHeight, maxHeight, ratio);
    TruncatedPair(actualWidth, actualHeight, maxWidth, maxHeight, ratio);
  }

  /** ScaleImage keeps the aspect ratio up to the truncation: the cross
      products of the scaled and the original size differ by less than the
      longer original edge. */
  lemma ScaleImageKeepsAspect(actualWidth: int, actualHeight: int, maxWidth: int, maxHeight: int)
    requires 0 < actualWidth && 0 < actualHeight && 0 <= maxWidth && 0 <= maxHeight
    ensures var r := ScaleImage(actualWidth, actualHeight, maxWidth, maxHeight);
            Abs(AspectSkew(r.width, r.height, actualWidth, actualHeight)) < Max(actualWidth as real, actualHeight as real)
  {
    ScaleImageKeepsAspectBy(actualWidth, actualHeight, maxWidth, maxHeight,
                            ScaleRatio(actualWidth, actualHeight, maxWidth, maxHeight));
  }

  /** ScaleImageKeepsAspect with the ratio named. */
  lemma ScaleImageKeepsAspectBy(actualWidth: int, actualHeight: int, maxWidth: int, maxHeight: int, ratio: real)
    requires 0 < actualWidth && 0 < actualHeight && 0 <= maxWidth && 0 <= maxHeight
    requires ratio == ScaleRatio(actualWidth, actualHeight, maxWidth, maxHeight)
    ensures var r := ScaleImage(actualWidth, actualHeight, maxWidth, maxHeight);
            Abs(AspectSkew(r.width, r.height, actualWidth, actualHeight)) < Max(actualWidth as real, actualHeight as real)
  {
    ScaleRatioFits(actualWidth, actualHeight, maxWidth, maxHeight, ratio);
    ScaleImageEdges(actualWidth, actualHeight, maxWidth, maxHeight, ratio);
    TruncationKeepsAspect(actualWidth, actualHeight, ratio);
  }

  /** Edges scaled by one ratio that fit a box, one of them meeting it,
      still fit it and still meet it once truncated to whole pixels. */
  lemma TruncatedPair(width: int, height: int, maxWidth: int, maxHeight: int, ratio: real)
    requires 0.0 <= width as real * ratio <= maxWidth as real
    requires 0.0 <= height as real * ratio <= maxHeight as real
    requires width as real * ratio == maxWidth as real || height as real * ratio == maxHeight as real
    ensures var t := ScaledSize(width, height, ratio);
            && IsIntegral(t.width) && IsIntegral(t.height)
            && 0.0 <= t.width <= maxWidth as real && 0.0 <= t.height <= maxHeight as real
            && (t.width == maxWidth as real || t.height == maxHeight as real)
  {
    var x, y := width as real * ratio, height as real * ratio;
    TruncateWithin(x, maxWidth);
    TruncateWithin(y, maxHeight);
  }

  /** Truncating both edges of a uniformly scaled image skews its aspect by
      less than the longer original edge. */
  lemma TruncationKeepsAspect(width: int, height: int, ratio: real)
    requires 0 < width && 0 < height && 0.0 <= ratio
    ensures var t := ScaledSize(width, height, ratio);
            Abs(AspectSkew(t.width, t.height, width, height)) < Max(width as real, height as real)
  {
    TruncationKeepsAspectOf(width, height, ratio, width as real * ratio, height as real * ratio);
  }

  /** TruncationKeepsAspect with the scaled edges `x` and `y` named. */
  lemma TruncationKeepsAspectOf(width: int, height: int, ratio: real, x: real, y: real)
    requires 0 < width && 0 < height && 0.0 <= ratio
    requires x == width as real * ratio && y == height as real * ratio
    ensures var t := ScaledSize(width, height, ratio);
            Abs(AspectSkew(t.width, t.height, width, height)) < Max(width as real, height as real)
  {
    EdgeWithinBox(width, 0, ratio);
    EdgeWithinBox(height, 0, ratio);
    TruncationLoss(x);
    TruncationLoss(y);
    SameScaling(width, height, ratio, x, y);
    TruncatedCross(width, height, x, y, TruncateToInt(x) as real, TruncateToInt(y) as real);
  }

  /** What truncation drops from a non-negative length is less than one. */
  lemma TruncationLoss(x: real)
    requires 0.0 <= x
    ensures 0.0 <= x - TruncateToInt(x) as real < 1.0
  {
  }

  /** Both edges scaled by one ratio have equal cross products with the
      original edges. */
  lemma SameScaling(width: int, height: int, ratio: real, x: real, y: real)
    requires x == width as real * ratio && y == height as real * ratio
    ensures x * height as real == y * width as real
  {
  }

  /** Lengths `x` and `y` in the aspect ratio of `width` x `height`, each
      shortened by less than one to `tw` and `th`, are skewed by less than the
      longer of `width` and `height`. */
  lemma TruncatedCross(width: int, height: int, x: real, y: real, tw: real, th: real)
    requires 0 < width && 0 < height
    requires x * height as real == y * width as real
    requires 0.0 <= x - tw < 1.0 && 0.0 <= y - th < 1.0
    ensures Abs(AspectSkew(tw, th, width, height)) < Max(width as real, height as real)
  {
    LossSkew(width, height, x, y, tw, th, x - tw, y - th);
  }

  /** TruncatedCross with the two losses named: the skew is the difference of
      the losses, each weighted by the other original edge. */
  lemma LossSkew(width: int, height: int, x: real, y: real, tw: real, th: real, lossW: real, lossH: real)
    requires 0 < width && 0 < height
    requires x * height as real == y * width as real
    requires lossW == x - tw && lossH == y - th
    requires 0.0 <= lossW < 1.0 && 0.0 <= lossH < 1.0
    ensures Abs(AspectSkew(tw, th, width, height)) < Max(width as real, height as real)
  {
    CrossIdentity(width, height, x, y, tw, th, lossW, lossH);
    FractionOfEdge(lossH, width);
    FractionOfEdge(lossW, height);
    SkewBound(width, height, tw, th, lossW, lossH);
  }

  /** The algebra of LossSkew: for lengths in the aspect ratio `width` x
      `height` the skew of their truncations is made of the two losses alone. */
  lemma CrossIdentity(width: int, height: int, x: real, y: real, tw: real, th: real, lossW: real, lossH: real)
    requires x * height as real == y * width as real
    requires lossW == x - tw && lossH == y - th
    ensures AspectSkew(tw, th, width, height) == lossH * width as real - lossW * height as real
  {
  }

  /** A fraction of a positive edge is less than the edge. */
  lemma FractionOfEdge(f: real, e: int)
    requires 0.0 <= f < 1.0 && 0 < e
    ensures 0.0 <= f * e as real < e as real
  {
    var edge := e as real;
    MulFractionBelow(f, edge);
  }

  /** A skew that is a part of `width` less a part of `height` is smaller in
      magnitude than the larger of the two. */
  lemma SkewBound(width: int, height: int, tw: real, th: real, lossW: real, lossH: real)
    requires AspectSkew(tw, th, width, height) == lossH * width as real - lossW * height as real
    requires 0.0 <= lossH * width as real < width as real
    requires 0.0 <= lossW * height as real < height as real
    ensures Abs(AspectSkew(tw, th, width, height)) < Max(width as real, height as real)
  {
    PartsBound(AspectSkew(tw, th, width, height), lossH * width as real, lossW * height as real,
               width as real, height as real);
  }

  /** The linear core of SkewBound, over plain numbers. */
  lemma PartsBound(d: real, partW: real, partH: real, w: real, h: real)
    requires d == partW - partH
    requires 0.0 <= partW < w && 0.0 <= partH < h
    ensures Abs(d) < Max(w, h)
  {
  }

  /** The control's size test: does either native edge exceed the maximum? */
  predicate NeedsDownsample(pixelWidth: int, pixelHeight: int) {
    pixelHeight > MaxTextureSize || pixelWidth > MaxTextureSize
  }

  /** The texture size `OnImageOpened` stores for a bitmap of the given pixel
      size: capped at MaxTextureSize on both edges, the native size otherwise. */
  function TextureSize(pixelWidth: int, pixelHeight: int): (t: Size)
    requires 0 < pixelWidth && 0 < pixelHeight
    ensures IsIntegral(t.width) && IsIntegral(t.height)
    ensures 0.0 <= t.width <= MaxTextureSize as real && 0.0 <= t.height <= MaxTextureSize as real
    ensures !NeedsDownsample(pixelWidth, pixelHeight) ==> t == Size(pixelWidth as real, pixelHeight as real)
    ensures NeedsDownsample(pixelWidth, pixelHeight) ==>
              t.width == MaxTextureSize as real || t.height == MaxTextureSize as real
    ensures NeedsDownsample(pixelWidth, pixelHeight) ==>
              Abs(AspectSkew(t.width, t.height, pixelWidth, pixelHeight)) < Max(pixelWidth as real, pixelHeight as real)
  {
    if NeedsDownsample(pixelWidth, pixelHeight)
    then
      ScaleImageFits(pixelWidth, pixelHeight, MaxTextureSize, MaxTextureSize);
      ScaleImageKeepsAspect(pixelWidth, pixelHeight, MaxTextureSize, MaxTextureSize);
      ScaleImage(pixelWidth, pixelHeight, MaxTextureSize, MaxTextureSize)
    else Size(pixelWidth as real, pixelHeight as real)
  }

  /** A bitmap whose texture has no zero edge. The model admits only such
      bitmaps: with a zero texture edge the FitHeight minimum and the focal
      point arithmetic would divide by zero. */
  predicate Loadable(pixelWidth: int, pixelHeight: int) {
    && 0 < pixelWidth && 0 < pixelHeight
    && 1.0 <= TextureSize(pixelWidth, pixelHeight).width
    && 1.0 <= TextureSize(pixelWidth, pixelHeight).height
  }

  /** For a positive `m`, dividing by the longer edge gives the smaller ratio. */
  lemma RatioOrder(m: real, a: real, b: real)
    requires 0.0 <= m && 0.0 < b <= a
    ensures m / a <= m / b
  {
    assert (m / a) * a == m && (m / b) * b == m;
    if m / a > m / b {
      MulLeMono(m / b, m / a, a);
      MulLeMono(b, a, m / b);
    }
  }

  /** In a square box the longer edge binds: the ratio is the box edge over
      the longer image edge, whichever way round the image is. */
  lemma SquareBoxRatio(long: int, short: int, m: int)
    requires 0 < short <= long && 0 <= m
    ensures ScaleRatio(long, short, m, m) == m as real / long as real
    ensures ScaleRatio(short, long, m, m) == m as real / long as real
  {
    RatioOrder(m as real, long as real, short as real);
  }

  /** Scaled by `m / l`, an edge `s` reaches one pixel exactly when `l` is at
      most `m` times `s`. */
  lemma ShortEdgeKeepsPixel(l: int, s: int, m: int, ratio: real)
    requires 0 < l && ratio == m as real / l as real
    ensures 1.0 <= s as real * ratio <==> l as real <= s as real * m as real
  {
    var long, short, box := l as real, s as real, m as real;
    var x := short * ratio;
    assert x * long == short * box;
    if 1.0 <= x {
      MulLeMono(1.0, x, long);
    }
    if long <= short * box && x < 1.0 {
      MulLeMono(x, 1.0, long);
    }
  }

  /** Scaled by `m / l`, the edge `l` truncates to exactly `m` and an edge
      `s` keeps a whole pixel iff `l` is at most `m` times `s`. */
  lemma SquareBoxEdges(l: int, s: int, m: int, ratio: real)
    requires 0 < s <= l && 0 <= m && ratio == m as real / l as real
    ensures TruncateToInt(l as real * ratio) == m
    ensures 1 <= TruncateToInt(s as real * ratio) <==> l as real <= s as real * m as real
  {
    EdgeWithinBox(l, m, ratio);
    EdgeWithinBox(s, m, ratio);
    ShortEdgeKeepsPixel(l, s, m, ratio);
    var y := s as real * ratio;
    TruncateIntegral(m);
    TruncateAtLeastOne(y);
  }

  /** The texture of an image scaled into an `m` x `m` box, whichever way
      round: the longer edge lands on exactly `m`, and the shorter one keeps a
      pixel iff it was at least 1/m of the longer one. */
  lemma DownsampleSquare(long: int, short: int, m: int)
    requires 0 < short <= long && 0 <= m
    ensures ScaleImage(long, short, m, m).width == m as real
    ensures 1.0 <= ScaleImage(long, short, m, m).height <==> long as real <= short as real * m as real
    ensures ScaleImage(short, long, m, m).height == m as real
    ensures 1.0 <= ScaleImage(short, long, m, m).width <==> long as real <= short as real * m as real
  {
    DownsampleSquareBy(long, short, m, m as real / long as real);
  }

  /** DownsampleSquare with the ratio `m / long` named. */
  lemma DownsampleSquareBy(long: int, short: int, m: int, ratio: real)
    requires 0 < short <= long && 0 <= m && ratio == m as real / long as real
    ensures ScaleImage(long, short, m, m).width == m as real
    ensures 1.0 <= ScaleImage(long, short, m, m).height <==> long as real <= short as real * m as real
    ensures ScaleImage(short, long, m, m).height == m as real
    ensures 1.0 <= ScaleImage(short, long, m, m).width <==> long as real <= short as real * m as real
  {
    SquareBoxImage(long, short, m, ratio);
    SquareBoxEdges(long, short, m, ratio);
    SquareBoxSizes(long, short, m, ratio);
  }

  /** In a square box ScaleImage scales either orientation by `m / long`. */
  lemma SquareBoxImage(long: int, short: int, m: int, ratio: real)
    requires 0 < short <= long && 0 <= m && ratio == m as real / long as real
    ensures ScaleImage(long, short, m, m) == ScaledSize(long, short, ratio)
    ensures ScaleImage(short, long, m, m) == ScaledSize(short, long, ratio)
  {
    SquareBoxRatio(long, short, m);
  }

  /** SquareBoxEdges read off the scaled size in either orientation. */
  lemma SquareBoxSizes(l: int, s: int, m: int, ratio: real)
    requires TruncateToInt(l as real * ratio) == m
    requires 1 <= TruncateToInt(s as real * ratio) <==> l as real <= s as real * m as real
    ensures ScaledSize(l, s, ratio).width == m as real
    ensures 1.0 <= ScaledSize(l, s, ratio).height <==> l as real <= s as real * m as real
    ensures ScaledSize(s, l, ratio).height == m as real
    ensures 1.0 <= ScaledSize(s, l, ratio).width <==> l as real <= s as real * m as real
  {
  }

  /** Which bitmaps get a texture with no zero edge: exactly those whose
      edges are within a factor of MaxTextureSize of each other. Beyond that
      aspect ratio the short edge truncates to zero pixels, and the model
      excludes the bitmap. */
  lemma LoadableIff(pixelWidth: int, pixelHeight: int)
    requires 0 < pixelWidth && 0 < pixelHeight
    ensures Loadable(pixelWidth, pixelHeight) <==>
              pixelHeight <= pixelWidth * MaxTextureSize && pixelWidth <= pixelHeight * MaxTextureSize
  {
    if NeedsDownsample(pixelWidth, pixelHeight) {
      if pixelHeight <= pixelWidth {
        DownsampleSquare(pixelWidth, pixelHeight, MaxTextureSize);
      } else {
        DownsampleSquare(pixelHeight, pixelWidth, MaxTextureSize);
      }
    }
  }
}
