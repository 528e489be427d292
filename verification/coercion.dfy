/** Scale coercion: the minimum zoom derived from the fit mode, and the clamp of
    the requested scale into `[minScale, MaxScale]` (`CoerceScale`). */
module Coercion {
  import opened Numerics
  import opened ZoomTypes

  /** The clamp `Math.Min(MaxScale, Math.Max(scale, minScale))`. The upper bound
      wins when the minimum itself exceeds MaxScale. */
  function Coerce(scale: real, minScale: real): (c: real)
    ensures c <= MaxScale
    ensures minScale <= MaxScale ==> minScale <= c
    ensures minScale <= scale <= MaxScale ==> c == scale
    ensures scale < minScale ==> c == Min(minScale, MaxScale)
    ensures MaxScale < scale ==> c == MaxScale
  {
    Min(MaxScale, Max(scale, minScale))
  }

  /** Clamping an already clamped scale changes nothing. */
  lemma CoerceIdempotent(scale: real, minScale: real)
    ensures Coerce(Coerce(scale, minScale), minScale) == Coerce(scale, minScale)
  {
  }

  /** A larger request never yields a smaller coerced scale. */
  lemma CoerceMonotonic(a: real, b: real, minScale: real)
    requires a <= b
    ensures Coerce(a, minScale) <= Coerce(b, minScale)
  {
  }

  /** The minimum zoom for a texture in a viewport: the scale at which the
      texture exactly spans the viewport's width (FitWidth) or height
      (FitHeight), or the largest scale at which it fits on both axes
      (Coerence). */
  function FitScale(mode: ZoomMode, viewport: Size, texture: Size): (m: real)
    requires texture.width > 0.0 && texture.height > 0.0
    ensures mode == FitWidth ==> m * texture.width == viewport.width
    ensures mode == FitHeight ==> m * texture.height == viewport.height
    ensures mode == Coerence ==>
              m * texture.width <= viewport.width && m * texture.height <= viewport.height
              && (m * texture.width == viewport.width || m * texture.height == viewport.height)
    ensures 0.0 <= viewport.width && 0.0 <= viewport.height ==> 0.0 <= m
  {
    var minX := viewport.width / texture.width;
    var minY := viewport.height / texture.height;
    assert minX * texture.width == viewport.width;
    assert minY * texture.height == viewport.height;
    if mode == Coerence then
      var m := Min(minX, minY);
      MulLeMono(m, minX, texture.width);
      MulLeMono(m, minY, texture.height);
      m
    else if mode == FitWidth then minX
    else minY
  }

  /** `CoerceScale(recompute)`: when asked to and a bitmap is loaded, first
      re-derives `minScale` from the viewport's rendered size; then stores the
      clamped scale. No other field changes. */
  function CoerceScale(s: ZoomState, env: Env, recompute: bool): (r: ZoomState)
    requires recompute ==> TextureReady(s)
    ensures recompute && s.bitmapLoaded ==>
              r.minScale == FitScale(env.mode, env.viewportActual, s.textureScale)
    ensures !(recompute && s.bitmapLoaded) ==> r.minScale == s.minScale
    ensures r.coercedScale == Coerce(s.scale, r.minScale)
    ensures r == s.(minScale := r.minScale, coercedScale := r.coercedScale)
  {
    var minScale :=
      if recompute && s.bitmapLoaded
      then FitScale(env.mode, env.viewportActual, s.textureScale)
      else s.minScale;
    s.(minScale := minScale, coercedScale := Coerce(s.scale, minScale))
  }

  /** The clamp-bounds promise of CoerceScale: the coerced scale never exceeds
      MaxScale, reaches the minimum whenever the minimum is attainable, and is
      the requested scale itself when that already lies in range. */
  lemma CoerceScaleBounds(s: ZoomState, env: Env, recompute: bool)
    requires recompute ==> TextureReady(s)
    ensures var r := CoerceScale(s, env, recompute);
            && r.coercedScale <= MaxScale
            && (r.minScale <= MaxScale ==> r.minScale <= r.coercedScale)
            && (r.minScale <= s.scale <= MaxScale ==> r.coercedScale == s.scale)
  {
  }
}
