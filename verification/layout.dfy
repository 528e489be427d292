/** Layout (`ResizeImage`): sizes the content to the texture at the coerced
    scale and positions the viewport, either centred on the content or so that
    the captured focal point stays under the same screen point. */
module Layout {
  import opened Numerics
  import opened ZoomTypes

  /** The content width or height for a texture edge at a scale: the product
      rounded to a whole pixel the way `Math.Round` does. */
  function ContentEdge(textureEdge: real, scale: real): (e: real)
    ensures IsIntegral(e)
    ensures Abs(e - textureEdge * scale) <= 0.5
  {
    RoundHalfEven(textureEdge * scale) as real
  }

  /** What a non-empty ResizeImage emission promises: first the content size
      (whole pixels, within half a pixel of texture size times coerced scale)
      together with the coerced scale for the transform, then the viewport
      origin. A centred origin is a whole pixel and puts the viewport's centre
      within half a pixel of the content's centre; an anchored origin puts the
      relative focal point of the content exactly under the screen focal point. */
  predicate LaidOut(s: ZoomState, env: Env, center: bool, fx: seq<Effect>) {
    && |fx| == 2 && fx[0].SetContent? && fx[1].SetOrigin?
    && var content, origin := fx[0].size, fx[1].origin;
    && fx[0].scale == s.coercedScale
    && IsIntegral(content.width) && IsIntegral(content.height)
    && Abs(content.width - s.textureScale.width * s.coercedScale) <= 0.5
    && Abs(content.height - s.textureScale.height * s.coercedScale) <= 0.5
    && (center ==>
          && IsIntegral(origin.x) && IsIntegral(origin.y)
          && Abs(origin.x + env.viewportActual.width / 2.0 - content.width / 2.0) <= 0.5
          && Abs(origin.y + env.viewportActual.height / 2.0 - content.height / 2.0) <= 0.5)
    && (!center ==>
          && origin.x + s.screenMidpoint.x == content.width * s.relativeMidpoint.x
          && origin.y + s.screenMidpoint.y == content.height * s.relativeMidpoint.y)
  }

  /** `ResizeImage(center)`: emits nothing unless a bitmap is loaded and the
      coerced scale is non-zero; otherwise lays the content out as LaidOut
      describes. */
  function ResizeImage(s: ZoomState, env: Env, center: bool): (fx: seq<Effect>)
    ensures fx == [] <==> (s.coercedScale == 0.0 || !s.bitmapLoaded)
    ensures fx != [] ==> LaidOut(s, env, center, fx)
  {
    if s.coercedScale != 0.0 && s.bitmapLoaded then
      var newWidth := ContentEdge(s.textureScale.width, s.coercedScale);
      var newHeight := ContentEdge(s.textureScale.height, s.coercedScale);
      var origin :=
        if center then
          Point(RoundHalfEven((newWidth - env.viewportActual.width) / 2.0) as real,
                RoundHalfEven((newHeight - env.viewportActual.height) / 2.0) as real)
        else
          Point(newWidth * s.relativeMidpoint.x - s.screenMidpoint.x,
                newHeight * s.relativeMidpoint.y - s.screenMidpoint.y);
      [SetContent(Size(newWidth, newHeight), s.coercedScale), SetOrigin(origin)]
    else
      []
  }

  /** The position of the last SetOrigin effect in `fx`, or -1 if there is
      none. */
  function LastOriginIndex(fx: seq<Effect>): (k: int)
    ensures -1 <= k < |fx|
    ensures 0 <= k ==> fx[k].SetOrigin?
    ensures forall j :: k < j < |fx| ==> !fx[j].SetOrigin?
  {
    if fx == [] then -1
    else if fx[|fx| - 1].SetOrigin? then |fx| - 1
    else LastOriginIndex(fx[..|fx| - 1])
  }

  /** The scroll origin a layout leaves behind, if it sets one: the origin of
      its last SetOrigin effect, and None exactly when it sets none. */
  function FinalOrigin(fx: seq<Effect>): (o: Option<Point>)
    ensures o.None? <==> forall i :: 0 <= i < |fx| ==> !fx[i].SetOrigin?
    ensures o.Some? ==> exists i :: 0 <= i < |fx| && fx[i] == SetOrigin(o.value)
                          && forall j :: i < j < |fx| ==> !fx[j].SetOrigin?
  {
    var k := LastOriginIndex(fx);
    if k < 0 then None else Some(fx[k].origin)
  }
}
