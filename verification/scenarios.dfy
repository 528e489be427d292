/** Worked examples of the zoom logic on concrete numbers. */
module Scenarios {
  import opened ZoomTypes
  import opened Coercion
  import opened Texture
  import opened Gestures

  /** A 3000 x 1500 bitmap is shown as a 2048 x 1024 texture. */
  lemma DownsampleExample()
    ensures NeedsDownsample(3000, 1500)
    ensures TextureSize(3000, 1500) == Size(2048.0, 1024.0)
    ensures Loadable(3000, 1500)
  {
  }

  /** A 5000 x 2 bitmap truncates to a texture with no height at all, so it
      is not Loadable and the model excludes it. */
  lemma ExtremeAspectCollapses()
    ensures TextureSize(5000, 2).height == 0.0
    ensures !Loadable(5000, 2)
  {
    LoadableIff(5000, 2);
  }

  /** Viewport 800 x 600, texture 1600 x 400: the minimum is 0.5 by width, 1.5
      by height, and 0.5 when both axes must fit. */
  lemma FitModeExample()
    ensures FitScale(FitWidth, Size(800.0, 600.0), Size(1600.0, 400.0)) == 0.5
    ensures FitScale(FitHeight, Size(800.0, 600.0), Size(1600.0, 400.0)) == 1.5
    ensures FitScale(Coerence, Size(800.0, 600.0), Size(1600.0, 400.0)) == 0.5
  {
  }

  /** A pinch from scale 1 reaching a cumulative factor of 2, then losing its
      pinch data, settles with both the requested scale and the snapshot at 2. */
  lemma PinchDataLossExample(s: ZoomState, env: Env, center: Point, screen: Point)
    requires PresenterMeasured(env)
    requires s.scale == 1.0 && s.minScale == 0.5
    ensures var started := OnManipulationStarted(s).state;
            var pinched := OnManipulationDelta(started, env, Some(PinchData(2.0, center, screen))).state;
            var settled := OnManipulationDelta(pinched, env, None).state;
            && pinched.pinching && pinched.coercedScale == 2.0
            && !settled.pinching && settled.originalScale == 2.0 && settled.scale == 2.0
  {
  }

  /** Double-tapping from a base scale of 5 requests 15: the requested scale is
      stored unclamped and only the applied scale stops at MaxScale. */
  lemma DoubleTapBeyondMaxExample(s: ZoomState, env: Env, tap: Point, screen: Point)
    requires PresenterMeasured(env) && TextureReady(s)
    requires s.baseScale == 5.0 && s.scale == 5.0 && s.minScale == 1.0
    ensures var tapped := OnDoubleTap(s, env, tap, screen).state;
            tapped.scale == 15.0 && tapped.coercedScale == MaxScale
  {
  }
}
