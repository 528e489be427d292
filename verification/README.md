# ZoomableImage zoom/pan logic in Dafny

A model of the zoom and pan logic of the `ZoomableImage` Windows Phone control.
The control shows one bitmap inside a `ViewportControl`. The user can pinch-zoom it and
double-tap to toggle the zoom. The zoom is clamped between a minimum derived from the
viewport and texture sizes and a fixed maximum of 10.

The control's private fields (`_scale`, `_minScale`, `_coercedScale`, `_originalScale`,
`_baseScale`, `_viewportSize`, `_pinching`, `_screenMidpoint`, `_relativeMidpoint`,
`_bitmap`, `_textureScale`) are the immutable record `ZoomTypes.ZoomState`.
Each event handler is a pure function from a state and the event's inputs to a
`Step`: the new state, the writes made to the template children, and whether the
event was marked handled. Those writes are the presenter size, the canvas size with
viewport bounds and transform scale, and the scroll origin. What the handler reads
comes in as an `Env`: the control's `MinZoomMode` dependency property, and, from the
visual tree, the viewport control's rendered size and the presenter's rendered size.

Modules:

- `Numerics`: `Math.Min`/`Math.Max`, the C# `(int)` cast (truncation toward zero) and
  `Math.Round` (round half to even), over reals.
- `ZoomTypes`: the state, inputs, effects and the state at construction.
- `Coercion`: the fit-mode minimum (`FitScale`), the clamp (`Coerce`) and `CoerceScale`.
- `Texture`: `ScaleImage` and the 2048-pixel texture cap applied when an image opens.
- `Layout`: `ResizeImage`.
- `Gestures`: the six handlers, dispatch over an event sequence (`Run`), and the
  invariants and multi-event properties.
- `Scenarios`: the control's behaviour on concrete numbers.

Behaviour of the code a reader might not expect:

- The minimum scale and the centred origin use the viewport control's rendered size
  (`Viewport.ActualWidth/Height`). The change test in `OnViewportChanged` compares the
  viewport rectangle's size (`Viewport.Viewport`) instead. The model keeps the two apart:
  `Env.viewportActual` versus the event's `viewport`.
- `_scale` starts at 1 and `_coercedScale` at 0, so the applied scale is not the clamp of
  the requested one until the first handler that re-coerces or snaps the scale: a viewport
  change, a pinch delta, a double tap, a completion or an image load
  (`EarlyHandlersEstablishCoherence`, `ImageOpenedEstablishesCoherence`). From then on it
  stays the clamp (`RunKeepsCoherent`).
- Double-tap zoom-in stores `3 * baseScale` in `_scale` unclamped. Only `_coercedScale` is
  clamped (`DoubleTapBeyondMaxExample`).
- The coerced scale is not always at least `minScale`. When `minScale` exceeds 10, the
  maximum wins and the coerced scale is 10.
- The downsampled edges are truncated toward zero, not floored. The two agree for the
  non-negative values that occur.
- Nothing in the code keeps the relative focal point within `[0, 1]`. It is the pinch or
  tap position divided by the presenter size, whatever that position is.

## Model

| member | source | states |
|---|---|---|
| Numerics.TruncateToInt | ZoomableImage.cs:228-229 | the `(int)` cast lands on the integer next to its argument on the side of zero, less than one away |
| Numerics.TruncateUnique | ZoomableImage.cs:228-229 | that integer is the only one no farther from zero and less than one away |
| Numerics.TruncateWithin | ZoomableImage.cs:228-229 | truncating a value in `[0, bound]` stays in `[0, bound]` and hits `bound` exactly when the value does |
| Numerics.RoundHalfEven | ZoomableImage.cs:152-153 | `Math.Round` is within one half of its argument and picks the even integer on a tie |
| Numerics.RoundHalfEvenUnique | ZoomableImage.cs:152-153 | any integer within one half, even on a tie, is the rounded value, so the contract fixes the rounding |
| Coercion.Coerce | ZoomableImage.cs:191 | the coerced scale never exceeds 10, and is at least the minimum when the minimum is at most 10; an in-range request is kept; below the minimum it becomes min(minimum, 10); above 10 it becomes 10 |
| Coercion.CoerceIdempotent | ZoomableImage.cs:191 | clamping a clamped scale again changes nothing, which is why snapping `_scale` to `_coercedScale` is stable |
| Coercion.CoerceMonotonic | ZoomableImage.cs:191 | a larger requested scale never gives a smaller coerced scale |
| Coercion.FitScale | ZoomableImage.cs:178-188 | the minimum makes the texture span the viewport's width exactly (FitWidth) or its height exactly (FitHeight), or is the largest scale at which it fits both ways (Coerence); it is never negative for a non-negative viewport |
| Coercion.CoerceScale | ZoomableImage.cs:174-192 | with recompute and a bitmap, `minScale` becomes the fit scale for the mode; otherwise `minScale` is unchanged; the coerced scale is the clamp of `_scale`; no other field changes |
| Coercion.CoerceScaleBounds | ZoomableImage.cs:174-192 | after CoerceScale the coerced scale is at most 10, at least `minScale` when `minScale` is at most 10, and equal to `_scale` when `_scale` is already in range |
| Texture.ScaleImage | ZoomableImage.cs:222-232 | carries no contract of its own: ScaleImageFits and ScaleImageKeepsAspect state what it promises (fits the box, one edge fills it, aspect kept up to truncation) |
| Texture.ScaleRatioFits | ZoomableImage.cs:224-226 | the smaller of the two box-to-edge ratios scales neither edge past its bound, makes one edge meet its bound exactly, and is non-negative for a box of non-negative size |
| Texture.TruncatedPair | ZoomableImage.cs:228-231 | edges scaled into the box stay whole-pixel, non-negative and within it once truncated, and the edge that met the box still meets it |
| Texture.ScaleImageFits | ZoomableImage.cs:222-232 | the result has whole-pixel, non-negative edges within the box, and one edge fills the box exactly |
| Texture.ScaleImageKeepsAspect | ZoomableImage.cs:222-232 | the result keeps the image's aspect ratio up to truncation: its cross products with the original size differ by less than the longer original edge |
| Texture.TruncationKeepsAspect | ZoomableImage.cs:228-229 | truncating both edges of one uniform scaling skews the cross products by less than the longer original edge |
| Texture.TextureSize | ZoomableImage.cs:197-207 | a bitmap over 2048 pixels on either edge gets a texture of at most 2048 x 2048 with one edge at 2048 and its aspect ratio kept up to the truncation; any other bitmap keeps its native size |
| Texture.SquareBoxRatio | ZoomableImage.cs:224-226 | in a square box, as the 2048 x 2048 one the control uses, the ratio is the box edge over the longer image edge, whichever way round the image is |
| Texture.DownsampleSquare | ZoomableImage.cs:222-232 | in a square box the longer edge becomes exactly the box edge, and the shorter edge keeps a pixel exactly when the longer edge is at most the box edge times the shorter one (2048 times for the control), in either orientation |
| Texture.LoadableIff | ZoomableImage.cs:197-207 | the texture has at least one pixel on each edge exactly when neither native edge is more than 2048 times the other |
| Layout.ContentEdge | ZoomableImage.cs:152-153 | each content edge is a whole number of pixels within half a pixel of texture edge times coerced scale |
| Layout.ResizeImage | ZoomableImage.cs:148-172 | nothing is emitted exactly when the coerced scale is 0 or no bitmap is loaded; otherwise the content size and transform scale are set, then an origin that is either centred to within half a pixel or keeps the relative focal point exactly under the screen focal point |
| Layout.FinalOrigin | ZoomableImage.cs:214-219 | is the origin of the last SetOrigin among the effects, and is absent exactly when no effect sets one |
| Gestures.RelativePoint | ZoomableImage.cs:114 | the captured relative point times the presenter's rendered size gives back the pinch or tap position |
| Gestures.CaptureFocus | ZoomableImage.cs:113-116 | records the relative and screen focal point and changes nothing else |
| Gestures.OnManipulationStarted | ZoomableImage.cs:98-102 | clears the pinching flag and snapshots `_scale` as `_originalScale`; no layout |
| Gestures.OnManipulationDelta | ZoomableImage.cs:104-129 | a pinch delta is handled, sets pinching, scales to originalScale times cumulative scale, keeps minScale/originalScale/baseScale, captures the focus only on the first pinch delta and lays out anchored; a non-pinch delta while pinching settles scale and snapshot on the coerced scale; otherwise nothing changes |
| Gestures.OnManipulationCompleted | ZoomableImage.cs:131-135 | clears pinching and snaps `_scale` to the coerced scale |
| Gestures.OnViewportChanged | ZoomableImage.cs:137-146 | an unchanged viewport size changes nothing and emits nothing; a new size is stored, the minimum re-derived, the scale re-coerced and the content laid out anchored |
| Gestures.OnImageOpened | ZoomableImage.cs:194-220 | stores the capped texture size, sets minScale to the fit scale, and baseScale = scale = coercedScale = clamp(0); emits the presenter size (only when downsampled), a centred layout, and outside Coerence mode a final origin of (0, 0) |
| Gestures.OnDoubleTap | ZoomableImage.cs:234-254 | captures the tap as focus; zoomed in past the base scale it returns to the freshly re-derived fit scale, centred; otherwise it requests 3 x baseScale with minScale unchanged, anchored; baseScale is never modified |
| Gestures.ResizeImageSane | ZoomableImage.cs:150-155 | a layout at an applied scale in [0, 10] only sets transform scales in (0, 10] |
| Gestures.CoerceInRange | ZoomableImage.cs:191 | against a non-negative minimum the coerced scale lies in [0, 10] |
| Gestures.ImageOpenedKeepsInv | ZoomableImage.cs:194-220 | an image load leaves a non-negative minimum, an applied scale in [0, 10] and a 1..2048-pixel texture, and emits only sane effects |
| Gestures.ViewportChangedKeepsInv | ZoomableImage.cs:137-146 | a viewport change keeps the state invariant and emits only sane effects |
| Gestures.DoubleTapKeepsInv | ZoomableImage.cs:234-254 | a double tap keeps the state invariant and emits only sane effects |
| Gestures.ManipulationDeltaKeepsInv | ZoomableImage.cs:104-129 | a manipulation delta keeps the state invariant and emits only sane effects; only the delta that starts a pinch needs a measured presenter |
| Gestures.Apply | ZoomableImage.cs:40-46 | dispatches each event to the handler the control subscribes to it; Run, ApplyKeepsInv and ApplyKeepsCoherent state what the dispatch promises |
| Gestures.ApplyKeepsInv | ZoomableImage.cs:98-254 | every handler keeps the state invariant and emits only sane effects |
| Gestures.ApplyKeepsCoherent | ZoomableImage.cs:98-254 | every handler keeps `_coercedScale` equal to the clamp of `_scale` |
| Gestures.Run | ZoomableImage.cs:98-254 | over any sequence of events, each valid in the state it arrives in (a measured presenter only for a double tap or a pinch's first delta), the minimum stays non-negative, the applied scale stays in [0, 10], the texture stays within 2048 pixels, and every emitted transform scale is in (0, 10] |
| Gestures.RunKeepsCoherent | ZoomableImage.cs:98-254 | once the applied scale is the clamp of the requested one, it stays so through any sequence of events |
| Gestures.InitialInv | ZoomableImage.cs:84-86 | the control as constructed satisfies Inv, with no bitmap, so Run's guarantees apply from construction |
| Gestures.StartUpRun | ZoomableImage.cs:194-220 | the usual start-up, a viewport change and then an image load with the presenter still unmeasured, is a valid run that ends with the texture loaded and the applied scale the clamp of the requested one |
| Gestures.EarlyHandlersEstablishCoherence | ZoomableImage.cs:131-146 | before any image load, a viewport change to a new size or a completed gesture already makes the applied scale the clamp of the requested one |
| Gestures.ImageOpenedEstablishesCoherence | ZoomableImage.cs:84-86 | the constructed control is not coherent, and an image load makes it coherent |
| Gestures.ViewportChangeIdempotent | ZoomableImage.cs:137-146 | a second viewport event of the same size after a change is a no-op |
| Gestures.PinchTracksFirstFocus | ZoomableImage.cs:98-123 | over start and two pinch deltas the focus is the one the first delta captured, the scale is scale-at-start times the latest cumulative factor, minScale is kept, and both layouts keep the focal point under the same screen point |
| Gestures.PinchDataLossSettles | ZoomableImage.cs:124-128 | when pinch data is lost mid-gesture the pinch ends with scale and snapshot both at the clamp of the last pinched scale |
| Gestures.CompletedScaleInRange | ZoomableImage.cs:131-135 | after completion the requested scale is in [0, 10] and at least the minimum when the minimum is attainable |
| Gestures.DoubleTapTwiceReturnsToFit | ZoomableImage.cs:241-253 | after an image load, one double tap requests 3 x baseScale and a second returns exactly to baseScale |
| Scenarios.DownsampleExample | ZoomableImage.cs:197-200 | a 3000 x 1500 bitmap gets a 2048 x 1024 texture |
| Scenarios.ExtremeAspectCollapses | ZoomableImage.cs:222-232 | a 5000 x 2 bitmap truncates to a zero-height texture |
| Scenarios.FitModeExample | ZoomableImage.cs:178-188 | viewport 800 x 600 and texture 1600 x 400 give minimum 0.5 (FitWidth), 1.5 (FitHeight) and 0.5 (Coerence) |
| Scenarios.PinchDataLossExample | ZoomableImage.cs:124-128 | a pinch from scale 1 to factor 2 that loses its data settles at 2 |
| Scenarios.DoubleTapBeyondMaxExample | ZoomableImage.cs:250-251 | from base scale 5 a double tap stores 15 as the scale while the applied scale stops at 10 |

## Left out

- Dependency properties (`Source`, `Stretch`, `MinZoomMode` registration) are toolkit plumbing.
  The zoom mode is a plain input in `Env`. `Stretch` takes no part in the zoom logic.
- `OnApplyTemplate` is left out: it looks up template children and subscribes handlers.
  The `Viewport != null` test in `CoerceScale` is dropped for the same reason, since the
  handlers only run after the template is applied.
- Coordinate conversions through the visual tree (`TransformToVisual`, `GetPosition`,
  `ActualWidth/Height`) are not modelled. Their results are inputs: the pinch or tap position,
  its screen position, and the rendered sizes in `Env`.
- `Canvas.Width/Height` and `Viewport.Bounds` carry the content width and height, and
  `Xform.ScaleX/ScaleY` carry the coerced scale. Together these writes form one
  `SetContent(size, scale)` effect.
- Bitmap decoding and the `Presenter.Source` cast are left out. An image load arrives as its
  pixel width and height.
- IEEE-754 doubles are modelled as exact reals. Rounding of products and quotients, NaN and
  infinities are not modelled.
- TextureSize, ScaleImageFits and DownsampleSquare: "the longer edge is exactly 2048" holds
  over exact reals only. The `(int)` cast truncates the rounded double product, so an error
  below one unit in the last place can cost a whole pixel: in binary64,
  `2215 * (2048.0 / 2215)` is `2047.9999999999998`, so a 2215 x 1000 bitmap gets a 2047-pixel
  edge. About 2,274 of the widths from 2049 to 19999 come out one pixel short like this. The
  2048:1 boundary of LoadableIff can move by the same rounding.
- Division by zero is excluded by requirements: `Loadable` for the bitmap, `TextureReady` for
  the state, and `PresenterMeasured` for the presenter on a double tap and on the delta that
  starts a pinch, the only places that divide by its size. This covers zero-sized bitmaps, a
  presenter not yet measured at those two events, and bitmaps whose aspect ratio exceeds 2048:1. For such a bitmap
  the short texture edge truncates to zero (`ExtremeAspectCollapses`), and `Loadable` means no
  zero texture edge. The control itself still stores the texture and lays out a zero-height
  canvas; only the FitHeight minimum (`h / 0`, so the applied scale becomes 10) and the pinch
  or tap relative point divide by zero.
- Gestures.Run requires non-negative rendered viewport sizes (`ValidEnv`). A negative size
  would make the minimum negative.
- The model does not forbid interleaving double taps with pinches, and neither does the control.
