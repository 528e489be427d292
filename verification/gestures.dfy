/** The control's event handlers as pure transitions from a state and an
    event's inputs to a new state and the layout effects emitted, plus the
    invariants the handlers keep over any sequence of events. */
module Gestures {
  import opened Numerics
  import opened ZoomTypes
  import opened Coercion
  import opened Texture
  import opened Layout

  /** The pinch data of a manipulation delta: the cumulative scale since the
      manipulation started, the original pinch centre in presenter coordinates
      and the same point transformed into viewport coordinates. */
  datatype PinchData = PinchData(cumulativeScale: real, center: Point, screenCenter: Point)

  /** A point in presenter coordinates as a fraction of the presenter's
      rendered size. */
  function RelativePoint(env: Env, center: Point): (p: Point)
    requires PresenterMeasured(env)
    ensures p.x * env.presenterActual.width == center.x
    ensures p.y * env.presenterActual.height == center.y
  {
    Point(center.x / env.presenterActual.width, center.y / env.presenterActual.height)
  }

  /** Records a focal point: its position relative to the presenter and its
      position on screen. */
  function CaptureFocus(s: ZoomState, env: Env, center: Point, screenCenter: Point): (r: ZoomState)
    requires PresenterMeasured(env)
    ensures Focused(r, env, center, screenCenter)
    ensures r == s.(relativeMidpoint := r.relativeMidpoint, screenMidpoint := r.screenMidpoint)
  {
    s.(relativeMidpoint := RelativePoint(env, center), screenMidpoint := screenCenter)
  }

  /** The focal point of `s` is `center`, taken relative to the presenter, and
      sits at `screenCenter` on screen. */
  predicate Focused(s: ZoomState, env: Env, center: Point, screenCenter: Point)
    requires PresenterMeasured(env)
  {
    s.relativeMidpoint == RelativePoint(env, center) && s.screenMidpoint == screenCenter
  }

  /** `OnManipulationStarted`: arms a possible pinch and remembers the scale it
      starts from. */
  function OnManipulationStarted(s: ZoomState): (r: Step)
    ensures !r.state.pinching && r.state.originalScale == s.scale
    ensures r.state == s.(pinching := false, originalScale := s.scale)
    ensures r.effects == [] && !r.handled
  {
    Step(s.(pinching := false, originalScale := s.scale), [], false)
  }

  /** The state a delta with pinch data moves to: the first such delta of a
      gesture captures the focal point, and every one requests the scale at
      start times the cumulative pinch factor. */
  function Pinched(s: ZoomState, env: Env, p: PinchData): ZoomState
    requires !s.pinching ==> PresenterMeasured(env)
  {
    var focused := if s.pinching then s else CaptureFocus(s, env, p.center, p.screenCenter).(pinching := true);
    CoerceScale(focused.(scale := focused.originalScale * p.cumulativeScale), env, false)
  }

  /** `OnManipulationDelta`. With pinch data: the event is handled, the first
      such delta captures the focal point, and the scale follows the cumulative
      pinch from the scale at start; minScale, originalScale and baseScale stay
      put; the content is laid out anchored at the focal point. Without pinch
      data while pinching: the pinch settles on the coerced scale. Without
      pinch data otherwise: nothing happens. */
  function OnManipulationDelta(s: ZoomState, env: Env, pinch: Option<PinchData>): (r: Step)
    requires pinch.Some? && !s.pinching ==> PresenterMeasured(env)
    ensures r.handled <==> pinch.Some?
    ensures pinch.Some? ==>
              && r.state.pinching
              && r.state.scale == s.originalScale * pinch.value.cumulativeScale
              && r.state.coercedScale == Coerce(r.state.scale, s.minScale)
              && r.state.minScale == s.minScale
              && r.state.originalScale == s.originalScale
              && r.state.baseScale == s.baseScale
              && r.state.bitmapLoaded == s.bitmapLoaded
              && r.state.textureScale == s.textureScale
              && r.state.viewportSize == s.viewportSize
              && (s.pinching ==>
                    r.state.relativeMidpoint == s.relativeMidpoint && r.state.screenMidpoint == s.screenMidpoint)
              && (!s.pinching ==> Focused(r.state, env, pinch.value.center, pinch.value.screenCenter))
              && r.effects == ResizeImage(r.state, env, false)
    ensures pinch.None? && s.pinching ==>
              && r.state.scale == r.state.originalScale == s.coercedScale
              && r.state == s.(pinching := false, scale := s.coercedScale, originalScale := s.coercedScale)
              && r.effects == []
    ensures pinch.None? && !s.pinching ==> r == Step(s, [], false)
  {
    match pinch
    case Some(p) =>
      var scaled := Pinched(s, env, p);
      Step(scaled, ResizeImage(scaled, env, false), true)
    case None =>
      if s.pinching then
        Step(s.(pinching := false, originalScale := s.coercedScale, scale := s.coercedScale), [], false)
      else
        Step(s, [], false)
  }

  /** `OnManipulationCompleted`: the gesture ends and the requested scale snaps
      to the coerced one. */
  function OnManipulationCompleted(s: ZoomState): (r: Step)
    ensures !r.state.pinching && r.state.scale == s.coercedScale
    ensures r.state == s.(pinching := false, scale := s.coercedScale)
    ensures r.effects == [] && !r.handled
  {
    Step(s.(pinching := false, scale := s.coercedScale), [], false)
  }

  /** `OnViewportChanged`: a viewport of a new size re-derives the minimum,
      re-coerces and lays out anchored at the last focal point; a viewport of
      the stored size changes nothing at all. */
  function OnViewportChanged(s: ZoomState, env: Env, viewport: Size): (r: Step)
    requires TextureReady(s)
    ensures viewport == s.viewportSize ==> r == Step(s, [], false)
    ensures viewport != s.viewportSize ==>
              && r.state.viewportSize == viewport
              && r.state.minScale == (if s.bitmapLoaded then FitScale(env.mode, env.viewportActual, s.textureScale)
                                      else s.minScale)
              && r.state.coercedScale == Coerce(s.scale, r.state.minScale)
              && r.state == s.(viewportSize := viewport, minScale := r.state.minScale,
                               coercedScale := r.state.coercedScale)
              && r.effects == ResizeImage(r.state, env, false)
    ensures !r.handled
  {
    if viewport != s.viewportSize then
      var coerced := CoerceScale(s.(viewportSize := viewport), env, true);
      Step(coerced, ResizeImage(coerced, env, false), false)
    else
      Step(s, [], false)
  }

  /** `OnImageOpened`: stores the (possibly downsampled) texture size, resets
      the zoom to the fit scale, which becomes the base scale, and lays out
      centred. A downsampled texture is first given to the presenter as its
      size; outside Coerence mode the viewport is finally scrolled to the top
      left corner. */
  function OnImageOpened(s: ZoomState, env: Env, pixelWidth: int, pixelHeight: int): (r: Step)
    requires Loadable(pixelWidth, pixelHeight)
    ensures r.state.bitmapLoaded && r.state.textureScale == TextureSize(pixelWidth, pixelHeight)
    ensures r.state.minScale == FitScale(env.mode, env.viewportActual, r.state.textureScale)
    ensures r.state.baseScale == r.state.scale == r.state.coercedScale == Coerce(0.0, r.state.minScale)
    ensures r.state == s.(bitmapLoaded := true, textureScale := r.state.textureScale,
                          minScale := r.state.minScale, scale := r.state.scale,
                          coercedScale := r.state.coercedScale, baseScale := r.state.baseScale)
    ensures var layout := ResizeImage(r.state, env, true);
            var presenter := if NeedsDownsample(pixelWidth, pixelHeight)
                             then [SetPresenterSize(r.state.textureScale)] else [];
            var reset := if env.mode != Coerence then [SetOrigin(Point(0.0, 0.0))] else [];
            r.effects == presenter + layout + reset
    ensures env.mode != Coerence ==> FinalOrigin(r.effects) == Some(Point(0.0, 0.0))
    ensures !r.handled
  {
    var texture := TextureSize(pixelWidth, pixelHeight);
    var presenter := if NeedsDownsample(pixelWidth, pixelHeight) then [SetPresenterSize(texture)] else [];
    var coerced := CoerceScale(s.(textureScale := texture, bitmapLoaded := true, scale := 0.0), env, true);
    var based := coerced.(baseScale := coerced.coercedScale, scale := coerced.coercedScale);
    var reset := if env.mode != Coerence then [SetOrigin(Point(0.0, 0.0))] else [];
    Step(based, presenter + ResizeImage(based, env, true) + reset, false)
  }

  /** `OnDoubleTap`: captures the tapped point as the focal point, then
      toggles. Zoomed in beyond the base scale, it returns to the freshly
      re-derived fit scale, laid out centred. Otherwise it requests three times
      the base scale, laid out anchored at the tap. The base scale, the
      gesture flag and the pinch snapshot are never touched. */
  function OnDoubleTap(s: ZoomState, env: Env, position: Point, screenPosition: Point): (r: Step)
    requires PresenterMeasured(env) && TextureReady(s)
    ensures Focused(r.state, env, position, screenPosition)
    ensures && r.state.baseScale == s.baseScale && r.state.originalScale == s.originalScale
            && r.state.pinching == s.pinching && r.state.viewportSize == s.viewportSize
            && r.state.bitmapLoaded == s.bitmapLoaded && r.state.textureScale == s.textureScale
    ensures s.scale > s.baseScale ==>
              && r.state.minScale == (if s.bitmapLoaded then FitScale(env.mode, env.viewportActual, s.textureScale)
                                      else s.minScale)
              && r.state.scale == r.state.coercedScale == Coerce(0.0, r.state.minScale)
              && r.effects == ResizeImage(r.state, env, true)
    ensures s.scale <= s.baseScale ==>
              && r.state.scale == 3.0 * s.baseScale
              && r.state.minScale == s.minScale
              && r.state.coercedScale == Coerce(3.0 * s.baseScale, s.minScale)
              && r.effects == ResizeImage(r.state, env, false)
    ensures !r.handled
  {
    var focused := CaptureFocus(s, env, position, screenPosition);
    if focused.scale > focused.baseScale then
      var coerced := CoerceScale(focused.(scale := 0.0), env, true);
      var fit := coerced.(scale := coerced.coercedScale);
      Step(fit, ResizeImage(fit, env, true), false)
    else
      var coerced := CoerceScale(focused.(scale := focused.baseScale * 3.0), env, false);
      Step(coerced, ResizeImage(coerced, env, false), false)
  }

  /** The events the control subscribes to. */
  datatype Event =
    | ManipulationStarted
    | ManipulationDelta(pinch: Option<PinchData>)
    | ManipulationCompleted
    | ViewportChanged(viewport: Size)
    | ImageOpened(pixelWidth: int, pixelHeight: int)
    | DoubleTap(position: Point, screenPosition: Point)

  /** An event together with what the control reads from the visual tree
      while handling it. */
  datatype Input = Input(env: Env, event: Event)

  /** What the handler of `i` demands in state `s`: an image the model can lay
      out, and a measured presenter where the presenter's size is divided by,
      which is on a double tap and on the pinch delta that starts a pinch. */
  predicate Accepts(s: ZoomState, i: Input) {
    && (i.event.ImageOpened? ==> Loadable(i.event.pixelWidth, i.event.pixelHeight))
    && (i.event.DoubleTap? ==> PresenterMeasured(i.env))
    && (i.event.ManipulationDelta? && i.event.pinch.Some? && !s.pinching ==> PresenterMeasured(i.env))
  }

  /** An input the toolkit can deliver in state `s`: the viewport's rendered
      size is never negative, and the handler's demands are met. */
  predicate ValidInput(s: ZoomState, i: Input) {
    ValidEnv(i.env) && Accepts(s, i)
  }

  /** Dispatches an input to its handler. */
  function Apply(s: ZoomState, i: Input): Step
    requires TextureReady(s) && Accepts(s, i)
  {
    match i.event
    case ManipulationStarted => OnManipulationStarted(s)
    case ManipulationDelta(pinch) => OnManipulationDelta(s, i.env, pinch)
    case ManipulationCompleted => OnManipulationCompleted(s)
    case ViewportChanged(viewport) => OnViewportChanged(s, i.env, viewport)
    case ImageOpened(w, h) => OnImageOpened(s, i.env, w, h)
    case DoubleTap(position, screen) => OnDoubleTap(s, i.env, position, screen)
  }

  /** What holds of every state the control reaches: the minimum is never
      negative, the applied scale lies in `[0, MaxScale]`, and a loaded
      texture has whole-pixel edges between 1 and MaxTextureSize. */
  predicate Inv(s: ZoomState) {
    && 0.0 <= s.minScale
    && 0.0 <= s.coercedScale <= MaxScale
    && (s.bitmapLoaded ==>
          && IsIntegral(s.textureScale.width) && IsIntegral(s.textureScale.height)
          && 1.0 <= s.textureScale.width <= MaxTextureSize as real
          && 1.0 <= s.textureScale.height <= MaxTextureSize as real)
  }

  /** The applied scale is the clamp of the requested one. */
  predicate Coherent(s: ZoomState) {
    s.coercedScale == Coerce(s.scale, s.minScale)
  }

  /** Effects a well-behaved control emits: transforms scale by a factor in
      `(0, MaxScale]` and presenters are given at most MaxTextureSize pixels
      per edge. */
  predicate SaneEffects(fx: seq<Effect>) {
    forall k :: 0 <= k < |fx| ==>
      && (fx[k].SetContent? ==> 0.0 < fx[k].scale <= MaxScale)
      && (fx[k].SetPresenterSize? ==>
            && 1.0 <= fx[k].size.width <= MaxTextureSize as real
            && 1.0 <= fx[k].size.height <= MaxTextureSize as real)
  }

  /** Sane effects stay sane when concatenated. */
  lemma SaneEffectsAppend(a: seq<Effect>, b: seq<Effect>)
    requires SaneEffects(a) && SaneEffects(b)
    ensures SaneEffects(a + b)
  {
    forall k | 0 <= k < |a + b|
      ensures (a + b)[k] == if k < |a| then a[k] else b[k - |a|]
    {
    }
  }

  /** A layout at an applied scale within `[0, MaxScale]` is sane. */
  lemma ResizeImageSane(s: ZoomState, env: Env, center: bool)
    requires 0.0 <= s.coercedScale <= MaxScale
    ensures SaneEffects(ResizeImage(s, env, center))
  {
  }

  /** Clamping against a non-negative minimum yields a legal applied scale. */
  lemma CoerceInRange(scale: real, minScale: real)
    requires 0.0 <= minScale
    ensures 0.0 <= Coerce(scale, minScale) <= MaxScale
  {
  }

  /** An image load establishes Inv and emits only sane effects. */
  lemma ImageOpenedKeepsInv(s: ZoomState, env: Env, pixelWidth: int, pixelHeight: int)
    requires ValidEnv(env) && Loadable(pixelWidth, pixelHeight)
    ensures Inv(OnImageOpened(s, env, pixelWidth, pixelHeight).state)
    ensures SaneEffects(OnImageOpened(s, env, pixelWidth, pixelHeight).effects)
  {
    var r := OnImageOpened(s, env, pixelWidth, pixelHeight);
    CoerceInRange(0.0, r.state.minScale);
    var presenter := if NeedsDownsample(pixelWidth, pixelHeight) then [SetPresenterSize(r.state.textureScale)] else [];
    var layout := ResizeImage(r.state, env, true);
    var reset := if env.mode != Coerence then [SetOrigin(Point(0.0, 0.0))] else [];
    ResizeImageSane(r.state, env, true);
    SaneEffectsAppend(presenter, layout);
    SaneEffectsAppend(presenter + layout, reset);
  }

  /** A viewport change keeps Inv and emits only sane effects. */
  lemma ViewportChangedKeepsInv(s: ZoomState, env: Env, viewport: Size)
    requires Inv(s) && ValidEnv(env)
    ensures Inv(OnViewportChanged(s, env, viewport).state)
    ensures SaneEffects(OnViewportChanged(s, env, viewport).effects)
  {
    var r := OnViewportChanged(s, env, viewport);
    CoerceInRange(s.scale, r.state.minScale);
    ResizeImageSane(r.state, env, false);
  }

  /** A double tap keeps Inv and emits only sane effects. */
  lemma DoubleTapKeepsInv(s: ZoomState, env: Env, position: Point, screenPosition: Point)
    requires Inv(s) && ValidEnv(env) && PresenterMeasured(env)
    ensures Inv(OnDoubleTap(s, env, position, screenPosition).state)
    ensures SaneEffects(OnDoubleTap(s, env, position, screenPosition).effects)
  {
    var r := OnDoubleTap(s, env, position, screenPosition);
    CoerceInRange(r.state.scale, r.state.minScale);
    CoerceInRange(0.0, r.state.minScale);
    ResizeImageSane(r.state, env, s.scale > s.baseScale);
  }

  /** A manipulation delta keeps Inv and emits only sane effects. */
  lemma ManipulationDeltaKeepsInv(s: ZoomState, env: Env, pinch: Option<PinchData>)
    requires Inv(s) && (pinch.Some? && !s.pinching ==> PresenterMeasured(env))
    ensures Inv(OnManipulationDelta(s, env, pinch).state)
    ensures SaneEffects(OnManipulationDelta(s, env, pinch).effects)
  {
    var r := OnManipulationDelta(s, env, pinch);
    CoerceInRange(r.state.scale, r.state.minScale);
    ResizeImageSane(r.state, env, false);
  }

  /** Every handler keeps Inv and emits only sane effects. */
  lemma ApplyKeepsInv(s: ZoomState, i: Input)
    requires Inv(s) && ValidInput(s, i)
    ensures Inv(Apply(s, i).state)
    ensures SaneEffects(Apply(s, i).effects)
  {
    match i.event
    case ManipulationStarted =>
    case ManipulationDelta(pinch) => ManipulationDeltaKeepsInv(s, i.env, pinch);
    case ManipulationCompleted =>
    case ViewportChanged(viewport) => ViewportChangedKeepsInv(s, i.env, viewport);
    case ImageOpened(w, h) => ImageOpenedKeepsInv(s, i.env, w, h);
    case DoubleTap(position, screen) => DoubleTapKeepsInv(s, i.env, position, screen);
  }

  /** Every handler keeps the applied scale the clamp of the requested one. */
  lemma ApplyKeepsCoherent(s: ZoomState, i: Input)
    requires TextureReady(s) && Accepts(s, i) && Coherent(s)
    ensures Coherent(Apply(s, i).state)
  {
    CoerceIdempotent(s.scale, s.minScale);
    match i.event
    case ImageOpened(w, h) =>
      var m := Apply(s, i).state.minScale;
      CoerceIdempotent(0.0, m);
    case DoubleTap(_, _) =>
      var m := Apply(s, i).state.minScale;
      CoerceIdempotent(0.0, m);
    case _ =>
  }

  /** The final state and every effect of a run of inputs. */
  datatype Trace = Trace(state: ZoomState, effects: seq<Effect>)

  /** A run of inputs each of which is valid in the state it arrives in. */
  predicate ValidRun(s: ZoomState, inputs: seq<Input>)
    decreases |inputs|
  {
    || inputs == []
    || (&& TextureReady(s) && ValidInput(s, inputs[0])
        && ValidRun(Apply(s, inputs[0]).state, inputs[1..]))
  }

  /** Feeds a sequence of inputs to the control, in order. Whatever the
      inputs, Inv is kept and only sane effects are emitted. */
  function Run(s: ZoomState, inputs: seq<Input>): (t: Trace)
    requires Inv(s) && ValidRun(s, inputs)
    ensures Inv(t.state)
    ensures SaneEffects(t.effects)
    decreases |inputs|
  {
    if inputs == [] then Trace(s, [])
    else
      ApplyKeepsInv(s, inputs[0]);
      var step := Apply(s, inputs[0]);
      var rest := Run(step.state, inputs[1..]);
      SaneEffectsAppend(step.effects, rest.effects);
      Trace(rest.state, step.effects + rest.effects)
  }

  /** Once the applied scale is the clamp of the requested one, it stays so
      through any run of inputs. */
  lemma {:induction false} RunKeepsCoherent(s: ZoomState, inputs: seq<Input>)
    requires Inv(s) && Coherent(s) && ValidRun(s, inputs)
    ensures Coherent(Run(s, inputs).state)
    decreases |inputs|
  {
    if inputs != [] {
      ApplyKeepsInv(s, inputs[0]);
      ApplyKeepsCoherent(s, inputs[0]);
      RunKeepsCoherent(Apply(s, inputs[0]).state, inputs[1..]);
    }
  }

  /** The constructed control is not coherent (scale 1, applied scale 0), but
      loading an image makes it so. */
  lemma ImageOpenedEstablishesCoherence(s: ZoomState, env: Env, pixelWidth: int, pixelHeight: int)
    requires Loadable(pixelWidth, pixelHeight)
    ensures !Coherent(Initial)
    ensures Coherent(OnImageOpened(s, env, pixelWidth, pixelHeight).state)
  {
    CoerceIdempotent(0.0, OnImageOpened(s, env, pixelWidth, pixelHeight).state.minScale);
  }

  /** The control as constructed satisfies Inv, so Run's guarantees cover
      every sequence of events it receives. */
  lemma InitialInv()
    ensures Inv(Initial) && TextureReady(Initial)
  {
  }

  /** Other handlers establish coherence too, before any image is loaded: a
      viewport change to a new size re-coerces, and a completed gesture snaps
      the requested scale to the applied one. */
  lemma EarlyHandlersEstablishCoherence(env: Env, viewport: Size)
    requires viewport != Initial.viewportSize
    ensures Coherent(OnViewportChanged(Initial, env, viewport).state)
    ensures Coherent(OnManipulationCompleted(Initial).state)
  {
  }

  /** The usual start-up: a viewport change and then an image load, both
      before the presenter has been measured. The run is valid, and it leaves
      the image loaded and the applied scale the clamp of the requested one. */
  lemma StartUpRun(env0: Env, viewport: Size, env1: Env, pixelWidth: int, pixelHeight: int)
    requires ValidEnv(env0) && ValidEnv(env1) && Loadable(pixelWidth, pixelHeight)
    ensures var inputs := [Input(env0, ViewportChanged(viewport)), Input(env1, ImageOpened(pixelWidth, pixelHeight))];
            && ValidRun(Initial, inputs)
            && Run(Initial, inputs).state.bitmapLoaded
            && Run(Initial, inputs).state.textureScale == TextureSize(pixelWidth, pixelHeight)
            && Coherent(Run(Initial, inputs).state)
  {
    var inputs := [Input(env0, ViewportChanged(viewport)), Input(env1, ImageOpened(pixelWidth, pixelHeight))];
    InitialInv();
    ViewportChangedKeepsInv(Initial, env0, viewport);
    var s1 := OnViewportChanged(Initial, env0, viewport).state;
    var s2 := OnImageOpened(s1, env1, pixelWidth, pixelHeight).state;
    ImageOpenedEstablishesCoherence(s1, env1, pixelWidth, pixelHeight);
    assert inputs[1..] == [inputs[1]] && inputs[1..][1..] == [];
    assert ValidRun(s1, inputs[1..]);
    assert Run(s1, inputs[1..]).state == s2;
  }

  /** A second viewport event of the same size after a real change is a no-op. */
  lemma ViewportChangeIdempotent(s: ZoomState, env: Env, env': Env, viewport: Size)
    requires TextureReady(s)
    ensures var first := OnViewportChanged(s, env, viewport);
            OnViewportChanged(first.state, env', viewport) == Step(first.state, [], false)
  {
  }

  /** A pinch from start through two pinch deltas: the focal point is the one
      the first delta captured, the scale follows the latest cumulative factor
      from the scale at start, and both layouts keep the same content point
      under the same screen point. */
  lemma PinchTracksFirstFocus(s: ZoomState, env: Env, p1: PinchData, p2: PinchData)
    requires PresenterMeasured(env)
    ensures var started := OnManipulationStarted(s).state;
            var d1 := OnManipulationDelta(started, env, Some(p1));
            var d2 := OnManipulationDelta(d1.state, env, Some(p2));
            && Focused(d2.state, env, p1.center, p1.screenCenter)
            && d2.state.scale == s.scale * p2.cumulativeScale
            && d2.state.minScale == s.minScale && d2.state.originalScale == s.scale
            && (d1.effects != [] ==> LaidOut(d1.state, env, false, d1.effects))
            && (d2.effects != [] ==> LaidOut(d2.state, env, false, d2.effects))
            && d2.state.screenMidpoint == d1.state.screenMidpoint
            && d2.state.relativeMidpoint == d1.state.relativeMidpoint
  {
    var started := OnManipulationStarted(s).state;
    var d1 := OnManipulationDelta(started, env, Some(p1));
    var d2 := OnManipulationDelta(d1.state, env, Some(p2));
    PinchedTwice(s, env, p1, p2);
    assert d1.effects == ResizeImage(d1.state, env, false);
    assert d2.effects == ResizeImage(d2.state, env, false);
  }

  /** The scale after two pinch deltas, stated on the states alone so that the
      layouts stay out of the proof. */
  lemma PinchedTwice(s: ZoomState, env: Env, p1: PinchData, p2: PinchData)
    requires PresenterMeasured(env)
    ensures var started := OnManipulationStarted(s).state;
            Pinched(Pinched(started, env, p1), env, p2).scale == s.scale * p2.cumulativeScale
  {
  }

  /** Pinch data lost mid-gesture: the pinch settles on the clamp of the last
      pinched scale, both as the requested scale and as the new snapshot. */
  lemma PinchDataLossSettles(s: ZoomState, env: Env, p: PinchData)
    requires PresenterMeasured(env)
    ensures var started := OnManipulationStarted(s).state;
            var pinched := OnManipulationDelta(started, env, Some(p)).state;
            var settled := OnManipulationDelta(pinched, env, None).state;
            && !settled.pinching
            && settled.scale == settled.originalScale == Coerce(s.scale * p.cumulativeScale, s.minScale)
            && settled.coercedScale == settled.scale
  {
  }

  /** After a gesture completes from a reachable state, the requested scale is
      a legal applied scale: within `[0, MaxScale]`, and at least the minimum
      whenever the minimum is attainable. */
  lemma CompletedScaleInRange(s: ZoomState)
    requires Inv(s) && Coherent(s)
    ensures var done := OnManipulationCompleted(s).state;
            && 0.0 <= done.scale <= MaxScale
            && (done.minScale <= MaxScale ==> done.minScale <= done.scale)
            && Coherent(done)
  {
    CoerceIdempotent(s.scale, s.minScale);
  }

  /** The double-tap toggle: from the fit view just after an image loads, a
      first tap requests three times the base scale and a second tap (with the
      viewport unchanged) returns exactly to the base scale. */
  lemma DoubleTapTwiceReturnsToFit(
    s: ZoomState, env: Env, pixelWidth: int, pixelHeight: int,
    tap1: Point, screen1: Point, tap2: Point, screen2: Point)
    requires Loadable(pixelWidth, pixelHeight) && PresenterMeasured(env)
    ensures var loaded := OnImageOpened(s, env, pixelWidth, pixelHeight).state;
            var once := OnDoubleTap(loaded, env, tap1, screen1).state;
            var twice := OnDoubleTap(once, env, tap2, screen2).state;
            && once.scale == 3.0 * loaded.baseScale
            && once.coercedScale == Coerce(3.0 * loaded.baseScale, loaded.minScale)
            && twice.scale == twice.coercedScale == loaded.baseScale
            && twice.baseScale == loaded.baseScale
  {
  }
}
