/** The state of the ZoomableImage control's zoom/pan logic, the inputs the UI
    toolkit feeds it, and the layout side effects it emits. */
module ZoomTypes {

  /** Largest zoom factor the control allows (`MaxScale`). */
  const MaxScale: real := 10.0

  /** Policy for the minimum zoom: fit both axes, the width, or the height. */
  datatype ZoomMode = Coerence | FitWidth | FitHeight

  datatype Size = Size(width: real, height: real)

  datatype Point = Point(x: real, y: real)

  datatype Option<T> = None | Some(value: T)

  /** What the control reads from the visual tree while handling an event:
      the zoom mode property, the viewport control's rendered size and the
      image presenter's rendered size. */
  datatype Env = Env(mode: ZoomMode, viewportActual: Size, presenterActual: Size)

  /** The control's private fields. `bitmapLoaded` stands for `_bitmap != null`. */
  datatype ZoomState = ZoomState(
    scale: real,
    minScale: real,
    coercedScale: real,
    originalScale: real,
    baseScale: real,
    viewportSize: Size,
    pinching: bool,
    screenMidpoint: Point,
    relativeMidpoint: Point,
    bitmapLoaded: bool,
    textureScale: Size)

  /** A write the control makes to its template children, in program order:
      the presenter's explicit size, the canvas size together with the viewport
      bounds and the scale transform, and the viewport's scroll origin. */
  datatype Effect =
    | SetPresenterSize(size: Size)
    | SetContent(size: Size, scale: real)
    | SetOrigin(origin: Point)

  /** The outcome of one event handler: the new state, the effects emitted and
      whether the event was marked handled. */
  datatype Step = Step(state: ZoomState, effects: seq<Effect>, handled: bool)

  /** The fields as the control is constructed: `_scale = 1.0`, everything else
      at its default value, no bitmap. */
  const Initial: ZoomState := ZoomState(
    1.0, 0.0, 0.0, 0.0, 0.0, Size(0.0, 0.0), false,
    Point(0.0, 0.0), Point(0.0, 0.0), false, Size(0.0, 0.0))

  /** A loaded bitmap has a texture size the control can divide by. */
  predicate TextureReady(s: ZoomState) {
    s.bitmapLoaded ==> s.textureScale.width > 0.0 && s.textureScale.height > 0.0
  }

  /** The presenter has been measured, so relative positions can be computed. */
  predicate PresenterMeasured(env: Env) {
    env.presenterActual.width > 0.0 && env.presenterActual.height > 0.0
  }

  /** The viewport control's rendered size is never negative. */
  predicate ValidEnv(env: Env) {
    0.0 <= env.viewportActual.width && 0.0 <= env.viewportActual.height
  }
}
