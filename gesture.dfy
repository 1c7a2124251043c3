/** The gesture entry point of the split engine (hooks/src/useGesture.ts): the start
    of a pan, and the handlers wired to the mouse and the wheel. */
module Gesture {
  import opened Wrappers
  import opened GestureState
  import opened Utils
  import opened Pan
  import opened WheelZoom

  /** The guards under which a pointer-down is handled. */
  predicate PanStartAccepted(s: TransformState, wrapper: Option<Element>, targetInside: bool)
  {
    wrapper.Some? && s.panningEnabled && !s.disabled && targetInside && s.scale >= s.minScale
  }

  /** `handleStartPanning`: an accepted pointer-down recomputes the bounds for the
      current scale; a mouse-down also enters the panning state and records the
      pointer's offset from the content origin, a touch start does nothing more. */
  function StartedPanning(s: TransformState, event: PointerEvent, wrapper: Option<Element>, targetInside: bool,
                          h: Helpers): (r: TransformState)
    ensures !PanStartAccepted(s, wrapper, targetInside) ==> r == s
    ensures PanStartAccepted(s, wrapper, targetInside) ==>
              r.bounds == Some(HandleCalculateBounds(s.scale, s.limitToWrapperBounds, wrapper.value, h))
    ensures PanStartAccepted(s, wrapper, targetInside) && event.TouchEvent? ==> r == s.(bounds := r.bounds)
    ensures PanStartAccepted(s, wrapper, targetInside) && event.MouseEvent? ==>
              r == s.(bounds := r.bounds, isDown := true, startCoords := r.startCoords) &&
              r.startCoords.Some? &&
              r.startCoords.value.x + s.positionX == event.clientX &&
              r.startCoords.value.y + s.positionY == event.clientY
  {
    if wrapper.None? then s
    else if !s.panningEnabled || s.disabled || !targetInside || s.scale < s.minScale then s
    else
      var withBounds := s.(bounds := Some(HandleCalculateBounds(s.scale, s.limitToWrapperBounds, wrapper.value, h)));
      match event
      case TouchEvent(_) => withBounds
      case MouseEvent(clientX, clientY) =>
        withBounds.(isDown := true, startCoords := Some(Point(clientX - s.positionX, clientY - s.positionY)))
  }

  method HandleStartPanning(state: ReactiveState, event: PointerEvent, wrapper: Option<Element>,
                            targetInside: bool, h: Helpers)
    modifies state
    ensures state.Value() == StartedPanning(old(state.Value()), event, wrapper, targetInside, h)
  {
    var s := state.Value();
    if wrapper.None? {
      return;
    }
    if !s.panningEnabled || s.disabled || !targetInside || s.scale < s.minScale {
      return;
    }
    state.SetBounds(HandleCalculateBounds(s.scale, s.limitToWrapperBounds, wrapper.value, h));
    if event.MouseEvent? {
      state.SetPanStart(Point(event.clientX - s.positionX, event.clientY - s.positionY));
    }
  }

  /** A mouse-down at a client point followed by a move to the same point writes no
      position: the move's candidate is the current position, on both axes, locked or not. */
  lemma MouseStartThenMoveIsNoop(s: TransformState, event: PointerEvent, wrapper: Option<Element>,
                                 content: Option<Element>, targetInside: bool, h: Helpers)
    requires PanStartAccepted(s, wrapper, targetInside) && content.Some? && event.MouseEvent?
    ensures var t := StartedPanning(s, event, wrapper, targetInside, h);
            Panned(t, event, wrapper, content, h) == t
  {
  }

  /** The events that the listeners wire to the handlers: mouse down, move and up on
      the window, and the wheel on the wrapper. */
  datatype GestureInput =
    | MouseDown(event: PointerEvent, targetInside: bool)
    | MouseMove(event: PointerEvent)
    | MouseUp
    | Wheel(wheel: WheelEvent)

  function Step(s: TransformState, input: GestureInput, wrapper: Option<Element>, content: Option<Element>,
                h: Helpers): TransformState
  {
    match input
    case MouseDown(event, inside) => StartedPanning(s, event, wrapper, inside, h)
    case MouseMove(event) => Panned(s, event, wrapper, content, h)
    case MouseUp => StoppedPanning(s)
    case Wheel(event) => WheelZoomed(s, event, wrapper, content, h)
  }

  /** A sequence of events handled in order. */
  function Run(s: TransformState, inputs: seq<GestureInput>, wrapper: Option<Element>, content: Option<Element>,
               h: Helpers): TransformState
    decreases |inputs|
  {
    if inputs == [] then s else Run(Step(s, inputs[0], wrapper, content, h), inputs[1..], wrapper, content, h)
  }

  /** The lowest scale the zoom padding admits. */
  function ScaleFloor(s: TransformState): real
  {
    s.minScale - (if s.enablePadding then s.zoomPadding else 0.0)
  }

  predicate ScaleInRange(s: TransformState)
  {
    ScaleFloor(s) <= s.scale <= s.maxScale
  }

  /** What `checkZoomBounds`, which is not defined in the repository, is taken to do
      in the statement below: keep its result between the padded floor and the
      maximum scale. */
  ghost predicate ClampsScale(h: Helpers, s: TransformState)
  {
    forall zoom: real :: ScaleFloor(s) <= CheckZoomBounds(h, zoom, s.minScale, s.maxScale, s.zoomPadding, s.enablePadding) <= s.maxScale
  }

  /** The scale limits and the padding, which no handler writes. */
  predicate SameScaleLimits(s: TransformState, t: TransformState)
  {
    t.minScale == s.minScale && t.maxScale == s.maxScale &&
    t.zoomPadding == s.zoomPadding && t.enablePadding == s.enablePadding
  }

  /** Starting a pan leaves the scale and its limits alone. */
  lemma StartKeepsScale(s: TransformState, event: PointerEvent, wrapper: Option<Element>, targetInside: bool,
                        h: Helpers)
    ensures var t := StartedPanning(s, event, wrapper, targetInside, h);
            SameScaleLimits(s, t) && t.scale == s.scale
  {
  }

  /** Panning leaves the scale and its limits alone. */
  lemma PanKeepsScale(s: TransformState, event: PointerEvent, wrapper: Option<Element>, content: Option<Element>,
                      h: Helpers)
    ensures var t := Panned(s, event, wrapper, content, h);
            SameScaleLimits(s, t) && t.scale == s.scale
  {
  }

  /** A wheel event keeps the scale limits, and keeps the scale within them when
      `checkZoomBounds` clamps. */
  lemma WheelStepKeepsScaleInRange(s: TransformState, event: WheelEvent, wrapper: Option<Element>,
                                   content: Option<Element>, h: Helpers)
    requires ClampsScale(h, s) && ScaleInRange(s)
    ensures var t := WheelZoomed(s, event, wrapper, content, h);
            SameScaleLimits(s, t) && ScaleInRange(t)
  {
    if WheelAccepted(s, wrapper, content) && WheelNewScale(s, event, h) != s.scale {
      WheelZoomCommits(s, event, wrapper, content, h);
    }
  }

  /** One event keeps the scale limits and the padding as they are and the scale within them. */
  lemma StepKeepsScaleInRange(s: TransformState, input: GestureInput, wrapper: Option<Element>,
                              content: Option<Element>, h: Helpers)
    requires ClampsScale(h, s) && ScaleInRange(s)
    ensures var t := Step(s, input, wrapper, content, h);
            SameScaleLimits(s, t) && ScaleInRange(t)
  {
    match input
    case MouseDown(event, inside) => StartKeepsScale(s, event, wrapper, inside, h);
    case MouseMove(event) => PanKeepsScale(s, event, wrapper, content, h);
    case MouseUp =>
    case Wheel(event) => WheelStepKeepsScaleInRange(s, event, wrapper, content, h);
  }

  /** Whatever sequence of events arrives, the scale stays between
      `minScale - zoomPadding` (when padding is enabled) and `maxScale`, provided
      `checkZoomBounds` clamps into that range. */
  lemma {:induction false} RunKeepsScaleInRange(s: TransformState, inputs: seq<GestureInput>,
                                                wrapper: Option<Element>, content: Option<Element>, h: Helpers)
    requires ClampsScale(h, s) && ScaleInRange(s)
    ensures var t := Run(s, inputs, wrapper, content, h);
            t.minScale == s.minScale && t.maxScale == s.maxScale && ScaleInRange(t)
    decreases |inputs|
  {
    if inputs != [] {
      var t := Step(s, inputs[0], wrapper, content, h);
      StepKeepsScaleInRange(s, inputs[0], wrapper, content, h);
      RunKeepsScaleInRange(t, inputs[1..], wrapper, content, h);
    }
  }
}
