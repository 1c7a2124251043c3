/** The state record the split engine's handlers share (hooks/src/useGesture.ts,
    with the bounds shape of hooks/src/types.ts), the events they receive, and the
    reactive object that holds the state. */
module GestureState {
  import opened Wrappers

  datatype Point = Point(x: real, y: real)

  /** A translation rectangle; each side may be null (`None`). */
  datatype Bounds = Bounds(maxPositionX: Option<real>, minPositionX: Option<real>,
                           maxPositionY: Option<real>, minPositionY: Option<real>)

  /** A mounted DOM element, known to the model only by identity: what is measured
      on it is up to the helpers that receive it. */
  datatype Element = Element(id: nat)

  datatype Touch = Touch(clientX: real, clientY: real)

  /** A pointer event: a mouse event with its client coordinates, or a touch event
      with its list of touches. */
  datatype PointerEvent =
    | MouseEvent(clientX: real, clientY: real)
    | TouchEvent(touches: seq<Touch>)

  datatype WheelEvent = WheelEvent(deltaY: real, ctrlKey: bool, clientX: real, clientY: real)

  /** The whole state: the record built from `initialState`, plus the start offset
      of a pan (the `startCoords` ref), which is `None` until a pan has started. */
  datatype TransformState = TransformState(
    positionX: real, positionY: real,
    zoomingEnabled: bool,
    scale: real, maxScale: real, minScale: real, previousScale: real,
    limitToBounds: bool, disabled: bool, isDown: bool,
    zoomPadding: real, enablePadding: bool, limitToWrapperOnWheel: bool,
    wheelStep: real,
    panningEnabled: bool, limitToWrapperBounds: bool,
    lockAxisX: bool, lockAxisY: bool,
    bounds: Option<Bounds>,
    startCoords: Option<Point>)

  /** `initialState`, with the start-offset ref not yet set. */
  const InitialState: TransformState := TransformState(
    0.0, 0.0,
    true,
    1.0, 8.0, 1.0, 1.0,
    true, false, false,
    0.45, true, false,
    6.5,
    true, false,
    false, false,
    None,
    None)

  /** The initial state is a resting one: the scale sits within its limits, no pan
      is in progress and nothing has been measured. */
  lemma InitialStateAtRest()
    ensures InitialState.minScale == 1.0 <= InitialState.scale == 1.0 <= InitialState.maxScale == 8.0
    ensures !InitialState.isDown && InitialState.bounds.None?
    ensures InitialState.startCoords.None?
  {
  }

  /** The reactive object `reactive({ ...initialState })` together with the
      `startCoords` ref; the handlers write its fields in place. */
  class ReactiveState {
    var positionX: real
    var positionY: real
    var zoomingEnabled: bool
    var scale: real
    var maxScale: real
    var minScale: real
    var previousScale: real
    var limitToBounds: bool
    var disabled: bool
    var isDown: bool
    var zoomPadding: real
    var enablePadding: bool
    var limitToWrapperOnWheel: bool
    var wheelStep: real
    var panningEnabled: bool
    var limitToWrapperBounds: bool
    var lockAxisX: bool
    var lockAxisY: bool
    var bounds: Option<Bounds>
    var startCoords: Option<Point>

    function Value(): TransformState
      reads this
    {
      TransformState(positionX, positionY,
                     zoomingEnabled, scale, maxScale, minScale, previousScale,
                     limitToBounds, disabled, isDown, zoomPadding, enablePadding, limitToWrapperOnWheel,
                     wheelStep, panningEnabled, limitToWrapperBounds,
                     lockAxisX, lockAxisY, bounds, startCoords)
    }

    constructor ()
      ensures Value() == InitialState
    {
      positionX, positionY := 0.0, 0.0;
      zoomingEnabled := true;
      scale, maxScale, minScale, previousScale := 1.0, 8.0, 1.0, 1.0;
      limitToBounds, disabled, isDown := true, false, false;
      zoomPadding, enablePadding, limitToWrapperOnWheel := 0.45, true, false;
      wheelStep := 6.5;
      panningEnabled, limitToWrapperBounds := true, false;
      lockAxisX, lockAxisY := false, false;
      bounds := None;
      startCoords := None;
    }

    /** Writes the position (`state.positionX = …; state.positionY = …`). */
    method SetPosition(x: real, y: real)
      modifies this
      ensures Value() == old(Value()).(positionX := x, positionY := y)
    {
      positionX := x;
      positionY := y;
    }

    /** Writes the previous scale and the scale. */
    method SetScale(newPreviousScale: real, newScale: real)
      modifies this
      ensures Value() == old(Value()).(previousScale := newPreviousScale, scale := newScale)
    {
      previousScale := newPreviousScale;
      scale := newScale;
    }

    /** Writes the bounds. */
    method SetBounds(b: Bounds)
      modifies this
      ensures Value() == old(Value()).(bounds := Some(b))
    {
      bounds := Some(b);
    }

    /** Enters the panning state with the given start offset. */
    method SetPanStart(start: Point)
      modifies this
      ensures Value() == old(Value()).(isDown := true, startCoords := Some(start))
    {
      isDown := true;
      startCoords := Some(start);
    }
  }
}
