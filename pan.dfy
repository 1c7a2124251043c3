/** Panning in the split engine (hooks/src/usePan.ts): the pointer position of an
    event, the guard that decides whether a move is handled, the move itself and
    the stop. */
module Pan {
  import opened Wrappers
  import opened GestureState
  import opened Utils

  function Abs(x: real): real { if x < 0.0 then -x else x }

  /** `getClientPosition`: the client coordinates of a mouse event or of the single
      touch of a touch event; none for any other number of touches. */
  function GetClientPosition(event: PointerEvent): (r: Option<Point>)
    ensures event.MouseEvent? ==> r == Some(Point(event.clientX, event.clientY))
    ensures event.TouchEvent? ==> (r.Some? <==> |event.touches| == 1)
    ensures event.TouchEvent? && |event.touches| == 1 ==>
              r == Some(Point(event.touches[0].clientX, event.touches[0].clientY))
  {
    match event
    case TouchEvent(touches) =>
      if |touches| == 1 then Some(Point(touches[0].clientX, touches[0].clientY)) else None
    case MouseEvent(clientX, clientY) => Some(Point(clientX, clientY))
  }

  /** `checkIsPanningActive`: true when a move must be ignored, which is when no pan
      is in progress, panning is off, the elements are not mounted, no start offset
      exists, or a touch event is not a single touch that has moved at least one
      pixel horizontally from the start offset. */
  function CheckIsPanningActive(s: TransformState, event: PointerEvent,
                                wrapper: Option<Element>, content: Option<Element>): (ignore: bool)
    ensures !s.isDown || !s.panningEnabled || s.disabled ==> ignore
    ensures wrapper.None? || content.None? || s.startCoords.None? ==> ignore
    ensures event.TouchEvent? && |event.touches| != 1 ==> ignore
    ensures (event.TouchEvent? && |event.touches| == 1 && s.startCoords.Some? &&
             Abs(s.startCoords.value.x - event.touches[0].clientX) < 1.0) ==> ignore
    ensures (event.MouseEvent? && s.isDown && s.panningEnabled && !s.disabled && wrapper.Some? &&
             content.Some? && s.startCoords.Some?) ==> !ignore
    ensures (event.TouchEvent? && |event.touches| == 1 && s.isDown && s.panningEnabled && !s.disabled &&
             wrapper.Some? && content.Some? && s.startCoords.Some? &&
             Abs(s.startCoords.value.x - event.touches[0].clientX) >= 1.0) ==> !ignore
    ensures !ignore ==> s.startCoords.Some? && GetClientPosition(event).Some?
  {
    if !s.isDown || !s.panningEnabled || s.disabled then true
    else if wrapper.None? || content.None? then true
    else if s.startCoords.None? then true
    else if event.TouchEvent? &&
            (|event.touches| != 1 || Abs(s.startCoords.value.x - event.touches[0].clientX) < 1.0) then true
    else false
  }

  /** The position a move proposes: the pointer minus the start offset, with a
      locked axis kept where it is. */
  function PanCandidate(s: TransformState, start: Point, pointer: Point): (c: Point)
    ensures c.x == if s.lockAxisX then s.positionX else pointer.x - start.x
    ensures c.y == if s.lockAxisY then s.positionY else pointer.y - start.y
    ensures s.lockAxisX && s.lockAxisY ==> c == Point(s.positionX, s.positionY)
  {
    Point(if s.lockAxisX then s.positionX else pointer.x - start.x,
          if s.lockAxisY then s.positionY else pointer.y - start.y)
  }

  /** `handlePanning`: a handled move whose candidate differs from the position
      writes the position `checkPositionBounds` makes of it; nothing else changes. */
  function Panned(s: TransformState, event: PointerEvent, wrapper: Option<Element>, content: Option<Element>,
                  h: Helpers): (r: TransformState)
    ensures CheckIsPanningActive(s, event, wrapper, content) ==> r == s
    ensures r == s.(positionX := r.positionX, positionY := r.positionY)
    ensures !CheckIsPanningActive(s, event, wrapper, content) ==>
              var c := PanCandidate(s, s.startCoords.value, GetClientPosition(event).value);
              if c == Point(s.positionX, s.positionY) then r == s
              else var p := CheckPositionBounds(h, c.x, c.y, s.bounds, s.limitToBounds);
                   r.positionX == p.x && r.positionY == p.y
  {
    if CheckIsPanningActive(s, event, wrapper, content) then s
    else match s.startCoords
      case None => s
      case Some(start) =>
        match GetClientPosition(event)
        case None => s
        case Some(pointer) =>
          var c := PanCandidate(s, start, pointer);
          if c.x == s.positionX && c.y == s.positionY then s
          else
            var p := CheckPositionBounds(h, c.x, c.y, s.bounds, s.limitToBounds);
            s.(positionX := p.x, positionY := p.y)
  }

  /** `handleStopPanning`: no pan is in progress afterwards; nothing else changes. */
  function StoppedPanning(s: TransformState): (r: TransformState)
    ensures !r.isDown
    ensures r == s.(isDown := false)
  {
    if s.isDown then s.(isDown := false) else s
  }

  /** Stopping twice is stopping once. */
  lemma StopPanningIdempotent(s: TransformState)
    ensures StoppedPanning(StoppedPanning(s)) == StoppedPanning(s)
  {
  }

  method HandlePanning(state: ReactiveState, event: PointerEvent, wrapper: Option<Element>,
                       content: Option<Element>, h: Helpers)
    modifies state
    ensures state.Value() == Panned(old(state.Value()), event, wrapper, content, h)
  {
    var s := state.Value();
    if CheckIsPanningActive(s, event, wrapper, content) {
      return;
    }
    if s.startCoords.None? {
      return;
    }
    var start := s.startCoords.value;
    var positions := GetClientPosition(event);
    if positions.None? {
      return;
    }
    var pointer := positions.value;
    var newPositionX := if s.lockAxisX then s.positionX else pointer.x - start.x;
    var newPositionY := if s.lockAxisY then s.positionY else pointer.y - start.y;
    if newPositionX == s.positionX && newPositionY == s.positionY {
      return;
    }
    var calculatedPosition := CheckPositionBounds(h, newPositionX, newPositionY, s.bounds, s.limitToBounds);
    state.SetPosition(calculatedPosition.x, calculatedPosition.y);
  }

  method HandleStopPanning(state: ReactiveState)
    modifies state
    ensures state.Value() == StoppedPanning(old(state.Value()))
  {
    if state.isDown {
      state.isDown := false;
    }
  }
}
