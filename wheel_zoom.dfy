/** Wheel zoom in the split engine (hooks/src/useZoom.ts). The scale clamp, the
    delta, the sizes, the pointer position and the new position come from helpers
    that are received, not defined, here. */
module WheelZoom {
  import opened Wrappers
  import opened GestureState
  import opened Utils

  /** `handleCalculateBounds`: the bounds of the wrapper's content at a scale, from
      the sizes the wrapper reports at that scale. */
  function HandleCalculateBounds(newScale: real, limitToWrapper: bool, wrapper: Element, h: Helpers): Bounds
  {
    var z := GetComponentsSizes(h, wrapper, newScale);
    CalculateBoundingArea(h, z.wrapperWidth, z.newWrapperWidth, z.newDiffWidth,
                          z.wrapperHeight, z.newWrapperHeight, z.newDiffHeight, limitToWrapper)
  }

  /** The unclamped target scale: the scale grown by `wheelStep * delta` percent. */
  function TargetScale(scale: real, wheelStep: real, delta: real): real
  {
    scale + wheelStep * delta * (scale / 100.0)
  }

  /** The target is the scale times `1 + wheelStep * delta / 100`: a positive scale
      grows when `wheelStep * delta` is positive, shrinks when it is negative, and
      stays when it is zero. */
  lemma TargetScaleDirection(scale: real, wheelStep: real, delta: real)
    ensures TargetScale(scale, wheelStep, delta) == scale * (1.0 + wheelStep * delta / 100.0)
    ensures scale > 0.0 && wheelStep * delta > 0.0 ==> TargetScale(scale, wheelStep, delta) > scale
    ensures scale > 0.0 && wheelStep * delta < 0.0 ==> TargetScale(scale, wheelStep, delta) < scale
    ensures wheelStep * delta == 0.0 ==> TargetScale(scale, wheelStep, delta) == scale
  {
    var k := wheelStep * delta;
    assert TargetScale(scale, wheelStep, delta) == scale + k * scale / 100.0;
  }

  /** One wheel tick of step 1 at scale 1 zooms in to 1.01. */
  lemma TargetScaleOnePercent()
    ensures TargetScale(1.0, 1.0, 1.0) == 1.01
  {
  }

  /** Whether the new position is clamped into the bounds: never without
      `limitToBounds`, and not while a non-zero zoom padding is in effect. */
  function IsLimitedToBounds(s: TransformState): (limited: bool)
    ensures limited ==> s.limitToBounds
    ensures s.enablePadding && s.zoomPadding != 0.0 && !s.limitToWrapperOnWheel ==> !limited
    ensures s.limitToBounds && !(s.enablePadding && s.zoomPadding != 0.0 && !s.limitToWrapperOnWheel) ==> limited
  {
    s.limitToBounds && (!s.enablePadding || s.zoomPadding == 0.0 || s.limitToWrapperOnWheel)
  }

  /** The scale a wheel event asks for, after rounding and clamping. */
  function WheelNewScale(s: TransformState, event: WheelEvent, h: Helpers): real
  {
    var targetScale := TargetScale(s.scale, s.wheelStep, GetDelta(h, event));
    CheckZoomBounds(h, RoundNumber(h, targetScale, 2), s.minScale, s.maxScale, s.zoomPadding, s.enablePadding)
  }

  /** The position `handleCalculatePositions` gives for the pointer, the new scale and
      the bounds at that scale. */
  function WheelPosition(s: TransformState, event: WheelEvent, wrapper: Element, content: Element,
                         newScale: real, h: Helpers): Point
  {
    var bounds := HandleCalculateBounds(newScale, s.limitToWrapperOnWheel, wrapper, h);
    var mouse := WheelMousePosition(h, event, content, s.scale);
    HandleCalculatePositions(h, s, mouse.x, mouse.y, newScale, bounds, IsLimitedToBounds(s))
  }

  /** The guards of `handleWheelZoom` before any arithmetic. */
  predicate WheelAccepted(s: TransformState, wrapper: Option<Element>, content: Option<Element>)
  {
    !s.isDown && s.zoomingEnabled && !s.disabled && wrapper.Some? && content.Some?
  }

  /** `handleWheelZoom`: a wheel event that passes the guards and changes the scale
      records the old scale, takes the new one and the position the helper computes
      for it; `bounds` is computed but not stored. */
  function WheelZoomed(s: TransformState, event: WheelEvent, wrapper: Option<Element>, content: Option<Element>,
                       h: Helpers): (r: TransformState)
    ensures !WheelAccepted(s, wrapper, content) ==> r == s
    ensures WheelAccepted(s, wrapper, content) && WheelNewScale(s, event, h) == s.scale ==> r == s
    ensures r == s.(previousScale := r.previousScale, scale := r.scale, positionX := r.positionX, positionY := r.positionY)
  {
    if s.isDown || !s.zoomingEnabled || s.disabled then s
    else if wrapper.None? || content.None? then s
    else
      var newScale := WheelNewScale(s, event, h);
      if s.scale == newScale then s
      else
        var p := WheelPosition(s, event, wrapper.value, content.value, newScale, h);
        s.(previousScale := s.scale, scale := newScale, positionX := p.x, positionY := p.y)
  }

  /** A wheel event that passes the guards and changes the scale records the old
      scale as `previousScale`, takes the clamped new scale, and moves to the position
      the helper computes for the pointer and the bounds at the new scale. */
  lemma WheelZoomCommits(s: TransformState, event: WheelEvent, wrapper: Option<Element>,
                         content: Option<Element>, h: Helpers)
    requires WheelAccepted(s, wrapper, content) && WheelNewScale(s, event, h) != s.scale
    ensures var r := WheelZoomed(s, event, wrapper, content, h);
            r.previousScale == s.scale && r.scale == WheelNewScale(s, event, h) &&
            Point(r.positionX, r.positionY) == WheelPosition(s, event, wrapper.value, content.value, r.scale, h)
  {
  }

  method HandleWheelZoom(state: ReactiveState, event: WheelEvent, wrapper: Option<Element>,
                         content: Option<Element>, h: Helpers)
    modifies state
    ensures state.Value() == WheelZoomed(old(state.Value()), event, wrapper, content, h)
  {
    var s := state.Value();
    if s.isDown || !s.zoomingEnabled || s.disabled {
      return;
    }
    if wrapper.None? || content.None? {
      return;
    }
    var delta := GetDelta(h, event);
    var targetScale := TargetScale(s.scale, s.wheelStep, delta);
    var newScale := CheckZoomBounds(h, RoundNumber(h, targetScale, 2), s.minScale, s.maxScale,
                                    s.zoomPadding, s.enablePadding);
    assert newScale == WheelNewScale(s, event, h);
    if s.scale == newScale {
      return;
    }
    var bounds := HandleCalculateBounds(newScale, s.limitToWrapperOnWheel, wrapper.value, h);
    var mouse := WheelMousePosition(h, event, content.value, s.scale);
    var isLimitedToBounds := IsLimitedToBounds(s);
    var p := HandleCalculatePositions(h, s, mouse.x, mouse.y, newScale, bounds, isLimitedToBounds);
    state.SetScale(s.scale, newScale);
    state.SetPosition(p.x, p.y);
  }

  /** `handleWheel`: only delegates to `handleWheelZoom`; no timer, no stop flag. */
  method HandleWheel(state: ReactiveState, event: WheelEvent, wrapper: Option<Element>,
                     content: Option<Element>, h: Helpers)
    modifies state
    ensures state.Value() == WheelZoomed(old(state.Value()), event, wrapper, content, h)
  {
    HandleWheelZoom(state, event, wrapper, content, h);
  }
}
