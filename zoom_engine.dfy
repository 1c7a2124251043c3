/** The single-file transform engine of src/hooks/useZoom.ts: a reactive record of
    scale and translation, the bounds clamp, anchor-preserving zoom on wheel or click,
    and the pan state machine (start, move, stop). */
module ZoomEngine {
  import opened Wrappers

  /** A JavaScript argument of unknown type: a number, or any other value
      (`undefined`, `false`, an object). */
  datatype Unknown = Num(n: real) | NotNum

  datatype Point = Point(x: real, y: real)

  /** The admissible translation rectangle. */
  datatype Area = Area(minPositionX: real, maxPositionX: real, minPositionY: real, maxPositionY: real)

  /** What a mouse or wheel event carries: the wheel delta and the pointer's offset
      (relative to the target) and page coordinates. */
  datatype MouseInput = MouseInput(deltaY: real, offsetX: real, offsetY: real, pageX: real, pageY: real)

  /** The rendered sizes of the wrapper (`offsetWidth`) and of the content
      (`getBoundingClientRect`), read when both elements are mounted. */
  datatype Layout = Layout(wrapperWidth: real, wrapperHeight: real, contentWidth: real, contentHeight: real)

  /** The record `relativeCoords` returns. */
  datatype Coords = Coords(x: real, y: real, wrapperWidth: real, wrapperHeight: real,
                           contentWidth: real, contentHeight: real, diffHeight: real, diffWidth: real)

  /** The optional centre argument of `handleZoom`: absent (or `false`), or an object
      whose coordinates may or may not be numbers. */
  datatype Center = NoCenter | CenterAt(cx: Unknown, cy: Unknown)

  /** The whole reactive state of the engine. */
  datatype ViewState = ViewState(
    positionX: real, positionY: real,
    scale: real, maxScale: real, minScale: real,
    limitToBounds: bool,
    sensitivity: real, zoomInSensitivity: real, zoomOutSensitivity: real, dbClickSensitivity: real,
    zoomingEnabled: bool, disabled: bool, enableZoomedOutPanning: bool,
    isDown: bool, panningEnabled: bool,
    startCoords: Point)

  /** The defaults the state starts from. */
  const InitialState: ViewState := ViewState(
    0.0, 0.0,
    1.0, 4.0, 0.8,
    true,
    0.4, 5.0, 5.0, 7.0,
    true, false, false,
    false, true,
    Point(0.0, 0.0))

  /** `checkIsNumber`: the argument when it is a number, the fallback otherwise. */
  function CheckIsNumber(x: Unknown, fallback: real): (r: real)
    ensures x.Num? ==> r == x.n
    ensures x.NotNum? ==> r == fallback
  {
    match x
    case Num(n) => n
    case NotNum => fallback
  }

  /** `boundLimiter`: keeps a value between two bounds when active. */
  function BoundLimiter(value: real, minBound: real, maxBound: real, isActive: bool): (r: real)
    ensures !isActive ==> r == value
    ensures isActive && minBound <= maxBound ==> minBound <= r <= maxBound
    ensures isActive && minBound <= value <= maxBound ==> r == value
    ensures isActive && value < minBound ==> r == minBound
    ensures isActive && value > maxBound && minBound <= maxBound ==> r == maxBound
  {
    if !isActive then value
    else if value < minBound then minBound
    else if value > maxBound then maxBound
    else value
  }

  /** Clamping a clamped value changes nothing, when the bounds are ordered. */
  lemma BoundLimiterIdempotent(value: real, minBound: real, maxBound: real, isActive: bool)
    requires minBound <= maxBound
    ensures var once := BoundLimiter(value, minBound, maxBound, isActive);
            BoundLimiter(once, minBound, maxBound, isActive) == once
  {
  }

  /** `calculateBoundingArea`: the translation rectangle of content inside the wrapper.
      Content narrower than the wrapper is either centred (a single admissible position)
      or, with zoomed-out panning, free to move within the slack. */
  function CalculateBoundingArea(wrapperWidth: real, contentWidth: real, diffWidth: real,
                                 wrapperHeight: real, contentHeight: real, diffHeight: real,
                                 enableZoomedOutPanning: bool): Area
  {
    var scaleWidthFactor :=
      if wrapperWidth > contentWidth then diffWidth * (if enableZoomedOutPanning then 1.0 else 0.5) else 0.0;
    var scaleHeightFactor :=
      if wrapperHeight > contentHeight then diffHeight * (if enableZoomedOutPanning then 1.0 else 0.5) else 0.0;
    Area(wrapperWidth - contentWidth - scaleWidthFactor, 0.0 + scaleWidthFactor,
         wrapperHeight - contentHeight - scaleHeightFactor, 0.0 + scaleHeightFactor)
  }

  /** Content narrower than the wrapper is centred, or spans the slack with zoomed-out
      panning; wider content may move from `wrapper - content` up to 0. */
  lemma BoundingAreaShape(wrapperWidth: real, contentWidth: real, diffWidth: real,
                          wrapperHeight: real, contentHeight: real, diffHeight: real,
                          enableZoomedOutPanning: bool)
    ensures var a := CalculateBoundingArea(wrapperWidth, contentWidth, diffWidth,
                                           wrapperHeight, contentHeight, diffHeight, enableZoomedOutPanning);
            (diffWidth == wrapperWidth - contentWidth && wrapperWidth > contentWidth ==>
                if enableZoomedOutPanning then a.minPositionX == 0.0 && a.maxPositionX == diffWidth
                else a.minPositionX == a.maxPositionX == diffWidth / 2.0) &&
            (diffHeight == wrapperHeight - contentHeight && wrapperHeight > contentHeight ==>
                if enableZoomedOutPanning then a.minPositionY == 0.0 && a.maxPositionY == diffHeight
                else a.minPositionY == a.maxPositionY == diffHeight / 2.0) &&
            (wrapperWidth <= contentWidth ==>
                a.minPositionX == wrapperWidth - contentWidth && a.maxPositionX == 0.0) &&
            (wrapperHeight <= contentHeight ==>
                a.minPositionY == wrapperHeight - contentHeight && a.maxPositionY == 0.0)
  {
  }

  /** When the differences are the wrapper minus the content, the area is a rectangle. */
  lemma BoundingAreaOrdered(wrapperWidth: real, contentWidth: real, wrapperHeight: real, contentHeight: real,
                            enableZoomedOutPanning: bool)
    ensures var a := CalculateBoundingArea(wrapperWidth, contentWidth, wrapperWidth - contentWidth,
                                           wrapperHeight, contentHeight, wrapperHeight - contentHeight,
                                           enableZoomedOutPanning);
            a.minPositionX <= a.maxPositionX && a.minPositionY <= a.maxPositionY
  {
  }

  predicate InArea(x: real, y: real, a: Area)
  {
    a.minPositionX <= x <= a.maxPositionX && a.minPositionY <= y <= a.maxPositionY
  }

  /** `relativeCoords`: the pointer position (over the wrapper for zoom, over the page
      for panning) together with the sizes and their differences. */
  function RelativeCoords(ev: MouseInput, layout: Layout, panningCase: bool): (c: Coords)
    ensures c.x == (if panningCase then ev.pageX else ev.offsetX)
    ensures c.y == (if panningCase then ev.pageY else ev.offsetY)
    ensures c.wrapperWidth == layout.wrapperWidth && c.contentWidth == layout.contentWidth
    ensures c.wrapperHeight == layout.wrapperHeight && c.contentHeight == layout.contentHeight
    ensures c.diffWidth == c.wrapperWidth - c.contentWidth
    ensures c.diffHeight == c.wrapperHeight - c.contentHeight
  {
    var x := if panningCase then ev.pageX else ev.offsetX;
    var y := if panningCase then ev.pageY else ev.offsetY;
    Coords(x, y, layout.wrapperWidth, layout.wrapperHeight, layout.contentWidth, layout.contentHeight,
           layout.wrapperHeight - layout.contentHeight, layout.wrapperWidth - layout.contentWidth)
  }

  /** The wheel direction: a negative delta zooms in. */
  function WheelDirection(deltaY: real): (d: real)
    ensures d == 1.0 || d == -1.0
    ensures d == 1.0 <==> deltaY < 0.0
  {
    if deltaY < 0.0 then 1.0 else -1.0
  }

  /** The zoom anchor: the pointer, or the given centre whose missing coordinates
      fall back to the middle of the wrapper. */
  function MousePosition(center: Center, c: Coords): (m: Point)
    ensures center.NoCenter? ==> m == Point(c.x, c.y)
    ensures center.CenterAt? && center.cx.NotNum? ==> m.x == c.wrapperWidth / 2.0
    ensures center.CenterAt? && center.cy.NotNum? ==> m.y == c.wrapperHeight / 2.0
    ensures center.CenterAt? && center.cx.Num? ==> m.x == center.cx.n
    ensures center.CenterAt? && center.cy.Num? ==> m.y == center.cy.n
  {
    match center
    case NoCenter => Point(c.x, c.y)
    case CenterAt(cx, cy) => Point(CheckIsNumber(cx, c.wrapperWidth / 2.0), CheckIsNumber(cy, c.wrapperHeight / 2.0))
  }

  /** `(customSensitivity || sensitivity) * 0.1`: a missing or zero custom sensitivity
      falls back to the state's. */
  function ZoomSensitivity(custom: Unknown, sensitivity: real): (z: real)
    ensures custom.Num? && custom.n != 0.0 ==> z * 10.0 == custom.n
    ensures custom.NotNum? || custom.n == 0.0 ==> z * 10.0 == sensitivity
  {
    var chosen := match custom
      case Num(n) => if n != 0.0 then n else sensitivity
      case NotNum => sensitivity;
    chosen * 0.1
  }

  /** The unrounded new scale: the scale grown by `delta * sensitivity` of itself.
      The arithmetic is in the order of the source. */
  function TargetScale(scale: real, delta: real, zoomSensitivity: real): real
  {
    scale + delta * zoomSensitivity * scale
  }

  /** For a positive scale and sensitivity, a zoom-in step (delta 1) raises the
      unrounded scale and a zoom-out step (delta -1) lowers it; a sensitivity below 1
      keeps the zoomed-out scale positive. */
  lemma TargetScaleDirection(scale: real, zoomSensitivity: real)
    requires scale > 0.0 && zoomSensitivity > 0.0
    ensures TargetScale(scale, 1.0, zoomSensitivity) > scale
    ensures TargetScale(scale, -1.0, zoomSensitivity) < scale
    ensures zoomSensitivity < 1.0 ==> TargetScale(scale, -1.0, zoomSensitivity) > 0.0
  {
    var grow := zoomSensitivity * scale;
    assert grow > 0.0;
    assert TargetScale(scale, 1.0, zoomSensitivity) == scale + grow;
    assert TargetScale(scale, -1.0, zoomSensitivity) == scale - grow;
    if zoomSensitivity < 1.0 {
      var slack := 1.0 - zoomSensitivity;
      assert slack > 0.0;
      assert scale - grow == slack * scale;
      assert slack * scale > 0.0;
    }
  }

  /** The position after a zoom from `scale` to `newScale` about `mouse`, as the
      source computes it: the pointer's offset in content units, scaled back. */
  function AnchoredPosition(mouse: real, position: real, scale: real, newScale: real): real
    requires scale != 0.0
  {
    var target := (mouse - position) / scale;
    -target * newScale + mouse
  }

  /** Moving from `position` at `scale` to `newPosition` at `newScale` keeps the
      content point under `mouse` where it is: its offset from the position grows
      with the scale. */
  predicate KeepsPointFixed(mouse: real, position: real, scale: real, newPosition: real, newScale: real)
  {
    (mouse - newPosition) * scale == (mouse - position) * newScale
  }

  /** The anchored position keeps the content point under `mouse` fixed. */
  lemma AnchoredPositionFixesPointer(mouse: real, position: real, scale: real, newScale: real)
    requires scale != 0.0
    ensures KeepsPointFixed(mouse, position, scale, AnchoredPosition(mouse, position, scale, newScale), newScale)
  {
    var target := (mouse - position) / scale;
    assert target * scale == mouse - position;
    calc {
      (mouse - (-target * newScale + mouse)) * scale;
      target * newScale * scale;
      (target * scale) * newScale;
    }
  }

  /** The scale `handleZoom` proposes, before snapping: the rounded result of growing
      the scale by `delta * sensitivity` of itself. */
  function ZoomCandidate(s: ViewState, ev: MouseInput, customDelta: Unknown, customSensitivity: Unknown,
                         round: real -> real): real
  {
    var delta := CheckIsNumber(customDelta, WheelDirection(ev.deltaY));
    round(TargetScale(s.scale, delta, ZoomSensitivity(customSensitivity, s.sensitivity)))
  }

  /** The snapping and rejection steps of `handleZoom`: a candidate that crosses a
      limit snaps to it, one beyond a limit the scale already sits at is rejected. */
  function SnapScale(candidate: real, scale: real, minScale: real, maxScale: real): (r: Option<real>)
    ensures r.Some? ==> minScale <= r.value <= maxScale
    ensures minScale <= maxScale ==>
              r == if candidate > maxScale then (if scale < maxScale then Some(maxScale) else None)
                   else if candidate < minScale then (if scale > minScale then Some(minScale) else None)
                   else Some(candidate)
  {
    var n1 := if candidate >= maxScale && scale < maxScale then maxScale else candidate;
    var n2 := if n1 <= minScale && scale > minScale then minScale else n1;
    if n2 > maxScale || n2 < minScale then None else Some(n2)
  }

  /** The scale `handleZoom` commits, or None when it returns without writing. */
  function NewScale(s: ViewState, ev: MouseInput, customDelta: Unknown, customSensitivity: Unknown,
                    layout: Option<Layout>, round: real -> real): (r: Option<real>)
    ensures s.isDown || !s.zoomingEnabled || s.disabled || layout.None? ==> r.None?
    ensures r.Some? ==> s.minScale <= r.value <= s.maxScale
  {
    if s.isDown || !s.zoomingEnabled || s.disabled || layout.None? then None
    else SnapScale(ZoomCandidate(s, ev, customDelta, customSensitivity, round), s.scale, s.minScale, s.maxScale)
  }

  /** The bounds for content of the given size inside the wrapper measured in `c`. */
  function ContentArea(c: Coords, contentWidth: real, contentHeight: real, enableZoomedOutPanning: bool): Area
  {
    CalculateBoundingArea(c.wrapperWidth, contentWidth, c.wrapperWidth - contentWidth,
                          c.wrapperHeight, contentHeight, c.wrapperHeight - contentHeight, enableZoomedOutPanning)
  }

  /** The bounds at a new scale, taking the content to be the wrapper scaled. */
  function ZoomArea(c: Coords, newScale: real, enableZoomedOutPanning: bool): Area
  {
    ContentArea(c, c.wrapperWidth * newScale, c.wrapperHeight * newScale, enableZoomedOutPanning)
  }

  /** Clamping both coordinates into a rectangle lands inside it. */
  lemma ClampedIntoArea(a: Area, x: real, y: real)
    requires a.minPositionX <= a.maxPositionX && a.minPositionY <= a.maxPositionY
    ensures InArea(BoundLimiter(x, a.minPositionX, a.maxPositionX, true),
                   BoundLimiter(y, a.minPositionY, a.maxPositionY, true), a)
  {
  }

  /** Clamping both coordinates into the bounds at a scale lands inside them. */
  lemma ClampedIntoZoomArea(c: Coords, newScale: real, enableZoomedOutPanning: bool, x: real, y: real)
    ensures var a := ZoomArea(c, newScale, enableZoomedOutPanning);
            InArea(BoundLimiter(x, a.minPositionX, a.maxPositionX, true),
                   BoundLimiter(y, a.minPositionY, a.maxPositionY, true), a)
  {
    var a := ZoomArea(c, newScale, enableZoomedOutPanning);
    BoundingAreaOrdered(c.wrapperWidth, c.wrapperWidth * newScale, c.wrapperHeight, c.wrapperHeight * newScale,
                        enableZoomedOutPanning);
    ClampedIntoArea(a, x, y);
  }

  /** `handleZoom`: zoom about the pointer (or a centre), snapping to the scale limits,
      and clamp the new position into the bounds of the new scale when limited. */
  function Zoom(s: ViewState, ev: MouseInput, center: Center, customDelta: Unknown, customSensitivity: Unknown,
                layout: Option<Layout>, round: real -> real): (r: ViewState)
    requires s.scale != 0.0
    ensures s.isDown || !s.zoomingEnabled || s.disabled || layout.None? ==> r == s
    ensures NewScale(s, ev, customDelta, customSensitivity, layout, round).None? ==> r == s
    ensures NewScale(s, ev, customDelta, customSensitivity, layout, round).Some? ==>
              r == s.(scale := r.scale, positionX := r.positionX, positionY := r.positionY) &&
              Some(r.scale) == NewScale(s, ev, customDelta, customSensitivity, layout, round)
    ensures s.minScale <= s.scale <= s.maxScale ==> s.minScale <= r.scale <= s.maxScale
    ensures r.scale != s.scale ==> s.minScale <= r.scale <= s.maxScale
  {
    match NewScale(s, ev, customDelta, customSensitivity, layout, round)
    case None => s
    case Some(newScale) =>
      var c := RelativeCoords(ev, layout.value, false);
      var m := MousePosition(center, c);
      var area := ZoomArea(c, newScale, s.enableZoomedOutPanning);
      var newPositionX := AnchoredPosition(m.x, s.positionX, s.scale, newScale);
      var newPositionY := AnchoredPosition(m.y, s.positionY, s.scale, newScale);
      s.(scale := newScale,
         positionX := BoundLimiter(newPositionX, area.minPositionX, area.maxPositionX, s.limitToBounds),
         positionY := BoundLimiter(newPositionY, area.minPositionY, area.maxPositionY, s.limitToBounds))
  }

  /** The state a committed zoom produces, step by step as `handleZoom` computes it. */
  lemma ZoomCommits(s: ViewState, ev: MouseInput, center: Center, customDelta: Unknown,
                    customSensitivity: Unknown, layout: Option<Layout>, round: real -> real, newScale: real)
    requires s.scale != 0.0
    requires NewScale(s, ev, customDelta, customSensitivity, layout, round) == Some(newScale)
    ensures var c := RelativeCoords(ev, layout.value, false);
            var m := MousePosition(center, c);
            var area := ZoomArea(c, newScale, s.enableZoomedOutPanning);
            Zoom(s, ev, center, customDelta, customSensitivity, layout, round) ==
              s.(scale := newScale,
                 positionX := BoundLimiter(AnchoredPosition(m.x, s.positionX, s.scale, newScale),
                                           area.minPositionX, area.maxPositionX, s.limitToBounds),
                 positionY := BoundLimiter(AnchoredPosition(m.y, s.positionY, s.scale, newScale),
                                           area.minPositionY, area.maxPositionY, s.limitToBounds))
  {
  }

  /** Without bounds, a committed zoom writes the anchored positions unclamped. */
  lemma ZoomUnlimitedPosition(s: ViewState, ev: MouseInput, center: Center, customDelta: Unknown,
                              customSensitivity: Unknown, layout: Option<Layout>, round: real -> real)
    requires s.scale != 0.0
    requires NewScale(s, ev, customDelta, customSensitivity, layout, round).Some? && !s.limitToBounds
    ensures var r := Zoom(s, ev, center, customDelta, customSensitivity, layout, round);
            var m := MousePosition(center, RelativeCoords(ev, layout.value, false));
            r.positionX == AnchoredPosition(m.x, s.positionX, s.scale, r.scale) &&
            r.positionY == AnchoredPosition(m.y, s.positionY, s.scale, r.scale)
  {
  }

  /** Without bounds, a committed zoom keeps the content point under the pointer (or
      the centre) fixed: its offset from the position scales with the scale. */
  lemma ZoomAnchorsPointer(s: ViewState, ev: MouseInput, center: Center, customDelta: Unknown,
                           customSensitivity: Unknown, layout: Option<Layout>, round: real -> real)
    requires s.scale != 0.0
    requires NewScale(s, ev, customDelta, customSensitivity, layout, round).Some? && !s.limitToBounds
    ensures var r := Zoom(s, ev, center, customDelta, customSensitivity, layout, round);
            var m := MousePosition(center, RelativeCoords(ev, layout.value, false));
            KeepsPointFixed(m.x, s.positionX, s.scale, r.positionX, r.scale) &&
            KeepsPointFixed(m.y, s.positionY, s.scale, r.positionY, r.scale)
  {
    var r := Zoom(s, ev, center, customDelta, customSensitivity, layout, round);
    var m := MousePosition(center, RelativeCoords(ev, layout.value, false));
    ZoomUnlimitedPosition(s, ev, center, customDelta, customSensitivity, layout, round);
    AnchoredPositionFixesPointer(m.x, s.positionX, s.scale, r.scale);
    AnchoredPositionFixesPointer(m.y, s.positionY, s.scale, r.scale);
  }

  /** With bounds, a committed zoom leaves the position inside the bounds computed
      for the new scale. */
  lemma ZoomStaysInArea(s: ViewState, ev: MouseInput, center: Center, customDelta: Unknown,
                        customSensitivity: Unknown, layout: Option<Layout>, round: real -> real)
    requires s.scale != 0.0
    requires NewScale(s, ev, customDelta, customSensitivity, layout, round).Some? && s.limitToBounds
    ensures var r := Zoom(s, ev, center, customDelta, customSensitivity, layout, round);
            InArea(r.positionX, r.positionY,
                   ZoomArea(RelativeCoords(ev, layout.value, false), r.scale, s.enableZoomedOutPanning))
  {
    var newScale := NewScale(s, ev, customDelta, customSensitivity, layout, round).value;
    var c := RelativeCoords(ev, layout.value, false);
    var m := MousePosition(center, c);
    ZoomCommits(s, ev, center, customDelta, customSensitivity, layout, round, newScale);
    ClampedIntoZoomArea(c, newScale, s.enableZoomedOutPanning,
                        AnchoredPosition(m.x, s.positionX, s.scale, newScale),
                        AnchoredPosition(m.y, s.positionY, s.scale, newScale));
  }

  /** `zoomIn`: zoom in by one step of the zoom-in sensitivity about the pointer. */
  function ZoomInStep(s: ViewState, ev: MouseInput, layout: Option<Layout>, round: real -> real): (r: ViewState)
    requires s.scale != 0.0
    ensures !s.zoomingEnabled || s.disabled ==> r == s
    ensures s.zoomingEnabled && !s.disabled ==>
              r == Zoom(s, ev, NoCenter, Num(1.0), Num(s.zoomInSensitivity), layout, round)
  {
    if !s.zoomingEnabled || s.disabled then s
    else Zoom(s, ev, NoCenter, Num(1.0), Num(s.zoomInSensitivity), layout, round)
  }

  /** `zoomOut`: zoom out by one step of the zoom-out sensitivity about the pointer. */
  function ZoomOutStep(s: ViewState, ev: MouseInput, layout: Option<Layout>, round: real -> real): (r: ViewState)
    requires s.scale != 0.0
    ensures !s.zoomingEnabled || s.disabled ==> r == s
    ensures s.zoomingEnabled && !s.disabled ==>
              r == Zoom(s, ev, NoCenter, Num(-1.0), Num(s.zoomOutSensitivity), layout, round)
  {
    if !s.zoomingEnabled || s.disabled then s
    else Zoom(s, ev, NoCenter, Num(-1.0), Num(s.zoomOutSensitivity), layout, round)
  }

  /** `handleDbClick`: zoom in by the double-click sensitivity about the pointer; the
      `false` centre argument behaves as an absent one. */
  function DbClickStep(s: ViewState, ev: MouseInput, layout: Option<Layout>, round: real -> real): (r: ViewState)
    requires s.scale != 0.0
    ensures !s.zoomingEnabled || s.disabled ==> r == s
    ensures s.zoomingEnabled && !s.disabled ==>
              r == Zoom(s, ev, NoCenter, Num(1.0), Num(s.dbClickSensitivity), layout, round)
  {
    if !s.zoomingEnabled || s.disabled then s
    else Zoom(s, ev, NoCenter, Num(1.0), Num(s.dbClickSensitivity), layout, round)
  }

  /** `resetTransform`: each argument that is a number is taken, any other falls back
      to the initial value; nothing but scale and position is written. */
  function Reset(s: ViewState, defaultScale: Unknown, defaultPositionX: Unknown, defaultPositionY: Unknown): (r: ViewState)
    ensures r == s.(scale := r.scale, positionX := r.positionX, positionY := r.positionY)
    ensures r.scale == (if defaultScale.Num? then defaultScale.n else 1.0)
    ensures r.positionX == (if defaultPositionX.Num? then defaultPositionX.n else 0.0)
    ensures r.positionY == (if defaultPositionY.Num? then defaultPositionY.n else 0.0)
  {
    s.(scale := CheckIsNumber(defaultScale, InitialState.scale),
       positionX := CheckIsNumber(defaultPositionX, InitialState.positionX),
       positionY := CheckIsNumber(defaultPositionY, InitialState.positionY))
  }

  /** The guards under which a pan may start. */
  predicate PanStartAccepted(s: ViewState, layout: Option<Layout>, targetInside: bool)
  {
    layout.Some? && !s.isDown && s.panningEnabled && !s.disabled && targetInside
  }

  /** `handleStartPanning`: remember the pointer's page offset from the content origin
      and enter the panning state. */
  function StartPanning(s: ViewState, ev: MouseInput, layout: Option<Layout>, targetInside: bool): (r: ViewState)
    ensures !PanStartAccepted(s, layout, targetInside) ==> r == s
    ensures PanStartAccepted(s, layout, targetInside) ==>
              r == s.(isDown := true, startCoords := r.startCoords) &&
              r.startCoords.x + s.positionX == ev.pageX && r.startCoords.y + s.positionY == ev.pageY
  {
    if layout.None? then s
    else if s.isDown || !s.panningEnabled || s.disabled || !targetInside then s
    else
      var c := RelativeCoords(ev, layout.value, true);
      s.(startCoords := Point(c.x - s.positionX, c.y - s.positionY), isDown := true)
  }

  /** The bounds during a pan, from the content's current rendered size. */
  function PanArea(c: Coords, enableZoomedOutPanning: bool): Area
  {
    CalculateBoundingArea(c.wrapperWidth, c.contentWidth, c.diffWidth, c.wrapperHeight, c.contentHeight,
                          c.diffHeight, enableZoomedOutPanning)
  }

  /** `handlePanning`: while the pointer is down the content follows it, keeping the
      offset taken at the start, clamped into the bounds when limited. */
  function Pan(s: ViewState, ev: MouseInput, layout: Option<Layout>): (r: ViewState)
    ensures !s.isDown || !s.panningEnabled || s.disabled || layout.None? ==> r == s
    ensures r == s.(positionX := r.positionX, positionY := r.positionY)
    ensures s.isDown && s.panningEnabled && !s.disabled && layout.Some? && s.limitToBounds ==>
              var area := PanArea(RelativeCoords(ev, layout.value, true), s.enableZoomedOutPanning);
              InArea(r.positionX, r.positionY, area) &&
              r.positionX == BoundLimiter(ev.pageX - s.startCoords.x, area.minPositionX, area.maxPositionX, true) &&
              r.positionY == BoundLimiter(ev.pageY - s.startCoords.y, area.minPositionY, area.maxPositionY, true)
    ensures s.isDown && s.panningEnabled && !s.disabled && layout.Some? && !s.limitToBounds ==>
              r.positionX + s.startCoords.x == ev.pageX && r.positionY + s.startCoords.y == ev.pageY
  {
    if !s.isDown || !s.panningEnabled || s.disabled then s
    else if layout.None? then s
    else
      var c := RelativeCoords(ev, layout.value, true);
      var newPositionX := c.x - s.startCoords.x;
      var newPositionY := c.y - s.startCoords.y;
      var area := PanArea(c, s.enableZoomedOutPanning);
      s.(positionX := BoundLimiter(newPositionX, area.minPositionX, area.maxPositionX, s.limitToBounds),
         positionY := BoundLimiter(newPositionY, area.minPositionY, area.maxPositionY, s.limitToBounds))
  }

  /** `handleStopPanning`: leave the panning state, unless panning is switched off. */
  function StopPanning(s: ViewState): (r: ViewState)
    ensures !s.panningEnabled || s.disabled ==> r == s
    ensures s.panningEnabled && !s.disabled ==> r == s.(isDown := false) && !r.isDown
  {
    if !s.panningEnabled || s.disabled then s else s.(isDown := false)
  }

  /** A pan started at a page point and moved back to the same point leaves the
      position where it was (without limits, or when the position is inside the bounds). */
  lemma PanReturnsToStart(s: ViewState, start: MouseInput, startLayout: Option<Layout>, targetInside: bool,
                          move: MouseInput, moveLayout: Option<Layout>)
    requires PanStartAccepted(s, startLayout, targetInside)
    requires moveLayout.Some? && move.pageX == start.pageX && move.pageY == start.pageY
    requires s.limitToBounds ==>
               InArea(s.positionX, s.positionY, PanArea(RelativeCoords(move, moveLayout.value, true), s.enableZoomedOutPanning))
    ensures var t := StartPanning(s, start, startLayout, targetInside);
            Pan(t, move, moveLayout) == t
  {
  }

  /** Stopping twice is stopping once. */
  lemma StopPanningIdempotent(s: ViewState)
    ensures StopPanning(StopPanning(s)) == StopPanning(s)
  {
  }

  /** `resetTransform` checks neither the scale limits nor `disabled`: a reset to scale
      10 leaves the initial limits [0.8, 4], a reset to 0 is accepted, and a disabled
      state is changed. */
  lemma ResetIgnoresLimitsAndDisabled()
    ensures Reset(InitialState, Num(10.0), NotNum, NotNum).scale > InitialState.maxScale
    ensures Reset(InitialState, Num(0.0), NotNum, NotNum).scale == 0.0
    ensures Reset(InitialState.(disabled := true), Num(2.0), NotNum, NotNum) != InitialState.(disabled := true)
  {
  }

  /** The inputs the engine reacts to, with the DOM measurements taken at that moment. */
  datatype Input =
    | Wheel(ev: MouseInput, layout: Option<Layout>)
    | ZoomInClick(ev: MouseInput, layout: Option<Layout>)
    | ZoomOutClick(ev: MouseInput, layout: Option<Layout>)
    | DoubleClick(ev: MouseInput, layout: Option<Layout>)
    | PanStart(ev: MouseInput, layout: Option<Layout>, targetInside: bool)
    | PanMove(ev: MouseInput, layout: Option<Layout>)
    | PanStop
    | ResetClick(defaultScale: Unknown, defaultPositionX: Unknown, defaultPositionY: Unknown)

  /** A reset whose scale (its numeric argument, or the initial scale 1) lies within
      the given limits; every other input is admissible. */
  predicate AdmissibleReset(input: Input, minScale: real, maxScale: real)
  {
    input.ResetClick? ==> minScale <= CheckIsNumber(input.defaultScale, InitialState.scale) <= maxScale
  }

  /** The scale lies within its limits. */
  predicate ScaleInLimits(s: ViewState)
  {
    s.minScale <= s.scale <= s.maxScale
  }

  /** The scale limits and the `disabled` flag, which no handler writes. */
  predicate SameLimits(s: ViewState, r: ViewState)
  {
    r.minScale == s.minScale && r.maxScale == s.maxScale && r.disabled == s.disabled
  }

  /** One input dispatched to the handler the hook returns for it (`onWheel`, `zoomIn`,
      `zoomOut`, `onDblclick`, `resetTransform` and the three pan handlers). */
  function Step(s: ViewState, input: Input, round: real -> real): (r: ViewState)
    requires s.scale != 0.0
    ensures SameLimits(s, r)
    ensures ScaleInLimits(s) && AdmissibleReset(input, s.minScale, s.maxScale) ==> ScaleInLimits(r)
    ensures s.disabled && !input.ResetClick? ==> r == s
  {
    match input
    case Wheel(ev, layout) => Zoom(s, ev, NoCenter, NotNum, NotNum, layout, round)
    case ZoomInClick(ev, layout) => ZoomInStep(s, ev, layout, round)
    case ZoomOutClick(ev, layout) => ZoomOutStep(s, ev, layout, round)
    case DoubleClick(ev, layout) => DbClickStep(s, ev, layout, round)
    case PanStart(ev, layout, inside) => StartPanning(s, ev, layout, inside)
    case PanMove(ev, layout) => Pan(s, ev, layout)
    case PanStop => StopPanning(s)
    case ResetClick(defaultScale, x, y) => Reset(s, defaultScale, x, y)
  }

  /** A sequence of inputs handled in order: the scale never leaves its limits, as long
      as every reset asks for a scale within them. */
  function Run(s: ViewState, inputs: seq<Input>, round: real -> real): (r: ViewState)
    requires 0.0 < s.minScale <= s.scale <= s.maxScale
    requires forall i :: 0 <= i < |inputs| ==> AdmissibleReset(inputs[i], s.minScale, s.maxScale)
    ensures 0.0 < r.minScale <= r.scale <= r.maxScale
    ensures r.minScale == s.minScale && r.maxScale == s.maxScale && r.disabled == s.disabled
    decreases |inputs|
  {
    if inputs == [] then s
    else
      assert forall i :: 0 <= i < |inputs[1..]| ==> inputs[1..][i] == inputs[i + 1];
      Run(Step(s, inputs[0], round), inputs[1..], round)
  }

  /** A disabled engine ignores every input other than a reset. */
  lemma {:induction false} DisabledIgnoresInputs(s: ViewState, inputs: seq<Input>, round: real -> real)
    requires 0.0 < s.minScale <= s.scale <= s.maxScale
    requires s.disabled
    requires forall i :: 0 <= i < |inputs| ==> !inputs[i].ResetClick?
    ensures Run(s, inputs, round) == s
    decreases |inputs|
  {
    if inputs != [] {
      assert forall i :: 0 <= i < |inputs[1..]| ==> inputs[1..][i] == inputs[i + 1];
      DisabledIgnoresInputs(Step(s, inputs[0], round), inputs[1..], round);
    }
  }

  /** The engine's reactive state; each handler writes its fields in place. */
  class Viewport {
    var positionX: real
    var positionY: real
    var scale: real
    var maxScale: real
    var minScale: real
    var limitToBounds: bool
    var sensitivity: real
    var zoomInSensitivity: real
    var zoomOutSensitivity: real
    var dbClickSensitivity: real
    var zoomingEnabled: bool
    var disabled: bool
    var enableZoomedOutPanning: bool
    var isDown: bool
    var panningEnabled: bool
    var startCoords: Point

    function Value(): ViewState
      reads this
    {
      ViewState(positionX, positionY, scale, maxScale, minScale, limitToBounds,
                sensitivity, zoomInSensitivity, zoomOutSensitivity, dbClickSensitivity,
                zoomingEnabled, disabled, enableZoomedOutPanning, isDown, panningEnabled, startCoords)
    }

    constructor ()
      ensures Value() == InitialState
      ensures 0.0 < minScale <= scale <= maxScale
    {
      positionX, positionY := 0.0, 0.0;
      scale, maxScale, minScale := 1.0, 4.0, 0.8;
      limitToBounds := true;
      sensitivity, zoomInSensitivity, zoomOutSensitivity, dbClickSensitivity := 0.4, 5.0, 5.0, 7.0;
      zoomingEnabled, disabled, enableZoomedOutPanning := true, false, false;
      isDown, panningEnabled := false, true;
      startCoords := Point(0.0, 0.0);
    }

    method HandleZoom(ev: MouseInput, center: Center, customDelta: Unknown, customSensitivity: Unknown,
                      layout: Option<Layout>, round: real -> real)
      requires scale != 0.0
      modifies this
      ensures Value() == Zoom(old(Value()), ev, center, customDelta, customSensitivity, layout, round)
    {
      var s := Value();
      if s.isDown || !s.zoomingEnabled || s.disabled || layout.None? {
        return;
      }
      var c := RelativeCoords(ev, layout.value, false);
      var delta := CheckIsNumber(customDelta, WheelDirection(ev.deltaY));
      var mouse := MousePosition(center, c);
      var zoomSensitivity := ZoomSensitivity(customSensitivity, s.sensitivity);
      var newScale := round(TargetScale(s.scale, delta, zoomSensitivity));
      assert newScale == ZoomCandidate(s, ev, customDelta, customSensitivity, round);
      if newScale >= s.maxScale && s.scale < s.maxScale {
        newScale := s.maxScale;
      }
      if newScale <= s.minScale && s.scale > s.minScale {
        newScale := s.minScale;
      }
      if newScale > s.maxScale || newScale < s.minScale {
        return;
      }
      assert Some(newScale) == NewScale(s, ev, customDelta, customSensitivity, layout, round);
      var area := ZoomArea(c, newScale, s.enableZoomedOutPanning);
      var newPositionX := AnchoredPosition(mouse.x, s.positionX, s.scale, newScale);
      var newPositionY := AnchoredPosition(mouse.y, s.positionY, s.scale, newScale);
      var limitedX := BoundLimiter(newPositionX, area.minPositionX, area.maxPositionX, s.limitToBounds);
      var limitedY := BoundLimiter(newPositionY, area.minPositionY, area.maxPositionY, s.limitToBounds);
      SetTransform(newScale, limitedX, limitedY);
      ZoomCommits(s, ev, center, customDelta, customSensitivity, layout, round, newScale);
    }

    /** Writes the scale and the position, and nothing else. */
    method SetTransform(newScale: real, newPositionX: real, newPositionY: real)
      modifies this
      ensures Value() == old(Value()).(scale := newScale, positionX := newPositionX, positionY := newPositionY)
    {
      scale := newScale;
      positionX := newPositionX;
      positionY := newPositionY;
    }

    method ZoomIn(ev: MouseInput, layout: Option<Layout>, round: real -> real)
      requires scale != 0.0
      modifies this
      ensures Value() == ZoomInStep(old(Value()), ev, layout, round)
    {
      if !zoomingEnabled || disabled {
        return;
      }
      HandleZoom(ev, NoCenter, Num(1.0), Num(zoomInSensitivity), layout, round);
    }

    method ZoomOut(ev: MouseInput, layout: Option<Layout>, round: real -> real)
      requires scale != 0.0
      modifies this
      ensures Value() == ZoomOutStep(old(Value()), ev, layout, round)
    {
      if !zoomingEnabled || disabled {
        return;
      }
      HandleZoom(ev, NoCenter, Num(-1.0), Num(zoomOutSensitivity), layout, round);
    }

    method HandleDbClick(ev: MouseInput, layout: Option<Layout>, round: real -> real)
      requires scale != 0.0
      modifies this
      ensures Value() == DbClickStep(old(Value()), ev, layout, round)
    {
      if !zoomingEnabled || disabled {
        return;
      }
      HandleZoom(ev, NoCenter, Num(1.0), Num(dbClickSensitivity), layout, round);
    }

    method ResetTransform(defaultScale: Unknown, defaultPositionX: Unknown, defaultPositionY: Unknown)
      modifies this
      ensures Value() == Reset(old(Value()), defaultScale, defaultPositionX, defaultPositionY)
    {
      SetTransform(CheckIsNumber(defaultScale, InitialState.scale),
                   CheckIsNumber(defaultPositionX, InitialState.positionX),
                   CheckIsNumber(defaultPositionY, InitialState.positionY));
    }

    method HandleStartPanning(ev: MouseInput, layout: Option<Layout>, targetInside: bool)
      modifies this
      ensures Value() == StartPanning(old(Value()), ev, layout, targetInside)
    {
      if layout.None? {
        return;
      }
      if isDown || !panningEnabled || disabled || !targetInside {
        return;
      }
      var c := RelativeCoords(ev, layout.value, true);
      startCoords := Point(c.x - positionX, c.y - positionY);
      isDown := true;
    }

    method HandlePanning(ev: MouseInput, layout: Option<Layout>)
      modifies this
      ensures Value() == Pan(old(Value()), ev, layout)
    {
      if !isDown || !panningEnabled || disabled {
        return;
      }
      if layout.None? {
        return;
      }
      var c := RelativeCoords(ev, layout.value, true);
      var newPositionX := c.x - startCoords.x;
      var newPositionY := c.y - startCoords.y;
      var area := PanArea(c, enableZoomedOutPanning);
      positionX := BoundLimiter(newPositionX, area.minPositionX, area.maxPositionX, limitToBounds);
      positionY := BoundLimiter(newPositionY, area.minPositionY, area.maxPositionY, limitToBounds);
    }

    method HandleStopPanning()
      modifies this
      ensures Value() == StopPanning(old(Value()))
    {
      if !panningEnabled || disabled {
        return;
      }
      isDown := false;
    }
  }
}
