# Transform state engine of a Vue pan/zoom viewport

This project models the state engine of a Vue pan/zoom/pinch viewport. The engine is a reactive
record holding the scale, the translation (`positionX`, `positionY`) and several flags. Handlers
change that record when wheel, click and pointer input arrives. The repository has two drafts of
the engine, and both are modelled here.

- **Single-file engine** (`src/hooks/useZoom.ts`), module `ZoomEngine`.
  - Pure parts: the number check, the bounds clamp `boundLimiter`, the bounding rectangle
    `calculateBoundingArea`, and `relativeCoords`. These are functions.
  - Handlers: `handleZoom` (wheel), `zoomIn`, `zoomOut`, `handleDbClick`, `resetTransform`, and
    pan start, move and stop.
  - Each handler has a pure specification function (`Zoom`, `ZoomInStep`, `Reset`,
    `StartPanning`, `Pan`, `StopPanning`, …) whose contract states the property.
  - Each handler is also a method of the class `Viewport`. The method assigns the class's fields
    as the source assigns `state`. Its `ensures` ties the new `Value()` to the specification
    function applied to the old one.
  - `Step` and `Run` replay a sequence of events through the eight handlers the hook returns
    (src/hooks/useZoom.ts:309-319), `resetTransform` included.
- **Split engine** (`hooks/src/`), in these modules:
  - `GestureState`: the state record, the reactive object `ReactiveState` and the events.
  - `Utils`: the helpers.
  - `Pan`: `usePan.ts`.
  - `WheelZoom`: `useZoom.ts`.
  - `Gesture`: `useGesture.ts`.

  The handlers are module-level methods that receive the reactive object, as the closures
  receive `state`. Each is again proved equal to a specification function
  (`Panned`, `StoppedPanning`, `WheelZoomed`, `StartedPanning`).

The models rely on a few substitutions:

- **Helpers without source.** Several helpers the split engine imports have no definition in the
  repository's `hooks/src/utils.ts`:
  - `checkZoomBounds`, `getDelta`, `getComponentsSizes`, `wheelMousePosition`,
    `handleCalculatePositions` and `checkPositionBounds`;
  - the imported `roundNumber` and `calculateBoundingArea`.

  They are received as uninterpreted function values, bundled in `Utils.Helpers`.
- **Rounding.** The single file's `roundNumber` formats a floating-point number with `toFixed`.
  It is an uninterpreted parameter `round: real -> real`.
- **DOM measurements.** These are plain parameters:
  - `offsetX`/`pageX` and the wheel delta (`MouseInput`);
  - the wrapper and content sizes (`Layout`, absent when an element is not mounted);
  - whether the event target lies inside the wrapper (`targetInside`);
  - the mounted elements themselves (`Option<Element>`).
- **Numbers.** JavaScript numbers are exact reals.
- **Untyped arguments.** An argument of unknown type is `Unknown` (a number, or anything else).

## Model

| member | source | states |
|---|---|---|
| ZoomEngine.CheckIsNumber | src/hooks/useZoom.ts:3-5 | a numeric argument is returned as is; any other value yields the fallback |
| ZoomEngine.BoundLimiter | src/hooks/useZoom.ts:49-54 | inactive: the value unchanged; active with ordered bounds: the result lies in [min, max], equals the value when inside, is min below and max above |
| ZoomEngine.BoundLimiterIdempotent | src/hooks/useZoom.ts:49-54 | with ordered bounds, clamping a clamped value changes nothing |
| ZoomEngine.CalculateBoundingArea | src/hooks/useZoom.ts:59-79 | computes the translation rectangle as the source does; no contract of its own; its properties are `BoundingAreaShape` and `BoundingAreaOrdered` |
| ZoomEngine.BoundingAreaShape | src/hooks/useZoom.ts:59-79 | with diff = wrapper − content, narrower content without zoomed-out panning is centred (min = max = diff/2), with it spans [0, diff]; wider content ranges over [wrapper − content, 0] |
| ZoomEngine.BoundingAreaOrdered | src/hooks/useZoom.ts:68-76 | for any sizes, when the differences are wrapper − content, the area is a non-empty rectangle |
| ZoomEngine.RelativeCoords | src/hooks/useZoom.ts:85-120 | the pointer is the page position when panning, the offset position otherwise; sizes are passed through and the differences are wrapper − content |
| ZoomEngine.WheelDirection | src/hooks/useZoom.ts:160-161 | the direction is ±1, and +1 (zoom in) exactly when deltaY < 0 |
| ZoomEngine.MousePosition | src/hooks/useZoom.ts:164-172 | without a centre the anchor is the pointer; with one, each numeric coordinate is taken and each missing one falls back to the wrapper's middle |
| ZoomEngine.ZoomSensitivity | src/hooks/useZoom.ts:178 | a non-zero numeric custom sensitivity is used, otherwise the state's, scaled by 0.1 |
| ZoomEngine.TargetScale | src/hooks/useZoom.ts:181 | the unrounded new scale `scale + delta · sensitivity · scale`; no contract of its own; its direction is `TargetScaleDirection` |
| ZoomEngine.TargetScaleDirection | src/hooks/useZoom.ts:181 | for a positive scale and sensitivity, delta 1 (`zoomIn`, a wheel up) raises the unrounded scale and delta −1 (`zoomOut`, a wheel down) lowers it; a sensitivity below 1 keeps the lowered scale positive |
| ZoomEngine.AnchoredPosition | src/hooks/useZoom.ts:211-212 | the new position `−target · newScale + mouse` with target = (mouse − position)/scale (lines 175-176); no contract of its own; `AnchoredPositionFixesPointer` states that it keeps the pointer's content point fixed |
| ZoomEngine.AnchoredPositionFixesPointer | src/hooks/useZoom.ts:211-212 | the new position computed from target = (mouse − position)/scale keeps the content point under the mouse fixed: (mouse − new)·scale = (mouse − old)·newScale |
| ZoomEngine.ZoomCandidate | src/hooks/useZoom.ts:161-181 | the rounded candidate scale from the delta and the sensitivity; no contract of its own; `SnapScale` and `NewScale` state what becomes of it |
| ZoomEngine.SnapScale | src/hooks/useZoom.ts:183-189 | any accepted scale lies in [minScale, maxScale]; a candidate above max snaps to max unless the scale is already there (then rejected), likewise below min; others are kept |
| ZoomEngine.NewScale | src/hooks/useZoom.ts:142-189 | none while pressed, zoom disabled, disabled or unmounted; any committed scale lies within the limits |
| ZoomEngine.ClampedIntoArea | src/hooks/useZoom.ts:214-215 | clamping both coordinates into a non-empty rectangle lands inside it |
| ZoomEngine.ClampedIntoZoomArea | src/hooks/useZoom.ts:193-215 | clamping both coordinates into the bounds at the new scale always lands inside them |
| ZoomEngine.Zoom | src/hooks/useZoom.ts:122-216 | no change under the guards or on rejection; otherwise only scale and position change, the scale is the snapped one, and a scale within its limits stays within them |
| ZoomEngine.ZoomCommits | src/hooks/useZoom.ts:191-215 | a committed zoom writes the new scale and the anchored positions clamped into the bounds of content `wrapper · newScale`, when limited |
| ZoomEngine.ZoomUnlimitedPosition | src/hooks/useZoom.ts:211-215 | without bounds, the written positions are the anchored ones |
| ZoomEngine.ZoomAnchorsPointer | src/hooks/useZoom.ts:174-215 | without bounds, a committed zoom keeps the content point under the pointer (or centre) fixed on both axes |
| ZoomEngine.ZoomStaysInArea | src/hooks/useZoom.ts:193-215 | with bounds, the committed position lies inside the bounds computed for the new scale |
| ZoomEngine.ZoomInStep | src/hooks/useZoom.ts:218-222 | no change when zooming is off or disabled; otherwise a zoom with delta 1 and the zoom-in sensitivity |
| ZoomEngine.ZoomOutStep | src/hooks/useZoom.ts:224-228 | no change when zooming is off or disabled; otherwise a zoom with delta −1 and the zoom-out sensitivity |
| ZoomEngine.Reset | src/hooks/useZoom.ts:230-234 | only scale and position change; each becomes its numeric argument, or 1, 0, 0 for a non-number |
| ZoomEngine.DbClickStep | src/hooks/useZoom.ts:236-240 | no change when zooming is off or disabled; otherwise a zoom about the pointer with delta 1 and the double-click sensitivity |
| ZoomEngine.StartPanning | src/hooks/useZoom.ts:243-260 | no change unless mounted, not pressed, panning enabled, not disabled and the target inside; otherwise only isDown (set) and startCoords change, with startCoords + position = the page pointer |
| ZoomEngine.Pan | src/hooks/useZoom.ts:263-300 | no change unless pressed, enabled, not disabled and mounted; only the position changes; limited: it is page − startCoords clamped into the bounds of the current sizes, so inside them; unlimited: position + startCoords = the page pointer |
| ZoomEngine.StopPanning | src/hooks/useZoom.ts:303-307 | clears isDown, and nothing else, exactly when panning is enabled and not disabled |
| ZoomEngine.PanReturnsToStart | src/hooks/useZoom.ts:243-300 | a pan started at a page point and moved back to it leaves the state as the start left it (unlimited, or when the position is inside the bounds) |
| ZoomEngine.StopPanningIdempotent | src/hooks/useZoom.ts:303-307 | stopping twice equals stopping once |
| ZoomEngine.Step | src/hooks/useZoom.ts:309-319 | each returned handler keeps the scale limits and the disabled flag; every handler keeps the scale within its limits except a reset to a scale outside them; every handler but `resetTransform` changes nothing when disabled |
| ZoomEngine.Run | src/hooks/useZoom.ts:309-319 | along any event sequence whose resets ask for scales within the limits, the scale stays within its (unchanged, positive) limits |
| ZoomEngine.DisabledIgnoresInputs | src/hooks/useZoom.ts:309-319 | a disabled engine is left unchanged by any sequence of events without a reset |
| ZoomEngine.ResetIgnoresLimitsAndDisabled | src/hooks/useZoom.ts:230-234 | a reset checks neither the limits nor `disabled`: scale 10 leaves the initial limits [0.8, 4], scale 0 is accepted, and a disabled state is changed |
| ZoomEngine.Viewport.constructor | src/hooks/useZoom.ts:11-35 | the reactive state starts as the initial state, with its scale within its limits |
| ZoomEngine.Viewport.HandleZoom | src/hooks/useZoom.ts:122-216 | the fields after the call are `Zoom` of the fields before |
| ZoomEngine.Viewport.ZoomIn | src/hooks/useZoom.ts:218-222 | the fields after the call are `ZoomInStep` of the fields before |
| ZoomEngine.Viewport.ZoomOut | src/hooks/useZoom.ts:224-228 | the fields after the call are `ZoomOutStep` of the fields before |
| ZoomEngine.Viewport.ResetTransform | src/hooks/useZoom.ts:230-234 | the fields after the call are `Reset` of the fields before |
| ZoomEngine.Viewport.HandleDbClick | src/hooks/useZoom.ts:236-240 | the fields after the call are `DbClickStep` of the fields before |
| ZoomEngine.Viewport.HandleStartPanning | src/hooks/useZoom.ts:243-260 | the fields after the call are `StartPanning` of the fields before |
| ZoomEngine.Viewport.HandlePanning | src/hooks/useZoom.ts:263-300 | the fields after the call are `Pan` of the fields before |
| ZoomEngine.Viewport.HandleStopPanning | src/hooks/useZoom.ts:303-307 | the fields after the call are `StopPanning` of the fields before |
| GestureState.InitialStateAtRest | hooks/src/useGesture.ts:9-41 | the initial state has minScale 1 ≤ scale 1 ≤ maxScale 8, is not pressed, and holds no bounds and no start offset |
| GestureState.ReactiveState.constructor | hooks/src/useGesture.ts:49-53 | the reactive object and the start-offset ref start as the initial state |
| Utils.GetMidPagePosition | hooks/src/utils.ts:4-9 | each coordinate is the mean of the two (equidistant from both), lies between them, and equal points give that point |
| Utils.MidPagePositionSymmetric | hooks/src/utils.ts:4-9 | swapping the two touches gives the same midpoint |
| Pan.GetClientPosition | hooks/src/usePan.ts:12-24 | a mouse event gives its client point; a touch event gives a point exactly when it has one touch, and then that touch's point |
| Pan.CheckIsPanningActive | hooks/src/usePan.ts:64-81 | a move is ignored when not pressed, panning is off, disabled, unmounted, no start offset, a touch count other than 1, or a horizontal touch movement under one pixel; a mouse move passing the guards is handled, and so is a single touch at least one pixel away; a handled move has a start offset and a pointer |
| Pan.PanCandidate | hooks/src/usePan.ts:45-46 | a locked axis keeps the current position; a free one follows the pointer minus the start offset |
| Pan.Panned | hooks/src/usePan.ts:28-62 | an ignored move or a candidate equal to the position changes nothing; otherwise only the position changes, to what `checkPositionBounds` makes of the candidate |
| Pan.HandlePanning | hooks/src/usePan.ts:28-62 | the state after the call is `Panned` of the state before |
| Pan.StoppedPanning | hooks/src/usePan.ts:84-88 | afterwards isDown is false and nothing else has changed |
| Pan.StopPanningIdempotent | hooks/src/usePan.ts:84-88 | stopping twice equals stopping once |
| Pan.HandleStopPanning | hooks/src/usePan.ts:84-88 | the state after the call is `StoppedPanning` of the state before |
| WheelZoom.HandleCalculateBounds | hooks/src/useZoom.ts:24-52 | the bounds `calculateBoundingArea` gives for the sizes `getComponentsSizes` reports at a scale; no contract of its own, since neither helper is defined in the repository; its use is stated in `Gesture.StartedPanning` |
| WheelZoom.TargetScale | hooks/src/useZoom.ts:84 | the unclamped target `scale + wheelStep · delta · (scale / 100)`; no contract of its own; its properties are `TargetScaleDirection` and `TargetScaleOnePercent` |
| WheelZoom.TargetScaleDirection | hooks/src/useZoom.ts:84 | the target is scale · (1 + wheelStep · delta / 100); a positive scale grows, shrinks or stays as wheelStep · delta is positive, negative or zero |
| WheelZoom.TargetScaleOnePercent | hooks/src/useZoom.ts:84 | scale 1, step 1 and delta 1 give the target 1.01 |
| WheelZoom.IsLimitedToBounds | hooks/src/useZoom.ts:107-109 | limiting implies limitToBounds; it is off with a non-zero enabled padding unless limited to the wrapper on wheel, and on otherwise |
| WheelZoom.WheelNewScale | hooks/src/useZoom.ts:81-91 | the target rounded to two decimals and clamped by `checkZoomBounds`; no contract of its own; `WheelZoomed`, `WheelZoomCommits` and `Gesture.WheelStepKeepsScaleInRange` state its use |
| WheelZoom.WheelPosition | hooks/src/useZoom.ts:95-118 | the position `handleCalculatePositions` gives for the pointer, the new scale and the bounds at that scale, limited as `IsLimitedToBounds` says; no contract of its own; `WheelZoomCommits` states that a commit writes it |
| WheelZoom.WheelZoomed | hooks/src/useZoom.ts:56-125 | no change under the guards, when unmounted, or when the clamped scale equals the current one; only previousScale, scale and the position are ever written (bounds is not) |
| WheelZoom.WheelZoomCommits | hooks/src/useZoom.ts:93-124 | a commit records the old scale as previousScale, takes the clamped new scale, and moves to the helper's position for the bounds at the new scale |
| WheelZoom.HandleWheelZoom | hooks/src/useZoom.ts:56-125 | the state after the call is `WheelZoomed` of the state before |
| WheelZoom.HandleWheel | hooks/src/useZoom.ts:127-135 | only delegates: the state after the call is `WheelZoomed` of the state before |
| Gesture.StartedPanning | hooks/src/useGesture.ts:67-85 | no change unless mounted, panning enabled, not disabled, target inside and scale ≥ minScale; accepted: bounds recomputed at the current scale with limitToWrapperBounds; a touch changes nothing else; a mouse also sets isDown and startCoords + position = the client point |
| Gesture.HandleStartPanning | hooks/src/useGesture.ts:67-85 | the state after the call is `StartedPanning` of the state before |
| Gesture.MouseStartThenMoveIsNoop | hooks/src/useGesture.ts:80-84 | after an accepted mouse start at a client point, a move to that same point changes nothing |
| Gesture.StartKeepsScale | hooks/src/useGesture.ts:67-85 | a pan start keeps the scale, its limits and the padding |
| Gesture.PanKeepsScale | hooks/src/usePan.ts:28-62 | a pan move keeps the scale, its limits and the padding |
| Gesture.Step | hooks/src/useGesture.ts:88-101 | one wired event dispatched to its listener: mouse down to the pan start, move to the pan move, up to the stop, the wheel on the wrapper to the wheel zoom; no contract of its own; `StepKeepsScaleInRange` states its invariant |
| Gesture.Run | hooks/src/useGesture.ts:88-101 | wired events handled in order; no contract of its own; `RunKeepsScaleInRange` states its invariant |
| Gesture.WheelStepKeepsScaleInRange | hooks/src/useZoom.ts:84-124 | a wheel event keeps the limits, and keeps the scale within [minScale − padding, maxScale] when `checkZoomBounds` clamps into it |
| Gesture.StepKeepsScaleInRange | hooks/src/useGesture.ts:88-101 | each wired event keeps the limits and the scale within them, under the same clamping hypothesis |
| Gesture.RunKeepsScaleInRange | hooks/src/useGesture.ts:88-101 | along any sequence of wired events the scale stays within [minScale − padding, maxScale], under the same clamping hypothesis |

## Left out

- Browser side effects have no counterpart: `preventDefault`, `stopPropagation` and `console.log`.
- Event listener registration and the Vue lifecycle are I/O plumbing and are left out: `onMounted`, `watch`, `onUnmounted`, `makePassiveEventOption`. `Step`/`Run` in both engines stand for the wiring.
- DOM measurements become parameters: `offsetWidth`, `getBoundingClientRect`, `wrapper.contains(target)` and `instanceof TouchEvent`. Both drafts read them on the live DOM.
- `hooks/src/usePinch.ts` is not part of this model: its algorithm is commented out, and its only live code is `preventDefault`.
- The wheel debounce timer is commented out (hooks/src/useZoom.ts:22, 131-134) and is not modelled; `WheelZoom.HandleWheel` starts no timer and signals no wheel stop. The handlers read no `ctrlKey`; the delta comes from `getDelta`, which is not defined in the repository.
- The helpers not defined in the repository (`checkZoomBounds`, `getDelta`, `getComponentsSizes`, `wheelMousePosition`, `handleCalculatePositions`, `checkPositionBounds`, and the imported `roundNumber`/`calculateBoundingArea`) stay uninterpreted. Their definitions are not in the repository's `hooks/src/utils.ts`.
- WheelZoom.HandleCalculateBounds is the composition of `getComponentsSizes` and `calculateBoundingArea`. Neither is defined in the repository, so it carries no contract of its own. Its result is stated in `Gesture.StartedPanning`.
- ZoomEngine.ZoomCandidate: `roundNumber` (`toFixed`) is floating-point formatting, modelled as the uninterpreted `round`. Properties after rounding (snapping, scale range) still hold for any rounding.
- Floating point, `NaN` and `Infinity` are not modelled; numbers are exact reals.
- ZoomEngine.Zoom requires `scale != 0`. At scale 0 the source's targets `(mouse − position) / scale` (src/hooks/useZoom.ts:175-176) are ±`Infinity` or `NaN`. But the candidate `roundNumber(0 + delta · sensitivity · 0, 2)` is 0, so line 189 rejects the zoom whenever `minScale > 0`, and `handleZoom` writes nothing. The model cannot follow this, because `round` is uninterpreted (nothing says `round(0) = 0`) and Dafny's real division by zero is undefined, so the case is excluded. The same precondition is on `ZoomInStep`, `ZoomOutStep`, `DbClickStep`, `Step` and the `Viewport` zoom methods. `Run` requires a positive minimum scale, which the initial state has.
- ZoomEngine.ZoomSensitivity: a custom sensitivity that is truthy but not a number (a string, say) is not modelled. `Unknown` is either a number or a value treated as a missing one.
- Gesture.RunKeepsScaleInRange: with `checkZoomBounds` not defined in the repository, the scale-range invariant is proved under the hypothesis `ClampsScale`. The hypothesis is that `checkZoomBounds` keeps its result in [minScale − zoomPadding (when padding is enabled), maxScale]. The same applies to `WheelStepKeepsScaleInRange` and `StepKeepsScaleInRange`.
- Pan.Panned: the written position is whatever `checkPositionBounds` returns. No in-bounds property is claimed, since the helper is not defined in the repository.
- Some state fields are omitted because no modelled handler reads or writes them:
  - in the single file, the `maxPositionX`/`minPositionX`/`maxPositionY`/`minPositionY` fields of the state;
  - in the split engine, `isCentered`, `transformEnabled`, the four position fields and `startPanningCoords`.
- The `startCoords` ref of the split engine is kept as a field of the state record, `None` until a mouse pan starts.
- Setter methods group consecutive assignments of the source, for example `state.positionX = …; state.positionY = …`. No handler reads state between those writes, so the grouping changes no outcome.
- In `ZoomEngine.Viewport.HandleZoom` the guard on `isDown`/`zoomingEnabled`/`disabled` and the guard on the mounted elements are merged. They are separated in the source only by `preventDefault`.
- `resetTransform` has no `disabled` guard and no range check, and writes the three fields unconditionally (src/hooks/useZoom.ts:230-234).
- ZoomEngine.Run: the scale-range invariant holds only when every reset asks for a scale within the limits (`AdmissibleReset`). `ZoomEngine.ResetIgnoresLimitsAndDisabled` shows the counterexamples: `Reset(InitialState, Num(10.0), NotNum, NotNum)` has scale 10 above the maximum 4, and a reset to `Num(0.0)` gives scale 0, the case the zoom handlers' `scale != 0` precondition excludes. The same holds for `ZoomEngine.Step`'s range clause.
- ZoomEngine.DisabledIgnoresInputs: stated for sequences without a reset. A reset changes a disabled state, as `ZoomEngine.ResetIgnoresLimitsAndDisabled` shows.
- In the split engine a touch start only recomputes the bounds and does not enter the panning state, since the single-touch branch is empty (hooks/src/useGesture.ts:76-78).
- No exclusivity between panning and pinching is modelled: the pinch code is commented out and no handler ends another gesture's session.
- `Pan.CheckIsPanningActive` keeps the source's touch-jitter comparison as written: it compares the start offset `startCoords.x` (pointer minus position) with the absolute `touches[0].clientX`.
- Rendering components, transform strings, image loading (`useImage`), the example apps, type declarations and build configuration are outside the engine.
