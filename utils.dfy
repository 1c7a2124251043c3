/** The helpers of hooks/src/utils.ts. Only `getMidPagePosition` is defined there;
    the others that the handlers import are received as function values and never
    interpreted. */
module Utils {
  import opened Wrappers
  import opened GestureState

  /** The sizes `getComponentsSizes` reports for a wrapper at a scale. */
  datatype Sizes = Sizes(wrapperWidth: real, wrapperHeight: real,
                         newWrapperWidth: real, newWrapperHeight: real,
                         newDiffWidth: real, newDiffHeight: real)

  /** The imported helpers whose definitions are not part of this model. */
  datatype Helpers = Helpers(
    roundNumber: (real, nat) -> real,
    calculateBoundingArea: (real, real, real, real, real, real, bool) -> Bounds,
    getDelta: WheelEvent -> real,
    checkZoomBounds: (real, real, real, real, bool) -> real,
    getComponentsSizes: (Element, real) -> Sizes,
    wheelMousePosition: (WheelEvent, Element, real) -> Point,
    handleCalculatePositions: (TransformState, real, real, real, Bounds, bool) -> Point,
    checkPositionBounds: (real, real, Option<Bounds>, bool) -> Point)

  // Each helper applied, under its own name, so that the handlers and their
  // specifications share one term for every helper call.

  function RoundNumber(h: Helpers, num: real, decimal: nat): real
  {
    h.roundNumber(num, decimal)
  }

  function CalculateBoundingArea(h: Helpers, wrapperWidth: real, contentWidth: real, diffWidth: real,
                                 wrapperHeight: real, contentHeight: real, diffHeight: real,
                                 limitToWrapper: bool): Bounds
  {
    h.calculateBoundingArea(wrapperWidth, contentWidth, diffWidth, wrapperHeight, contentHeight, diffHeight, limitToWrapper)
  }

  function GetDelta(h: Helpers, event: WheelEvent): real
  {
    h.getDelta(event)
  }

  function CheckZoomBounds(h: Helpers, zoom: real, minScale: real, maxScale: real, zoomPadding: real,
                           enablePadding: bool): real
  {
    h.checkZoomBounds(zoom, minScale, maxScale, zoomPadding, enablePadding)
  }

  function GetComponentsSizes(h: Helpers, wrapper: Element, newScale: real): Sizes
  {
    h.getComponentsSizes(wrapper, newScale)
  }

  function WheelMousePosition(h: Helpers, event: WheelEvent, content: Element, scale: real): Point
  {
    h.wheelMousePosition(event, content, scale)
  }

  function HandleCalculatePositions(h: Helpers, state: TransformState, mouseX: real, mouseY: real,
                                    newScale: real, bounds: Bounds, limitToBounds: bool): Point
  {
    h.handleCalculatePositions(state, mouseX, mouseY, newScale, bounds, limitToBounds)
  }

  function CheckPositionBounds(h: Helpers, positionX: real, positionY: real, bounds: Option<Bounds>,
                               limitToBounds: bool): Point
  {
    h.checkPositionBounds(positionX, positionY, bounds, limitToBounds)
  }

  function Min(a: real, b: real): real { if a <= b then a else b }
  function Max(a: real, b: real): real { if a <= b then b else a }

  /** `getMidPagePosition`: the midpoint of two touches. */
  function GetMidPagePosition(firstPoint: Touch, secondPoint: Touch): (m: Point)
    ensures m.x - firstPoint.clientX == secondPoint.clientX - m.x
    ensures m.y - firstPoint.clientY == secondPoint.clientY - m.y
    ensures Min(firstPoint.clientX, secondPoint.clientX) <= m.x <= Max(firstPoint.clientX, secondPoint.clientX)
    ensures Min(firstPoint.clientY, secondPoint.clientY) <= m.y <= Max(firstPoint.clientY, secondPoint.clientY)
    ensures firstPoint == secondPoint ==> m == Point(firstPoint.clientX, firstPoint.clientY)
  {
    Point((firstPoint.clientX + secondPoint.clientX) / 2.0, (firstPoint.clientY + secondPoint.clientY) / 2.0)
  }

  /** The midpoint does not depend on the order of the two touches. */
  lemma MidPagePositionSymmetric(firstPoint: Touch, secondPoint: Touch)
    ensures GetMidPagePosition(firstPoint, secondPoint) == GetMidPagePosition(secondPoint, firstPoint)
  {
  }
}
