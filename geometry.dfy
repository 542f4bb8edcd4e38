/**
 * Plane geometry of the canvas: points, the screen-to-world conversion and the
 * zoom factor with its clamp (src/WhiteboardPage.jsx). Coordinates and zoom are
 * modelled as exact reals.
 */
module Geometry {

  datatype Point = Point(x: real, y: real)

  function Abs(v: real): real { if v < 0.0 then -v else v }
  function Min(a: real, b: real): real { if a <= b then a else b }
  function Max(a: real, b: real): real { if a >= b then a else b }

  /** Zoom bounds shared by the wheel, the pinch and the zoom buttons. */
  const MIN_ZOOM: real := 0.25
  const MAX_ZOOM: real := 4.0

  /** Wheel step factors: away from the user zooms out, otherwise in. */
  const WHEEL_OUT: real := 0.75
  const WHEEL_IN: real := 1.25

  /**
   * `(client - rect - pan) / zoom`, per axis: the world point under a pointer at
   * `client`, for a canvas whose top-left corner is at `origin` on the screen.
   * The result is the point that the view maps back onto `client`.
   */
  function ScreenToWorld(client: Point, origin: Point, pan: Point, zoom: real): (w: Point)
    requires zoom > 0.0
    ensures w.x * zoom + pan.x + origin.x == client.x
    ensures w.y * zoom + pan.y + origin.y == client.y
  {
    Point((client.x - origin.x - pan.x) / zoom, (client.y - origin.y - pan.y) / zoom)
  }

  /** `Math.min(Math.max(z, 0.25), 4)`. */
  function ClampZoom(z: real): (r: real)
    ensures MIN_ZOOM <= r <= MAX_ZOOM
    ensures MIN_ZOOM <= z <= MAX_ZOOM ==> r == z
    ensures z < MIN_ZOOM ==> r == MIN_ZOOM
    ensures z > MAX_ZOOM ==> r == MAX_ZOOM
  {
    Min(Max(z, MIN_ZOOM), MAX_ZOOM)
  }

  /**
   * The wheel handler's new zoom: one step out for a positive `deltaY`, one step in
   * otherwise, clamped. It never moves against the wheel's direction and is the
   * exact step whenever the step stays inside the bounds.
   */
  function WheelZoom(zoom: real, deltaY: real): (r: real)
    ensures MIN_ZOOM <= r <= MAX_ZOOM
    ensures MIN_ZOOM <= zoom <= MAX_ZOOM && deltaY > 0.0 ==> r <= zoom
    ensures MIN_ZOOM <= zoom <= MAX_ZOOM && deltaY <= 0.0 ==> r >= zoom
    ensures deltaY > 0.0 && MIN_ZOOM <= zoom * WHEEL_OUT <= MAX_ZOOM ==> r == zoom * WHEEL_OUT
    ensures deltaY <= 0.0 && MIN_ZOOM <= zoom * WHEEL_IN <= MAX_ZOOM ==> r == zoom * WHEEL_IN
  {
    var delta := if deltaY > 0.0 then WHEEL_OUT else WHEEL_IN;
    ClampZoom(zoom * delta)
  }

  /**
   * The pinch handler's new zoom: the old zoom scaled by the ratio of the current to
   * the previous finger distance, clamped. Spreading the fingers never zooms out and
   * pinching them never zooms in.
   */
  function PinchZoom(zoom: real, ratio: real): (r: real)
    ensures MIN_ZOOM <= r <= MAX_ZOOM
    ensures MIN_ZOOM <= zoom <= MAX_ZOOM && ratio >= 1.0 ==> r >= zoom
    ensures MIN_ZOOM <= zoom <= MAX_ZOOM && 0.0 <= ratio <= 1.0 ==> r <= zoom
    ensures MIN_ZOOM <= zoom * ratio <= MAX_ZOOM ==> r == zoom * ratio
  {
    var scaled := zoom * ratio;
    ScaleBounds(zoom, ratio, scaled);
    ClampZoom(scaled)
  }

  /** Scaling a non-negative value by a factor below one shrinks it, by one or more enlarges it. */
  lemma ScaleBounds(v: real, q: real, vq: real)
    requires vq == v * q
    ensures v >= 0.0 && q <= 1.0 ==> vq <= v
    ensures v >= 0.0 && q >= 1.0 ==> vq >= v
  {
    if v >= 0.0 && q <= 1.0 {
      ScaleDownAtMost(v, q);
    }
    if v >= 0.0 && q >= 1.0 {
      ProductNonNegative(v, q - 1.0);
      assert vq - v == v * (q - 1.0);
    }
  }

  lemma ProductNonNegative(a: real, b: real)
    requires a >= 0.0 && b >= 0.0
    ensures a * b >= 0.0
  {
  }

  /** Scaling a non-negative value by a factor of at most one does not enlarge it. */
  lemma ScaleDownAtMost(v: real, q: real)
    requires v >= 0.0 && q <= 1.0
    ensures v * q <= v
  {
    if q >= 0.0 {
      ProductNonNegative(v, 1.0 - q);
      assert v - v * q == v * (1.0 - q);
    } else {
      ProductNonNegative(v, -q);
      assert v * q == -(v * -q);
    }
  }

  /** One zoom input of the canvas: a wheel notch or a two-finger pinch step. */
  datatype ZoomEvent = WheelNotch(deltaY: real) | PinchStep(ratio: real)

  function ApplyZoomEvent(zoom: real, ev: ZoomEvent): real
  {
    match ev
    case WheelNotch(d) => WheelZoom(zoom, d)
    case PinchStep(q) => PinchZoom(zoom, q)
  }

  /** The zoom after a sequence of wheel and pinch inputs, applied in order. */
  function ApplyZoomEvents(zoom: real, evs: seq<ZoomEvent>): real
    decreases |evs|
  {
    if evs == [] then zoom else ApplyZoomEvents(ApplyZoomEvent(zoom, evs[0]), evs[1..])
  }

  /**
   * Whatever wheel and pinch inputs arrive, the zoom stays in [0.25, 4]; after at
   * least one input this holds even from a zoom that started outside the bounds.
   */
  lemma {:induction false} ZoomEventsStayInBounds(zoom: real, evs: seq<ZoomEvent>)
    requires evs != [] || MIN_ZOOM <= zoom <= MAX_ZOOM
    ensures MIN_ZOOM <= ApplyZoomEvents(zoom, evs) <= MAX_ZOOM
    decreases |evs|
  {
    if evs != [] {
      ZoomEventsStayInBounds(ApplyZoomEvent(zoom, evs[0]), evs[1..]);
    }
  }
}
