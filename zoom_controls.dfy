/**
 * The zoom buttons (src/components/ZoomControls.jsx): multiplicative steps of 25%
 * capped at the zoom bounds, each button disabled once its bound is reached. The
 * zoom value belongs to the component's owner, which the buttons update.
 */
module ZoomControls {
  import opened Geometry

  const ZOOM_IN_FACTOR: real := 1.25
  const ZOOM_OUT_FACTOR: real := 0.75

  /** The zoom-in button is disabled at or above the upper bound. */
  predicate ZoomInDisabled(zoom: real) { zoom >= MAX_ZOOM }

  /** The zoom-out button is disabled at or below the lower bound. */
  predicate ZoomOutDisabled(zoom: real) { zoom <= MIN_ZOOM }

  /**
   * The zoom after the zoom-in handler: one 25% step up, capped at 4, applied only
   * below 4. It never lowers a non-negative zoom, keeps a zoom in bounds in bounds,
   * and changes nothing when the button is disabled.
   */
  function ZoomInResult(zoom: real): (r: real)
    ensures ZoomInDisabled(zoom) ==> r == zoom
    ensures zoom >= 0.0 ==> r >= zoom
    ensures !ZoomInDisabled(zoom) ==> r <= MAX_ZOOM
    ensures MIN_ZOOM <= zoom <= MAX_ZOOM ==> MIN_ZOOM <= r <= MAX_ZOOM
    ensures !ZoomInDisabled(zoom) && zoom * ZOOM_IN_FACTOR <= MAX_ZOOM ==> r == zoom * ZOOM_IN_FACTOR
  {
    if zoom < MAX_ZOOM then Min(zoom * ZOOM_IN_FACTOR, MAX_ZOOM) else zoom
  }

  /**
   * The zoom after the zoom-out handler: one 25% step down, floored at 0.25, applied
   * only above 0.25. It never raises a non-negative zoom, keeps a zoom in bounds in
   * bounds, and changes nothing when the button is disabled.
   */
  function ZoomOutResult(zoom: real): (r: real)
    ensures ZoomOutDisabled(zoom) ==> r == zoom
    ensures zoom >= 0.0 ==> r <= zoom
    ensures !ZoomOutDisabled(zoom) ==> r >= MIN_ZOOM
    ensures MIN_ZOOM <= zoom <= MAX_ZOOM ==> MIN_ZOOM <= r <= MAX_ZOOM
    ensures !ZoomOutDisabled(zoom) && zoom * ZOOM_OUT_FACTOR >= MIN_ZOOM ==> r == zoom * ZOOM_OUT_FACTOR
  {
    if zoom > MIN_ZOOM then Max(zoom * ZOOM_OUT_FACTOR, MIN_ZOOM) else zoom
  }

  /**
   * The two steps are not inverse: zooming in and then out from a zoom that neither
   * bound touches ends at 93.75% of the start.
   */
  lemma InThenOutShrinks(zoom: real)
    requires MIN_ZOOM < zoom && zoom * ZOOM_IN_FACTOR <= MAX_ZOOM
    ensures ZoomOutResult(ZoomInResult(zoom)) < zoom
    ensures zoom * ZOOM_IN_FACTOR * ZOOM_OUT_FACTOR >= MIN_ZOOM ==> ZoomOutResult(ZoomInResult(zoom)) == zoom * 0.9375
  {
  }

  class ZoomButtons {
    /** The owner's zoom, read and set through the component's props. */
    var zoom: real

    constructor(zoom: real)
      ensures this.zoom == zoom
    {
      this.zoom := zoom;
    }

    method HandleZoomIn()
      modifies this
      ensures zoom == ZoomInResult(old(zoom))
    {
      if zoom < MAX_ZOOM {
        zoom := Min(zoom * ZOOM_IN_FACTOR, MAX_ZOOM);
      }
    }

    method HandleZoomOut()
      modifies this
      ensures zoom == ZoomOutResult(old(zoom))
    {
      if zoom > MIN_ZOOM {
        zoom := Max(zoom * ZOOM_OUT_FACTOR, MIN_ZOOM);
      }
    }
  }
}
