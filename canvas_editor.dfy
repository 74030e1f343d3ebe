/** `CanvasEditor`: the 2D view behind the curve editors. A camera (scale in
    pixels per unit and a pan offset in pixels) maps world coordinates, y up,
    to screen coordinates, y down, around the canvas centre; mouse and wheel
    events pan and zoom it. The canvas size and its bounding rectangle are
    parameters, and drawing is only counted. */
module Canvas {
  import opened Geometry

  /** The canvas's `width`, `height` and `getBoundingClientRect()` corner. */
  datatype View = View(width: real, height: real, left: real, top: real)

  /** What the coordinate mapping reads from the editor. */
  datatype Camera = Camera(scale: real, panX: real, panY: real)

  const DefaultScale: real := 100.0
  const DefaultPointRadius: real := 8.0
  const MinScale: real := 20.0
  const MaxScale: real := 500.0
  const ZoomOutFactor: real := 0.9
  const ZoomInFactor: real := 1.1
  /** How much of a scale change is taken off each pan coordinate. */
  const PanCompensation: real := 0.1
  /** `MouseEvent.button` of the middle button, the one that pans. */
  const MiddleButton: int := 1

  /** The screen position of the world origin. */
  function CentreX(v: View, c: Camera): real { v.width / 2.0 + c.panX }
  function CentreY(v: View, c: Camera): real { v.height / 2.0 + c.panY }

  /** `screenToWorld`: relative to the canvas, from the centre, divided by the
      scale, with y turned upwards. It undoes `WorldToScreen`. */
  function ScreenToWorld(v: View, c: Camera, screen: Vec2): (w: Vec2)
    requires c.scale != 0.0
    ensures WorldToScreen(v, c, w) == screen
  {
    var x := screen.x - v.left;
    var y := screen.y - v.top;
    Vec2((x - CentreX(v, c)) / c.scale, -(y - CentreY(v, c)) / c.scale)
  }

  /** `worldToScreen`. */
  function WorldToScreen(v: View, c: Camera, w: Vec2): Vec2 {
    Vec2(v.left + CentreX(v, c) + w.x * c.scale, v.top + CentreY(v, c) - w.y * c.scale)
  }

  /** The other direction of the round trip: a world point drawn on the screen
      and read back is the same point. */
  lemma WorldScreenRoundTrip(v: View, c: Camera, w: Vec2)
    requires c.scale != 0.0
    ensures ScreenToWorld(v, c, WorldToScreen(v, c, w)) == w
  {
    var s := WorldToScreen(v, c, w);
    assert s.x - v.left - CentreX(v, c) == w.x * c.scale;
    assert s.y - v.top - CentreY(v, c) == -(w.y * c.scale);
  }

  /** With a positive scale, a point lower on the screen is lower in the world. */
  lemma ScreenYPointsDown(v: View, c: Camera, a: Vec2, b: Vec2)
    requires c.scale > 0.0 && a.y < b.y
    ensures ScreenToWorld(v, c, a).y > ScreenToWorld(v, c, b).y
  {
    var ya := -(a.y - v.top - CentreY(v, c));
    var yb := -(b.y - v.top - CentreY(v, c));
    DivMonotone(yb, ya, c.scale);
  }

  lemma DivMonotone(x: real, y: real, s: real)
    requires x < y && s > 0.0
    ensures x / s < y / s
  {
    assert (y - x) / s > 0.0;
    assert y / s - x / s == (y - x) / s;
  }

  /** Panning by the distance the cursor travelled keeps the world point
      that was under the cursor under it. */
  lemma PanKeepsGrabbedPoint(v: View, c: Camera, last: Vec2, now: Vec2)
    requires c.scale != 0.0
    ensures var moved := c.(panX := c.panX + (now.x - last.x), panY := c.panY + (now.y - last.y));
      ScreenToWorld(v, moved, now) == ScreenToWorld(v, c, last)
  {
    var moved := c.(panX := c.panX + (now.x - last.x), panY := c.panY + (now.y - last.y));
    assert now.x - v.left - CentreX(v, moved) == last.x - v.left - CentreX(v, c);
    assert now.y - v.top - CentreY(v, moved) == last.y - v.top - CentreY(v, c);
  }

  /** `deltaY > 0 ? 0.9 : 1.1`: scrolling down zooms out. */
  function ZoomFactor(deltaY: real): real {
    if deltaY > 0.0 then ZoomOutFactor else ZoomInFactor
  }

  /** The scale after one wheel step: multiplied by the factor, then clamped. */
  function ZoomedScale(scale: real, deltaY: real): (r: real)
    ensures MinScale <= r <= MaxScale
    ensures MinScale <= scale * ZoomFactor(deltaY) <= MaxScale ==> r == scale * ZoomFactor(deltaY)
    ensures scale * ZoomFactor(deltaY) < MinScale ==> r == MinScale
    ensures scale * ZoomFactor(deltaY) > MaxScale ==> r == MaxScale
  {
    Max(MinScale, Min(scale * ZoomFactor(deltaY), MaxScale))
  }

  /** Within the clamp range, scrolling down never zooms in and scrolling up
      never zooms out. */
  lemma ZoomDirection(scale: real, deltaY: real)
    requires MinScale <= scale <= MaxScale
    ensures deltaY > 0.0 ==> ZoomedScale(scale, deltaY) <= scale
    ensures deltaY <= 0.0 ==> ZoomedScale(scale, deltaY) >= scale
  {
  }

  /** `options.x || d`: a missing or zero option falls back to the default. */
  function OrDefault(option: Option<real>, d: real): (r: real)
    ensures option.Some? && option.value != 0.0 ==> r == option.value
    ensures option.None? || option.value == 0.0 ==> r == d
  {
    if option.Some? && option.value != 0.0 then option.value else d
  }

  class CanvasEditor {
    var pointRadius: real
    var scale: real
    var panX: real
    var panY: real
    var hoveredPointIndex: int
    var isDragging: bool
    var isPanning: bool
    var selectedPointIndex: int
    var lastPanX: real
    var lastPanY: real
    /** How many times `redraw` has been asked for. */
    var redraws: nat

    /** The scale is never zero, so the coordinate mapping is always defined. */
    predicate Valid()
      reads this
    {
      scale != 0.0
    }

    function CurrentCamera(): (c: Camera)
      reads this
      ensures c.scale == scale && c.panX == panX && c.panY == panY
    {
      Camera(scale, panX, panY)
    }

    constructor (initialScale: Option<real>, pointRadius: Option<real>)
      ensures Valid()
      ensures scale == OrDefault(initialScale, DefaultScale) && this.pointRadius == OrDefault(pointRadius, DefaultPointRadius)
      ensures panX == 0.0 && panY == 0.0 && lastPanX == 0.0 && lastPanY == 0.0
      ensures hoveredPointIndex == -1 && selectedPointIndex == -1
      ensures !isDragging && !isPanning && redraws == 0
    {
      this.pointRadius := OrDefault(pointRadius, DefaultPointRadius);
      scale := OrDefault(initialScale, DefaultScale);
      panX := 0.0;
      panY := 0.0;
      hoveredPointIndex := -1;
      isDragging := false;
      isPanning := false;
      selectedPointIndex := -1;
      lastPanX := 0.0;
      lastPanY := 0.0;
      redraws := 0;
    }

    /** `onMouseMove`: while panning, the pan follows the cursor (so the
        grabbed world point stays under it) and the view is redrawn. */
    method OnMouseMove(client: Vec2)
      requires Valid()
      modifies this
      ensures Valid()
      ensures old(isPanning) ==>
        && panX == old(panX) + (client.x - old(lastPanX)) && panY == old(panY) + (client.y - old(lastPanY))
        && lastPanX == client.x && lastPanY == client.y && redraws == old(redraws) + 1
      ensures old(isPanning) ==> forall v: View ::
        ScreenToWorld(v, CurrentCamera(), client) == ScreenToWorld(v, old(CurrentCamera()), Vec2(old(lastPanX), old(lastPanY)))
      ensures !old(isPanning) ==> unchanged(this)
      ensures scale == old(scale) && isPanning == old(isPanning) && isDragging == old(isDragging)
      ensures hoveredPointIndex == old(hoveredPointIndex) && selectedPointIndex == old(selectedPointIndex)
      ensures pointRadius == old(pointRadius)
    {
      if isPanning {
        ghost var before := CurrentCamera();
        ghost var last := Vec2(lastPanX, lastPanY);
        var deltaX := client.x - lastPanX;
        var deltaY := client.y - lastPanY;
        panX := panX + deltaX;
        panY := panY + deltaY;
        lastPanX := client.x;
        lastPanY := client.y;
        redraws := redraws + 1;
        forall v: View ensures ScreenToWorld(v, CurrentCamera(), client) == ScreenToWorld(v, before, last) {
          PanKeepsGrabbedPoint(v, before, last, client);
        }
      }
    }

    /** `onMouseDown`: the middle button starts panning from the cursor. */
    method OnMouseDown(button: int, client: Vec2)
      modifies this
      ensures button == MiddleButton ==> isPanning && lastPanX == client.x && lastPanY == client.y
      ensures button == MiddleButton ==>
        && scale == old(scale) && panX == old(panX) && panY == old(panY) && isDragging == old(isDragging)
        && hoveredPointIndex == old(hoveredPointIndex) && selectedPointIndex == old(selectedPointIndex)
        && redraws == old(redraws) && pointRadius == old(pointRadius)
      ensures button != MiddleButton ==> unchanged(this)
    {
      if button == MiddleButton {
        isPanning := true;
        lastPanX := client.x;
        lastPanY := client.y;
      }
    }

    /** `onMouseUp`: releasing the middle button stops panning. */
    method OnMouseUp(button: int)
      modifies this`isPanning
      ensures button == MiddleButton ==> !isPanning
      ensures button != MiddleButton ==> isPanning == old(isPanning)
    {
      if button == MiddleButton {
        isPanning := false;
      }
    }

    /** `onMouseLeave`: hover, dragging and panning all end; the view is redrawn. */
    method OnMouseLeave()
      modifies this`hoveredPointIndex, this`isDragging, this`isPanning, this`redraws
      ensures hoveredPointIndex == -1 && !isDragging && !isPanning
      ensures redraws == old(redraws) + 1
    {
      hoveredPointIndex := -1;
      isDragging := false;
      isPanning := false;
      redraws := redraws + 1;
    }

    /** `onWheel`: zoom by one step, clamped to [20, 500], then move the pan
        by a tenth of the scale change. */
    method OnWheel(deltaY: real)
      modifies this`scale, this`panX, this`panY, this`redraws
      ensures Valid() && MinScale <= scale <= MaxScale
      ensures scale == ZoomedScale(old(scale), deltaY)
      ensures panX == old(panX) - (scale - old(scale)) * PanCompensation
      ensures panY == old(panY) - (scale - old(scale)) * PanCompensation
      ensures redraws == old(redraws) + 1
    {
      var zoomFactor := ZoomFactor(deltaY);
      var oldScale := scale;
      scale := scale * zoomFactor;
      scale := Max(MinScale, Min(scale, MaxScale));
      var scaleDiff := scale - oldScale;
      panX := panX - scaleDiff * PanCompensation;
      panY := panY - scaleDiff * PanCompensation;
      redraws := redraws + 1;
    }

    /** `clear`: the default view, no selected or hovered point; a pan or a
        drag in progress is not ended. */
    method Clear()
      modifies this`panX, this`panY, this`scale, this`selectedPointIndex, this`hoveredPointIndex
      ensures Valid()
      ensures panX == 0.0 && panY == 0.0 && scale == DefaultScale
      ensures selectedPointIndex == -1 && hoveredPointIndex == -1
    {
      panX := 0.0;
      panY := 0.0;
      scale := DefaultScale;
      selectedPointIndex := -1;
      hoveredPointIndex := -1;
    }
  }
}
