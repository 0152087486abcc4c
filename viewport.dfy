/** The viewport transform of the map: the pure arithmetic of the pan/zoom
    handlers and the state transitions they perform.

    The map layer (5000 x 15000 pixels) is drawn inside a full-window container
    with `translate(offset) scale(scale)` and transform origin at its top-left
    corner, so the map point `w` appears on screen at
    `origin + offset + w * scale`, where `origin` is the container's top-left
    corner in client coordinates. */
module Viewport {
  import opened Geometry

  // Constants of the component.
  const ZoomSpeed: real := 0.0015
  const MinScale: real := 0.1
  const MaxScale: real := 5.0
  const BaseWidth: real := 5000.0
  const BaseHeight: real := 15000.0
  const ZoomFactor: real := 1.6

  /** The viewport state: the layer's translation, its uniform scale and,
      while the mouse button is held, the drag anchor `client - offset`
      recorded at mouse-down. */
  datatype View = View(offset: Point, scale: real, dragStart: Option<Point>)

  /** The state before the mount effect has run. */
  const Initial: View := View(Origin, 1.0, None)

  /** The invariant that keeps the division by `scale` in the wheel handler defined. */
  predicate Valid(v: View) {
    v.scale > 0.0
  }

  predicate InBounds(s: real) {
    MinScale <= s <= MaxScale
  }

  // ---------------------------------------------------------------------
  // Coordinate mapping

  /** Where the map point `world` appears on screen: the layer's top-left
      corner sits at `origin + offset`, and every map point is drawn at its
      position relative to that corner scaled by `scale`. */
  function ScreenPoint(world: Point, origin: Point, offset: Point, scale: real): (r: Point)
    ensures world == Origin ==> r == origin.Plus(offset)
    ensures r.Minus(origin.Plus(offset)) == world.Times(scale)
  {
    origin.Plus(offset).Plus(world.Times(scale))
  }

  /** The map point under the screen position `mouse`: the container-relative
      position minus the offset, divided by the scale. */
  function WorldPoint(mouse: Point, origin: Point, offset: Point, scale: real): (w: Point)
    requires scale != 0.0
    ensures ScreenPoint(w, origin, offset, scale) == mouse
  {
    OverTimes(mouse.Minus(origin).Minus(offset), scale);
    mouse.Minus(origin).Minus(offset).Over(scale)
  }

  /** WorldPoint is the only map point drawn at `mouse`. */
  lemma WorldPointUnique(q: Point, mouse: Point, origin: Point, offset: Point, scale: real)
    requires scale != 0.0
    ensures ScreenPoint(q, origin, offset, scale) == mouse <==> q == WorldPoint(mouse, origin, offset, scale)
  {
    if ScreenPoint(q, origin, offset, scale) == mouse {
      assert mouse.Minus(origin).Minus(offset) == q.Times(scale);
      TimesOver(q, scale);
    }
  }

  /** The offset that draws the map point `world` at screen position `mouse`
      when the layer has scale `newScale`. */
  function ZoomOffset(mouse: Point, origin: Point, world: Point, newScale: real): (o: Point)
    ensures ScreenPoint(world, origin, o, newScale) == mouse
  {
    mouse.Minus(origin).Minus(world.Times(newScale))
  }

  // ---------------------------------------------------------------------
  // Scale arithmetic of the wheel handler

  function Min(a: real, b: real): real {
    if a <= b then a else b
  }

  function Max(a: real, b: real): real {
    if a >= b then a else b
  }

  /** `min(max(MinScale, s), MaxScale)`: the candidate scale forced into range. */
  function ClampScale(s: real): (r: real)
    ensures InBounds(r)
    ensures InBounds(s) ==> r == s
    ensures s < MinScale ==> r == MinScale
    ensures s > MaxScale ==> r == MaxScale
  {
    Min(Max(MinScale, s), MaxScale)
  }

  /** The scale after a wheel event of `deltaY`, whatever the current scale. */
  function WheelScale(scale: real, deltaY: real): (r: real)
    ensures InBounds(r)
  {
    ClampScale(scale - deltaY * ZoomSpeed)
  }

  /** Scrolling up (negative deltaY) never zooms out and scrolling down never
      zooms in, from any in-range scale; inside the range the step is exactly
      `-deltaY * ZoomSpeed`. */
  lemma WheelScaleDirection(scale: real, deltaY: real)
    requires InBounds(scale)
    ensures deltaY <= 0.0 ==> WheelScale(scale, deltaY) >= scale
    ensures deltaY >= 0.0 ==> WheelScale(scale, deltaY) <= scale
    ensures InBounds(scale - deltaY * ZoomSpeed) ==> WheelScale(scale, deltaY) == scale - deltaY * ZoomSpeed
  {
    if deltaY <= 0.0 {
      assert deltaY * ZoomSpeed <= 0.0;
    }
    if deltaY >= 0.0 {
      assert deltaY * ZoomSpeed >= 0.0;
    }
  }

  // ---------------------------------------------------------------------
  // Mount-time fit

  /** The mount-time scale: fit the layer's height to the window, then zoom in.
      The scaled layer is ZoomFactor window heights tall. */
  function FitScale(innerHeight: real): (r: real)
    ensures BaseHeight * r == ZoomFactor * innerHeight
  {
    innerHeight / BaseHeight * ZoomFactor
  }

  /** The mount-time offset: centre the scaled layer in the window. */
  function FitOffset(innerWidth: real, innerHeight: real): (r: Point)
    ensures r.x + BaseWidth * FitScale(innerHeight) / 2.0 == innerWidth / 2.0
    ensures r.y + BaseHeight * FitScale(innerHeight) / 2.0 == innerHeight / 2.0
  {
    var fitScale := innerHeight / BaseHeight;
    var scaledWidth := BaseWidth * fitScale * ZoomFactor;
    var scaledHeight := BaseHeight * fitScale * ZoomFactor;
    Point((innerWidth - scaledWidth) / 2.0, (innerHeight - scaledHeight) / 2.0)
  }

  // ---------------------------------------------------------------------
  // Transitions, one per handler, each applied atomically

  /** The mount effect: sets scale and offset, leaves the drag anchor. */
  function FitWindow(v: View, innerWidth: real, innerHeight: real): (r: View)
    ensures r.dragStart == v.dragStart
    ensures innerHeight > 0.0 ==> Valid(r)
    ensures ScreenPoint(Point(BaseWidth / 2.0, BaseHeight / 2.0), Origin, r.offset, r.scale)
         == Point(innerWidth / 2.0, innerHeight / 2.0)
  {
    v.(offset := FitOffset(innerWidth, innerHeight), scale := FitScale(innerHeight))
  }

  /** Mouse-down: remember `client - offset` as the drag anchor. */
  function BeginDrag(v: View, client: Point): (r: View)
    ensures r.offset == v.offset && r.scale == v.scale
    ensures r.dragStart.Some? && r.dragStart.value.Plus(v.offset) == client
  {
    v.(dragStart := Some(client.Minus(v.offset)))
  }

  /** Mouse-move: nothing without an anchor, otherwise `offset := client - anchor`. */
  function DragMove(v: View, client: Point): (r: View)
    ensures r.scale == v.scale && r.dragStart == v.dragStart
    ensures v.dragStart.None? ==> r == v
    ensures v.dragStart.Some? ==> r.offset.Plus(v.dragStart.value) == client
  {
    match v.dragStart
    case None => v
    case Some(anchor) => v.(offset := client.Minus(anchor))
  }

  /** Mouse-up and mouse-leave: forget the drag anchor. */
  function EndDrag(v: View): (r: View)
    ensures r.dragStart.None? && r.offset == v.offset && r.scale == v.scale
  {
    v.(dragStart := None)
  }

  /** Wheel: clamp the new scale; without a measurable container change
      nothing; otherwise rescale so that the map point under the cursor stays
      under the cursor. */
  function ZoomAt(v: View, client: Point, deltaY: real, container: Option<Point>): (r: View)
    requires v.scale != 0.0
    ensures container.None? ==> r == v
    ensures container.Some? ==> InBounds(r.scale) && r.dragStart == v.dragStart
  {
    var newScale := WheelScale(v.scale, deltaY);
    match container
    case None => v
    case Some(origin) =>
      var world := WorldPoint(client, origin, v.offset, v.scale);
      View(ZoomOffset(client, origin, world, newScale), newScale, v.dragStart)
  }

  /** The cursor shown over the map layer. */
  function Cursor(v: View): (r: string)
    ensures r == "grabbing" <==> v.dragStart.Some?
    ensures r == "grab" <==> v.dragStart.None?
  {
    if v.dragStart.Some? then "grabbing" else "grab"
  }

  // ---------------------------------------------------------------------
  // Properties of the zoom

  /** The zoom-anchor invariant: the map point under the cursor before the
      wheel event is the one under it afterwards, coordinate by coordinate
      `(mouse - left - newOffset.x) / newScale == (mouse - left - offset.x) / scale`. */
  lemma ZoomAnchorInvariant(v: View, client: Point, deltaY: real, origin: Point)
    requires v.scale != 0.0
    ensures var r := ZoomAt(v, client, deltaY, Some(origin));
      r.scale != 0.0 &&
      (client.x - origin.x - r.offset.x) / r.scale == (client.x - origin.x - v.offset.x) / v.scale &&
      (client.y - origin.y - r.offset.y) / r.scale == (client.y - origin.y - v.offset.y) / v.scale &&
      WorldPoint(client, origin, r.offset, r.scale) == WorldPoint(client, origin, v.offset, v.scale)
  {
    var r := ZoomAt(v, client, deltaY, Some(origin));
    var w := WorldPoint(client, origin, v.offset, v.scale);
    assert ScreenPoint(w, origin, r.offset, r.scale) == client;
    WorldPointUnique(w, client, origin, r.offset, r.scale);
  }

  /** The zoom is a scaling about the cursor: every map point moves away from
      (or towards) the cursor by the factor newScale / scale. */
  lemma ZoomScalesAboutCursor(v: View, client: Point, deltaY: real, origin: Point, q: Point)
    requires v.scale != 0.0
    ensures var r := ZoomAt(v, client, deltaY, Some(origin));
      ScreenPoint(q, origin, r.offset, r.scale).Minus(client)
        == ScreenPoint(q, origin, v.offset, v.scale).Minus(client).Times(r.scale / v.scale)
  {
    var r := ZoomAt(v, client, deltaY, Some(origin));
    var w := WorldPoint(client, origin, v.offset, v.scale);
    var k := r.scale / v.scale;
    assert ScreenPoint(w, origin, v.offset, v.scale) == client;
    assert ScreenPoint(w, origin, r.offset, r.scale) == client;
    // Both sides equal (q - w) * newScale.
    assert ScreenPoint(q, origin, r.offset, r.scale).Minus(client) == q.Minus(w).Times(r.scale);
    assert ScreenPoint(q, origin, v.offset, v.scale).Minus(client) == q.Minus(w).Times(v.scale);
    assert v.scale * k == r.scale;
    assert q.Minus(w).Times(v.scale).Times(k) == q.Minus(w).Times(r.scale) by {
      assert (q.x - w.x) * v.scale * k == (q.x - w.x) * (v.scale * k);
      assert (q.y - w.y) * v.scale * k == (q.y - w.y) * (v.scale * k);
    }
  }

  /** A wheel event of deltaY = -100 at (100, 100) over the unit view at the
      container origin: the scale becomes 1.15 and the offset (-15, -15). */
  lemma ZoomExample()
    ensures ZoomAt(View(Origin, 1.0, None), Point(100.0, 100.0), -100.0, Some(Origin)).scale == 1.15
    ensures ZoomAt(View(Origin, 1.0, None), Point(100.0, 100.0), -100.0, Some(Origin)).offset == Point(-15.0, -15.0)
  {
    assert WheelScale(1.0, -100.0) == 1.15 by {
      assert 1.0 - -100.0 * ZoomSpeed == 1.15;
    }
    assert WorldPoint(Point(100.0, 100.0), Origin, Origin, 1.0) == Point(100.0, 100.0);
  }

  // ---------------------------------------------------------------------
  // Properties of dragging

  /** A mouse move with no drag in progress changes nothing. */
  lemma MoveWithoutDragIsNoOp(v: View, client: Point)
    requires v.dragStart.None?
    ensures DragMove(v, client) == v
  {
  }

  /** Dragging is translation by the pointer's displacement since mouse-down:
      after pressing at p1 and moving to p2 the offset is the old offset plus
      p2 - p1; the anchor and the scale do not change. */
  lemma DragIsTranslation(v: View, p1: Point, p2: Point)
    ensures var d := BeginDrag(v, p1);
      DragMove(d, p2) == d.(offset := v.offset.Plus(p2.Minus(p1)))
  {
  }

  /** Moving back to the press point restores the offset at mouse-down. */
  lemma DragBackRestores(v: View, p1: Point, p2: Point)
    ensures DragMove(DragMove(BeginDrag(v, p1), p2), p1).offset == v.offset
  {
  }

  /** No drag handler changes the scale. */
  lemma DragKeepsScale(v: View, client: Point)
    ensures BeginDrag(v, client).scale == v.scale
    ensures DragMove(v, client).scale == v.scale
    ensures EndDrag(v).scale == v.scale
  {
  }

  /** Ending a drag leaves no drag in progress, and ending it twice is ending it once. */
  lemma EndDragIdempotent(v: View)
    ensures EndDrag(v).dragStart.None?
    ensures EndDrag(EndDrag(v)) == EndDrag(v)
    ensures EndDrag(v).offset == v.offset
  {
  }

  /** The cursor says "grabbing" exactly while a drag is in progress. */
  lemma CursorShowsDrag(v: View, client: Point)
    ensures Cursor(v) == "grabbing" <==> v.dragStart.Some?
    ensures Cursor(BeginDrag(v, client)) == "grabbing"
    ensures Cursor(EndDrag(v)) == "grab"
  {
  }

  // ---------------------------------------------------------------------
  // Properties of the mount-time fit

  /** The fitted layer is 1.6 window heights tall and centred in the window. */
  lemma FitCentres(v: View, innerWidth: real, innerHeight: real, origin: Point)
    ensures var r := FitWindow(v, innerWidth, innerHeight);
      r.scale == innerHeight / BaseHeight * ZoomFactor &&
      BaseHeight * r.scale == ZoomFactor * innerHeight &&
      r.offset.x + BaseWidth * r.scale / 2.0 == innerWidth / 2.0 &&
      r.offset.y + BaseHeight * r.scale / 2.0 == innerHeight / 2.0 &&
      ScreenPoint(Point(BaseWidth / 2.0, BaseHeight / 2.0), origin, r.offset, r.scale)
        == origin.Plus(Point(innerWidth / 2.0, innerHeight / 2.0))
  {
    var r := FitWindow(v, innerWidth, innerHeight);
    var f := innerHeight / BaseHeight;
    assert r.scale == f * ZoomFactor;
    assert BaseWidth * f * ZoomFactor == BaseWidth * r.scale;
    assert BaseHeight * f * ZoomFactor == BaseHeight * r.scale;
  }

  /** The fitted scale is positive exactly when the window has positive height. */
  lemma FitScalePositive(innerHeight: real)
    ensures FitScale(innerHeight) > 0.0 <==> innerHeight > 0.0
  {
  }

  /** The fitted scale is not clamped: a short window gives a scale below
      MinScale and a very tall one a scale above MaxScale. Below MinScale the
      first committed wheel event lifts the scale to at least MinScale, so in
      an 800 px window scrolling down zooms in. */
  lemma FitIgnoresBounds()
    ensures FitScale(500.0) < MinScale
    ensures FitScale(50000.0) > MaxScale
    ensures WheelScale(FitScale(800.0), 100.0) > FitScale(800.0)
    ensures WheelScale(FitScale(800.0), -100.0) == FitScale(800.0) + 0.15 > MinScale
  {
  }

  /** The state before mounting and after the fit satisfy the invariant. */
  lemma FitKeepsValid(v: View, innerWidth: real, innerHeight: real)
    requires innerHeight > 0.0
    ensures Valid(Initial)
    ensures Valid(FitWindow(v, innerWidth, innerHeight))
  {
    FitScalePositive(innerHeight);
  }
}
