/** The map component's viewport state cells and its event handlers. Each
    handler overwrites the cells in one atomic update. */
module Controller {
  import opened Geometry
  import opened Viewport
  import opened Events

  class ViewController {
    var offset: Point
    var scale: real
    var dragStart: Option<Point>

    /** The cells as one viewport value. */
    function State(): View
      reads this
    {
      View(offset, scale, dragStart)
    }

    /** The initial cell values: offset (0, 0), scale 1, no drag. */
    constructor ()
      ensures State() == Initial
      ensures Valid(State())
    {
      offset := Origin;
      scale := 1.0;
      dragStart := None;
    }

    /** The mount effect: fit the layer to the window height, zoomed in by
        ZoomFactor, and centre it in the window. */
    method FitToWindow(innerWidth: real, innerHeight: real)
      modifies this
      ensures State() == FitWindow(old(State()), innerWidth, innerHeight)
      ensures innerHeight > 0.0 ==> Valid(State())
    {
      var fitScale := innerHeight / BaseHeight;
      var scaledWidth := BaseWidth * fitScale * ZoomFactor;
      var scaledHeight := BaseHeight * fitScale * ZoomFactor;
      var offsetX := (innerWidth - scaledWidth) / 2.0;
      var offsetY := (innerHeight - scaledHeight) / 2.0;
      scale := fitScale * ZoomFactor;
      offset := Point(offsetX, offsetY);
      FitScalePositive(innerHeight);
    }

    method HandleMouseDown(client: Point)
      modifies this
      ensures State() == BeginDrag(old(State()), client)
      ensures offset == old(offset) && scale == old(scale)
    {
      dragStart := Some(Point(client.x - offset.x, client.y - offset.y));
    }

    method HandleMouseMove(client: Point)
      modifies this
      ensures State() == DragMove(old(State()), client)
      ensures old(dragStart).None? ==> offset == old(offset)
      ensures scale == old(scale) && dragStart == old(dragStart)
    {
      if dragStart.None? {
        return;
      }
      offset := Point(client.x - dragStart.value.x, client.y - dragStart.value.y);
    }

    /** Also the mouse-leave handler. */
    method HandleMouseUp()
      modifies this
      ensures State() == EndDrag(old(State()))
      ensures offset == old(offset) && scale == old(scale) && dragStart.None?
    {
      dragStart := None;
    }

    /** Zoom about the cursor; `container` is the top-left corner of the map's
        parent element, None when the map element is not mounted. */
    method HandleWheel(client: Point, deltaY: real, container: Option<Point>)
      requires Valid(State())
      modifies this
      ensures State() == ZoomAt(old(State()), client, deltaY, container)
      ensures Valid(State())
      ensures container.Some? ==> InBounds(scale)
      ensures container.None? ==> offset == old(offset) && scale == old(scale)
      ensures dragStart == old(dragStart)
    {
      var newScale := Min(Max(MinScale, scale - deltaY * ZoomSpeed), MaxScale);
      if container.None? {
        return;
      }
      var origin := container.value;
      var relX := client.x - origin.x - offset.x;
      var relY := client.y - origin.y - offset.y;
      var worldX := relX / scale;
      var worldY := relY / scale;
      var newOffset := Point(client.x - origin.x - worldX * newScale, client.y - origin.y - worldY * newScale);
      offset := newOffset;
      scale := newScale;
    }

    /** Route an event to its handler, as the container and layer wire them. */
    method Dispatch(e: Event)
      requires Valid(State())
      modifies this
      ensures State() == Step(old(State()), e)
      ensures Valid(State())
    {
      match e
      case MouseDown(p) => HandleMouseDown(p);
      case MouseMove(p) => HandleMouseMove(p);
      case MouseUp => HandleMouseUp();
      case MouseLeave => HandleMouseUp();
      case Wheel(p, deltaY, container) => HandleWheel(p, deltaY, container);
    }
  }
}
