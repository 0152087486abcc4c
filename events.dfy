/** The stream of input events delivered to the map and the state reached
    after a sequence of them. Each handler runs to completion before the next
    event, so a sequence of events is a fold of the transitions. */
module Events {
  import opened Geometry
  import opened Viewport

  /** The events the map container and the map layer listen to. A wheel event
      carries the container's top-left corner when the map element is
      mounted, and None when it is not. */
  datatype Event =
    | MouseDown(client: Point)
    | MouseMove(client: Point)
    | MouseUp
    | MouseLeave
    | Wheel(client: Point, deltaY: real, container: Option<Point>)

  /** The handler each event is routed to; mouse-leave shares mouse-up's handler. */
  function Step(v: View, e: Event): (r: View)
    requires Valid(v)
    ensures Valid(r)
    ensures InBounds(v.scale) ==> InBounds(r.scale)
    ensures e.Wheel? && e.container.Some? ==> InBounds(r.scale)
    ensures !e.Wheel? ==> r.scale == v.scale
  {
    match e
    case MouseDown(p) => BeginDrag(v, p)
    case MouseMove(p) => DragMove(v, p)
    case MouseUp => EndDrag(v)
    case MouseLeave => EndDrag(v)
    case Wheel(p, deltaY, container) => ZoomAt(v, p, deltaY, container)
  }

  /** The state after handling `evs` in order. Positive scale is kept by every
      event, and so is a scale inside [MinScale, MaxScale]. */
  function Run(v: View, evs: seq<Event>): (r: View)
    requires Valid(v)
    ensures Valid(r)
    ensures InBounds(v.scale) ==> InBounds(r.scale)
    decreases |evs|
  {
    if evs == [] then v else Run(Step(v, evs[0]), evs[1..])
  }

  /** Handling a + b is handling a, then b. */
  lemma {:induction false} RunAppend(v: View, a: seq<Event>, b: seq<Event>)
    requires Valid(v)
    ensures Run(v, a + b) == Run(Run(v, a), b)
    decreases |a|
  {
    if a == [] {
      assert a + b == b;
    } else {
      assert (a + b)[0] == a[0];
      assert (a + b)[1..] == a[1..] + b;
      RunAppend(Step(v, a[0]), a[1..], b);
    }
  }

  /** From the mount-time fit of a window of positive height on, the scale is
      positive after any sequence of events, so the wheel handler's division
      by the scale is always defined. */
  lemma {:induction false} MountedScalePositive(innerWidth: real, innerHeight: real, evs: seq<Event>)
    requires innerHeight > 0.0
    ensures Valid(FitWindow(Initial, innerWidth, innerHeight))
    ensures Run(FitWindow(Initial, innerWidth, innerHeight), evs).scale > 0.0
  {
    FitScalePositive(innerHeight);
  }

  /** Once a wheel event has been committed (its container was measurable),
      the scale stays in [MinScale, MaxScale] whatever follows, even when the
      mount-time fit started outside that range. */
  lemma {:induction false} ScaleInBoundsAfterWheel(v: View, evs: seq<Event>, i: nat)
    requires Valid(v)
    requires i < |evs| && evs[i].Wheel? && evs[i].container.Some?
    ensures InBounds(Run(v, evs).scale)
  {
    assert evs == evs[..i] + [evs[i]] + evs[i + 1..];
    RunAppend(v, evs[..i] + [evs[i]], evs[i + 1..]);
    RunAppend(v, evs[..i], [evs[i]]);
    var before := Run(v, evs[..i]);
    assert Run(before, [evs[i]]) == Run(Step(before, evs[i]), []);
  }

  /** Events other than wheel events never change the scale. */
  lemma {:induction false} NoWheelKeepsScale(v: View, evs: seq<Event>)
    requires Valid(v)
    requires forall k :: 0 <= k < |evs| ==> !evs[k].Wheel?
    ensures Run(v, evs).scale == v.scale
    decreases |evs|
  {
    if evs != [] {
      NoWheelKeepsScale(Step(v, evs[0]), evs[1..]);
    }
  }

  /** During a drag, a run of mouse moves keeps the anchor and the scale, and
      leaves the offset at the last pointer position minus the anchor: moves
      do not accumulate. */
  lemma {:induction false} MovesFollowAnchor(d: View, anchor: Point, moves: seq<Event>)
    requires Valid(d) && d.dragStart == Some(anchor)
    requires forall k :: 0 <= k < |moves| ==> moves[k].MouseMove?
    ensures Run(d, moves).dragStart == Some(anchor)
    ensures Run(d, moves).scale == d.scale
    ensures Run(d, moves).offset == if moves == [] then d.offset else moves[|moves| - 1].client.Minus(anchor)
    decreases |moves|
  {
    if moves != [] {
      MovesFollowAnchor(Step(d, moves[0]), anchor, moves[1..]);
    }
  }

  /** Pressing at p1 and moving the pointer around translates the layer by the
      displacement from p1 to the last pointer position; coming back to p1
      restores the offset at mouse-down. */
  lemma DragFollowsPointer(v: View, p1: Point, moves: seq<Event>)
    requires Valid(v)
    requires |moves| > 0 && forall k :: 0 <= k < |moves| ==> moves[k].MouseMove?
    ensures Run(v, [MouseDown(p1)] + moves).offset == v.offset.Plus(moves[|moves| - 1].client.Minus(p1))
    ensures moves[|moves| - 1].client == p1 ==> Run(v, [MouseDown(p1)] + moves).offset == v.offset
    ensures Run(v, [MouseDown(p1)] + moves).scale == v.scale
  {
    RunAppend(v, [MouseDown(p1)], moves);
    var d := BeginDrag(v, p1);
    assert Run(v, [MouseDown(p1)]) == Run(d, []);
    MovesFollowAnchor(d, p1.Minus(v.offset), moves);
  }

  /** Mouse-leave ends a drag exactly as mouse-up does, and a second release
      changes nothing. */
  lemma ReleaseIsIdempotent(v: View, first: Event, second: Event)
    requires Valid(v)
    requires first.MouseUp? || first.MouseLeave?
    requires second.MouseUp? || second.MouseLeave?
    ensures Step(v, first) == Step(v, MouseUp)
    ensures Run(v, [first, second]) == Step(v, MouseUp)
    ensures Cursor(Step(v, first)) == "grab"
  {
    assert [first, second][1..] == [second];
    assert Run(v, [first, second]) == Run(Step(v, first), [second]);
  }

  /** Pressing and releasing without moving leaves offset and scale as they were. */
  lemma PressReleaseKeepsView(v: View, p: Point)
    requires Valid(v)
    ensures Run(v, [MouseDown(p), MouseUp]) == v.(dragStart := None)
  {
    assert [MouseDown(p), MouseUp][1..] == [MouseUp];
    assert Run(v, [MouseDown(p), MouseUp]) == Run(BeginDrag(v, p), [MouseUp]);
  }
}
