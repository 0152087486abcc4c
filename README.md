# Viewport transform of the Tsushima map viewer

The map viewer draws a 5000 x 15000 pixel map layer in a full-window container
and lets the user pan it by dragging and zoom it with the mouse wheel. The
layer is drawn with `translate(offset) scale(scale)` about its top-left corner,
so the map point `w` appears on screen at `origin + offset + w * scale`, where
`origin` is the container's top-left corner. The component keeps three state
cells: `offset`, `scale` and the optional drag anchor `dragStart`.

This project models that viewport controller:

- `geometry.dfy` (module `Geometry`): points over `real` and an `Option` type.
- `viewport.dfy` (module `Viewport`): the constants (zoom speed 0.0015, scale
  range [0.1, 5], layer size 5000 x 15000, zoom factor 1.6), the pure formulas
  of the handlers (clamp, map point under the cursor, new offset, fit and
  centre), one transition function per handler on the value `View`, and the
  lemmas about them.
- `events.dfy` (module `Events`): the input events, the routing of each event
  to its handler (`Step`), the state reached after a sequence of events
  (`Run`), and lemmas over event sequences.
- `controller.dfy` (module `Controller`): the class `ViewController`. Its fields
  are the three state cells. Its methods are the handlers, each one atomic
  update of the fields, each proved equal to the matching transition function.

A few details of the code are worth noting:

- The scale range [0.1, 5] and the zoom speed are fixed constants in the code,
  not configuration. The model uses the constants.
- The mount-time fit sets `scale = innerHeight / 15000 * 1.6` with no clamp.
  So the scale need not lie in [0.1, 5] until the first committed wheel event
  (`FitIgnoresBounds`, `ScaleInBoundsAfterWheel`). The invariant that always
  holds is `scale > 0`, given a window of positive height. In a window shorter
  than 937.5 px the fitted scale is below 0.1, so the first committed wheel
  event lifts it to at least 0.1 (to exactly 0.1 unless it scrolls up far
  enough), and even a downward scroll zooms in.
- The wheel handler does not touch the drag anchor. A zoom during a drag
  therefore keeps the old anchor, and the next mouse move puts the offset back
  at `client - anchor`.

Inputs the browser provides become parameters. These are the window size for
the fit, the pointer's client position, the wheel's `deltaY`, and the
container's top-left corner as an `Option`. The `Option` is `None` when the map
element is not mounted.

## Model

| member | source | states |
|---|---|---|
| `Controller.ViewController.constructor` | src/App.jsx:45-47 | the initial cells are offset (0, 0), scale 1 and no drag; the initial state satisfies scale > 0 |
| `Controller.ViewController.FitToWindow` | src/App.jsx:107-125 | the mount effect sets scale and offset to the fitted, centred values (`FitWindow`) and leaves the drag anchor; for a window of positive height the new scale is positive |
| `Controller.ViewController.HandleMouseDown` | src/App.jsx:61-64 | the anchor becomes `client - offset`; offset and scale are unchanged |
| `Controller.ViewController.HandleMouseMove` | src/App.jsx:66-72 | without an anchor nothing changes; with one the offset becomes `client - anchor`; scale and anchor never change |
| `Controller.ViewController.HandleMouseUp` | src/App.jsx:74 | the anchor is cleared; offset and scale are unchanged |
| `Controller.ViewController.HandleWheel` | src/App.jsx:76-104 | the new state is `ZoomAt` of the old one: no change when the map element is missing, otherwise scale and offset are updated together, the scale lands in [0.1, 5] and stays positive |
| `Controller.ViewController.Dispatch` | src/App.jsx:246-249 | each event is routed to its handler, as the layer wires the mouse events and the container wires the wheel event (src/App.jsx:136), mouse-leave to the mouse-up handler; the result is `Step` of the old state |
| `Viewport.ScreenPoint` | src/App.jsx:257-258 | the reference definition of the layer's transform (translate by `offset`, then scale about the top-left corner, inside a container at `origin`); its ensures only restate that definition, and `WorldPoint`, `ZoomOffset`, `ZoomAnchorInvariant`, `ZoomScalesAboutCursor` and `FitCentres` are proved against it |
| `Viewport.FitScale` | src/App.jsx:112-123 | the fitted layer is 1.6 window heights tall; its scale is positive exactly for a positive height (`FitScalePositive`) |
| `Viewport.FitOffset` | src/App.jsx:116-121 | the fitted offset puts the scaled layer's horizontal and vertical middle at the window's middle |
| `Viewport.FitWindow` | src/App.jsx:107-125 | the mount effect keeps the drag anchor, gives positive scale for a window of positive height, and draws the layer's centre at the centre of the window-sized container, in container coordinates (`FitCentres`) |
| `Viewport.BeginDrag` | src/App.jsx:61-64 | offset and scale are kept and the anchor plus the offset is the press point (`DragIsTranslation`) |
| `Viewport.DragMove` | src/App.jsx:66-72 | scale and anchor are kept; with no anchor nothing changes (`MoveWithoutDragIsNoOp`); with one the new offset plus the anchor is the pointer position (`DragIsTranslation`, `DragBackRestores`) |
| `Viewport.EndDrag` | src/App.jsx:74 | no drag is left in progress; offset and scale are kept (`EndDragIdempotent`) |
| `Viewport.Cursor` | src/App.jsx:256 | the cursor is "grabbing" exactly when a drag is in progress and "grab" exactly when none is (`CursorShowsDrag`) |
| `Viewport.ClampScale` | src/App.jsx:80 | `min(max(0.1, s), 5)` always lies in [0.1, 5], is `s` itself when `s` is in range, and is the nearer bound otherwise |
| `Viewport.WheelScale` | src/App.jsx:79-80 | the scale after a wheel event lies in [0.1, 5] whatever the previous scale and `deltaY` |
| `Viewport.WheelScaleDirection` | src/App.jsx:79-80 | from an in-range scale, negative `deltaY` never zooms out, positive `deltaY` never zooms in, and an unclamped step is exactly `-deltaY * 0.0015` |
| `Viewport.WorldPoint` | src/App.jsx:90-94 | the computed map point is drawn exactly at the cursor under the current offset and scale (the inverse of the screen mapping) |
| `Viewport.WorldPointUnique` | src/App.jsx:90-94 | a map point is drawn at the cursor if and only if it is the computed map point |
| `Viewport.ZoomOffset` | src/App.jsx:96-100 | the new offset draws the given map point exactly at the cursor at the new scale |
| `Viewport.ZoomAt` | src/App.jsx:76-104 | a missing map element leaves the whole state unchanged (no partial update); otherwise the scale lands in [0.1, 5] and the drag anchor is kept |
| `Viewport.ZoomAnchorInvariant` | src/App.jsx:87-100 | `(mouse - left - newOffset) / newScale == (mouse - left - offset) / scale` for x and y: the map point under the cursor is the same before and after the zoom |
| `Viewport.ZoomScalesAboutCursor` | src/App.jsx:87-103 | the zoom scales every map point's screen position about the cursor by `newScale / scale` |
| `Viewport.ZoomExample` | src/App.jsx:79-100 | at scale 1, offset (0, 0), origin (0, 0), a wheel event of -100 at (100, 100) gives scale 1.15 and offset (-15, -15) |
| `Viewport.MoveWithoutDragIsNoOp` | src/App.jsx:66-67 | a mouse move with no drag in progress changes nothing |
| `Viewport.DragIsTranslation` | src/App.jsx:61-72 | after pressing at p1 and moving to p2, the offset is the offset at mouse-down plus `p2 - p1`; the scale and the anchor are unchanged |
| `Viewport.DragBackRestores` | src/App.jsx:61-72 | pressing at p1, moving anywhere and moving back to p1 restores the offset at mouse-down |
| `Viewport.DragKeepsScale` | src/App.jsx:61-74 | mouse-down, mouse-move and mouse-up never change the scale |
| `Viewport.EndDragIdempotent` | src/App.jsx:74 | ending a drag leaves no drag in progress and keeps the offset; ending twice is the same as ending once |
| `Viewport.CursorShowsDrag` | src/App.jsx:256 | the cursor is "grabbing" exactly when a drag is in progress; it is "grabbing" after mouse-down and "grab" after release |
| `Viewport.FitCentres` | src/App.jsx:107-124 | the fitted scale is `innerHeight / 15000 * 1.6`, the layer is 1.6 window heights tall, `offset.x + 5000 * scale / 2 == innerWidth / 2`, `offset.y + 15000 * scale / 2 == innerHeight / 2`, and the layer's centre is drawn at `origin` plus half the window size (the centre of the window-sized container), for any container origin |
| `Viewport.FitScalePositive` | src/App.jsx:112-123 | the fitted scale is positive exactly when the window height is positive |
| `Viewport.FitIgnoresBounds` | src/App.jsx:112-123 | the fitted scale is not clamped: a 500 px window gives a scale below 0.1 and a 50000 px one a scale above 5; in an 800 px window a downward scroll zooms in, and an upward scroll of 100 lifts the scale by 0.15 to above 0.1 |
| `Viewport.FitKeepsValid` | src/App.jsx:45-125 | both the initial state and the fitted state have positive scale, given a window of positive height |
| `Events.Step` | src/App.jsx:246-249 | every handler keeps the scale positive and keeps an in-range scale in range; a committed wheel event leaves the scale in [0.1, 5]; every non-wheel event leaves the scale unchanged |
| `Events.Run` | src/App.jsx:61-104 | after any sequence of events the scale is still positive, and an in-range scale is still in range |
| `Events.RunAppend` | src/App.jsx:61-104 | handling `a + b` is handling `a` and then `b` |
| `Events.MountedScalePositive` | src/App.jsx:76-125 | after the fit of a window of positive height and any sequence of events, the scale is positive, so the division by the scale in the wheel handler is defined |
| `Events.ScaleInBoundsAfterWheel` | src/App.jsx:80-103 | once a wheel event has been committed, the scale lies in [0.1, 5] after any further events |
| `Events.NoWheelKeepsScale` | src/App.jsx:61-74 | a sequence of non-wheel events leaves the scale unchanged |
| `Events.MovesFollowAnchor` | src/App.jsx:66-72 | during a drag, any run of mouse moves keeps the anchor and the scale, and the offset is the last pointer position minus the anchor |
| `Events.DragFollowsPointer` | src/App.jsx:61-72 | mouse-down at p1 followed by mouse moves translates the offset by the last position minus p1, restores it when the pointer returns to p1, and keeps the scale |
| `Events.ReleaseIsIdempotent` | src/App.jsx:248-249 | mouse-leave acts exactly like mouse-up, two releases in a row act like one, and the cursor is "grab" afterwards |
| `Events.PressReleaseKeepsView` | src/App.jsx:61-74 | mouse-down followed at once by mouse-up leaves offset and scale as they were and no drag in progress |

## Left out

- The markup, inline styles, CSS transforms and the transition string (src/App.jsx:133-357): these are presentation. Only the cursor hint and the screen mapping `origin + offset + w * scale` are modelled.
- The audio toggle (src/App.jsx:52-59): it drives a foreign media handle and has no viewport logic.
- The menu, the marker list and the marker popups (src/App.jsx:5-41, 43, 48): they only set or clear a selection value.
- The page-wide click listener that logs coordinates (src/App.jsx:128-130): debug output only.
- `preventDefault` calls and DOM measurement: `getBoundingClientRect`, `window.innerWidth` and `window.innerHeight` become parameters. A missing `parentElement` (which would throw) is not modelled: a mounted map element is assumed to have a parent.
- Floating point: JavaScript numbers are IEEE-754 doubles, so at runtime the anchor identity holds only up to rounding. The model uses exact `real` arithmetic. NaN and infinities are not modelled.
- A window of zero height: the fit then gives scale 0, and the next committed wheel event divides by zero. In JavaScript that gives an infinite offset, or NaN when the pointer is exactly on the layer's left or top edge, while the scale itself moves into [0.1, 5]. The model keeps `scale > 0` as an invariant, so `HandleWheel` and `Dispatch` require it. `FitToWindow` guarantees it only for a positive height.
- React scheduling: each handler is one atomic update of the three cells. Batched or stale-closure reads of `offset` and `scale` are not modelled.
- The wheel's `deltaMode` (pixels, lines or pages) is not modelled: `deltaY` is used as given, as the code does.
