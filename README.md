# yoda map viewer core, modelled in Dafny

This project models the sequential core of the `yoda` map viewer (Rust) and proves properties
of it. It covers five parts:

- **Tile addressing** (`tile_scheme.dfy`, module `TileScheme`). A `TileSchema` is a pyramid of
  `TileLevel`s over a world envelope. `select_level` picks the first level whose resolution
  times 0.99 is below the requested one. `get_indices` clamps a bounding box to the envelope,
  turns it into column and row ranges with floor and ceil (rows counted upwards or downwards),
  and lists the product of the two ranges as `TileIndex`es. The default scheme is the 18-level
  Web Mercator pyramid of 256-pixel tiles.
- **The mouse state machine** of `src/control/mod.rs` (`control.dfy`, module `Control`). Each
  button has a down position, with `i32::MIN` as the "not pressed" sentinel. A release within
  the Manhattan threshold clicks. A cursor move emits one drag, for the first held button in the
  order Left, Right, Middle. The mouse wheel zooms through a debounce window.
- **The older control** of `src/control.rs` (`legacy_control.dfy`, module `LegacyControl`).
  Only the left button keeps a down position, so only it clicks. Right and middle are flags.
  Drags and zooms go to `Map::trigger` as `MapEvent`s.
- **The viewport** of `src/map.rs` (`map_view.dfy`, module `MapView`). These are the scalar
  operations of `MapPosition`: centre, resolution, screen size, tilt and rotation, and zoom.
  The module also covers the routing of `MapEvent`s in `Map::handle_event`.
- **The default navigation control** of `src/control/default.rs` (`default_control.dfy`,
  module `DefaultControl`). It covers attaching and detaching handlers, and the drag and zoom
  handlers with the `EventState` each returns.

`primitives.dfy` holds the shared values: `Point`, pixel positions, `Option`, and floor, ceil,
min and max. `events.dfy` holds the input events (winit's mouse button, element state and
scroll delta) and the output events (`ClickEvent`, `DragEvent`, `ZoomEvent`, `MapEvent`,
`EventState`). `TileIndex` follows `src/layer/tile_layer/mod.rs:9-20`.

Each object the source updates in place is a class.

- Its fields are those of the source, with one exception. The objects that trigger events
  (`Control.MapEventDispatcher`, `LegacyControl.MapControl`) and `MapView.Map` do not hold
  the handler store. In its place they hold a log: `emitted` in the newer control, `sent` in
  the older one, and `clicks` and `listener_calls` on `Map`. Of `Map`'s own fields only
  `position` is kept. Its layers, animation and control state are left out.
- A `Snapshot()` reads the fields as a value.
- Every method is specified by a transition function on that value, for example
  `Snapshot() == MouseReleasedStep(old(Snapshot()), button, settings)`.
- The properties are lemmas about the transition functions.

`get_indices`, `select_level` and `TileSchema::default` keep their loops. Each is proved equal
to a function (`Cover`, `SelectedIndex`, `DefaultTileSchema`) whose properties are lemmas.

Conventions:

- `f32` and `f64` are real numbers.
- `i32` and `u32` values are unbounded integers, except where wrap-around is modelled
  explicitly (`WrapI32`, `CastToI32`).
- `Instant` is an integer millisecond clock `now` supplied by the caller.
- A triggered event is appended to a log of emitted events.

A zoom about the cursor would keep the map point under the cursor fixed; this `zoom` does
not. In an unrotated view the point under the zoom pixel drifts away from
the centre by `(delta - 1)^2 / delta` times its offset. It stays put only when `delta` is 1
or the pixel shows the centre. `MapView.ZoomDrift` proves this about `zoom`
(src/map.rs:199-214).

Opaque computations are inputs, supplied as function parameters:

- `f32::powf` is a parameter `pow`.
- The matrix and trigonometric parts of the view form a `Geometry`:
  - `get_map_position` of a pixel;
  - `inverse_rotation` applied to a pixel movement;
  - `sqrt` and `acos`.

## Model

| member | source | states |
|---|---|---|
| Primitives.Floor | src/layer/tile_layer/tile_scheme.rs:29 | `floor`: the largest integer not above the value |
| Primitives.Ceil | src/layer/tile_layer/tile_scheme.rs:30 | `ceil`: the smallest integer not below the value |
| Primitives.MaxReal | src/layer/tile_layer/tile_scheme.rs:29 | `f32::max`: an upper bound of both operands that is one of them |
| Primitives.MinReal | src/layer/tile_layer/tile_scheme.rs:30 | `f32::min`: a lower bound of both operands that is one of them |
| Primitives.Abs | src/control/mod.rs:195 | `abs`: the value or its negation, never negative |
| Events.CastToI32 | src/control/mod.rs:113 | `f64 as i32`: truncation toward zero inside the `i32` range, saturation at either end |
| Events.CastWholeNumber | src/control/mod.rs:113 | whole cursor coordinates in the `i32` range pass through the cast unchanged |
| Events.WrapI32 | src/control/mod.rs:194-196 | release-build `i32` overflow: the result is in range, differs from the exact value by 0 or ±2^32, and equals it when it is in range |
| Events.WrappingAbsI32 | src/control/mod.rs:195 | release-build `i32::abs`: the absolute value, except that `i32::MIN` maps to itself |
| Control.ButtonPressedPosition | src/control/mod.rs:45-52 | the stored down position of a button; an `Other` button always reads as the sentinel |
| Control.WithButtonPosition | src/control/mod.rs:36-43 | only the named button's down position changes, to `val`; the cursor and every other button are kept; `Other` changes nothing |
| Control.ButtonPressed | src/control/mod.rs:54-56 | an `Other` button, or one whose down position has the sentinel `i32::MIN` as x (whatever its y), never reads as pressed |
| Control.AnyButtonPressed | src/control/mod.rs:54-60 | true exactly when some button, of any kind, reads as pressed |
| Control.DragButton | src/control/mod.rs:143-162 | the drag button is a held tracked button chosen Left > Right > Middle; there is none exactly when no button is held |
| Control.Displacement | src/control/mod.rs:194-196 | zero exactly for equal positions, and at least each coordinate difference; `DisplacementIsManhattan` pins it down as the Manhattan distance |
| Control.DisplacementIsManhattan | src/control/mod.rs:194-196 | a move along one axis costs the coordinate difference, and the distance is the sum of the two legs through the corner `(p2.x, p1.y)`: the Manhattan distance |
| Control.DisplacementIsMetric | src/control/mod.rs:194-196 | the distance is symmetric and satisfies the triangle inequality |
| Control.WrappingDisplacement | src/control/mod.rs:194-196 | `displacement` with release-build wrap-around: in the `i32` range, and equal to the exact distance when no step overflows |
| Control.UnheldReleaseClicksAsWritten | src/control/mod.rs:123-131 | as written, the wrapped distance from the sentinel to an on-screen cursor `(x, y)` is `-(x+y)`, within any non-negative threshold, while the exact distance exceeds `i32::MAX` |
| Control.Elapsed | src/control/mod.rs:169 | `elapsed()` in ms: `now - since` when the clock has not gone back, otherwise 0 |
| Control.WheelDy | src/control/mod.rs:173-176 | no contract of its own: the vertical scroll of either kind of delta; `Control.WheelZoom` states how it decides the zoom |
| Control.ZoomBase | src/control/mod.rs:173-185 | a wheel notch has a base factor exactly when its vertical scroll is non-zero |
| Control.ZoomBasesAreReciprocal | src/control/mod.rs:178-185 | scrolling up gives a factor above 1, scrolling down one below 1, and the two multiply to 1 |
| Control.MousePressedStep | src/control/mod.rs:119-121 | a press stores the cursor as the button's down position and emits nothing; the cursor, `last_zoom_time` and every other button's down position are kept; an `Other` button changes nothing |
| Control.ReleaseClick | src/control/mod.rs:123-128 | a release clicks exactly when the down position is within `max_click_displacement` (inclusive) of the cursor, and the click is at the cursor with that button |
| Control.MouseReleasedStep | src/control/mod.rs:123-131 | after a release the button is not pressed; the cursor, `last_zoom_time` and every other button's down position are kept |
| Control.MoveDrag | src/control/mod.rs:141-163 | a move drags exactly when a button is held; the drag carries the priority button, `dx = x - prev_x`, `dy = -(y - prev_y)` and the new cursor |
| Control.CursorMovedStep | src/control/mod.rs:141-166 | after a move the cursor is `(x, y)`, whether or not a drag fired; the down positions and `last_zoom_time` are kept |
| Control.WheelZoom | src/control/mod.rs:168-187 | a wheel event zooms exactly when at least `zoom_delay` ms have passed and the vertical scroll is non-zero; the factor is the base raised to the wheel speed |
| Control.WheelStep | src/control/mod.rs:168-191 | the wheel never changes the mouse state |
| Control.HandleEventStep | src/control/mod.rs:103-117 | no contract of its own: the routing of `handle_event`; `Control.StepEmitsAtMostOne` and `Control.RunEmitsAtMostOnePerEvent` state its properties |
| Control.MouseState.constructor | src/control/mod.rs:16-25 | the default state: cursor at (0, 0), every down position the sentinel, no button pressed |
| Control.MouseState.CaptureButtonPosition | src/control/mod.rs:36-43 | the object's new state is `WithButtonPosition` of the old one |
| Control.MouseState.CaptureButtonPressed | src/control/mod.rs:28-30 | the button's down position becomes the old cursor position |
| Control.MouseState.CaptureButtonReleased | src/control/mod.rs:32-34 | the button's down position becomes the sentinel |
| Control.ControlState.constructor | src/control/mod.rs:70-78 | default mouse state, map size (0, 0), last zoom at `now` |
| Control.MapEventDispatcher.constructor | src/control/mod.rs:80-83 | a dispatcher over the given state and settings, with nothing emitted yet |
| Control.MapEventDispatcher.MousePressed | src/control/mod.rs:119-121 | the new state is `MousePressedStep` of the old |
| Control.MapEventDispatcher.Trigger | src/control/mod.rs:133-139 | the event is appended to the emitted log |
| Control.MapEventDispatcher.MouseReleased | src/control/mod.rs:123-131 | the new state is `MouseReleasedStep` of the old |
| Control.MapEventDispatcher.CursorMoved | src/control/mod.rs:141-166 | the new state is `CursorMovedStep` of the old |
| Control.MapEventDispatcher.Wheel | src/control/mod.rs:168-191 | the new state is `WheelStep` of the old; the map size is kept |
| Control.MapEventDispatcher.HandleEvent | src/control/mod.rs:103-117 | the new state is `HandleEventStep` of the old: presses, releases, moves (cast to `i32`) and wheel events are routed, and other events are ignored |
| Control.StepEmitsAtMostOne | src/control/mod.rs:102-117 | one window event keeps the log and appends at most one event |
| Control.PressRecordsCursor | src/control/mod.rs:28-60 | after a press the button reads as held unless the cursor's x is the sentinel; the other buttons' positions are kept in every case |
| Control.ReleaseClicksWithinThreshold | src/control/mod.rs:123-131 | a release appends exactly one click when within the threshold and nothing otherwise; the button is then the sentinel |
| Control.PressReleaseInPlaceClicks | src/control/mod.rs:119-131 | a press and a release without a move click at the cursor |
| Control.ReleaseUnheldDoesNotClick | src/control/mod.rs:123-131 | releasing a button that is not held, with the cursor on screen and an `i32` threshold, emits no click (exact distance) |
| Control.MoveEmitsPriorityDrag | src/control/mod.rs:141-166 | no drag without a held button; otherwise exactly one drag for the priority button, with y pointing up; the cursor is stored in every case |
| Control.WheelDebounce | src/control/mod.rs:168-191 | inside the debounce window, or with no vertical scroll, nothing changes; otherwise one zoom at the cursor is emitted and the window restarts at `now` |
| Control.RapidWheelZoomsOnce | src/control/mod.rs:168-191 | two wheel events less than `zoom_delay` ms apart zoom at most once |
| Control.RunEmitsAtMostOnePerEvent | src/control/mod.rs:102-117 | over any run the log only grows, by at most one event per window event |
| Control.LeftClickWithSmallWobble | src/control/mod.rs:119-166 | a press, a move of 2 right and 1 down, and a release give one drag and then one click at the new cursor |
| Control.LeftDragTooFarToClick | src/control/mod.rs:119-166 | a press, a move of 4 pixels and a release give one drag and no click |
| LegacyControl.LeftButtonPressed | src/control.rs:22-24 | the sentinel `[MIN, MIN]` reads as not pressed, the derived default `[0, 0]` as pressed |
| LegacyControl.PressedStep | src/control.rs:83-90 | Left stores the cursor as its down position, Right and Middle raise their flags, `Other` changes nothing; nothing is sent |
| LegacyControl.ReleasedStep | src/control.rs:92-107 | Left resets its down position to the sentinel; Right and Middle lower their flags and send nothing; `Other` changes nothing |
| LegacyControl.MoveEvent | src/control.rs:117-133 | a move sends a drag exactly when a button is held: `Drag` for Left, else `RightButtonDrag` at the previous cursor, else `MiddleButtonDrag`; dy is negated |
| LegacyControl.MovedStep | src/control.rs:117-136 | after a move the cursor is `(x, y)` in every case; the event of `MoveEvent`, if any, is sent after those already sent, and nothing else is sent |
| LegacyControl.MoveAgreesWithNewerControl | src/control.rs:117-136 | with matching button states, the older control drags exactly when the newer one does, with the same `dx` and `dy`, as `Drag`, `RightButtonDrag` about the previous cursor or `MiddleButtonDrag` for the newer control's left, right or middle drag |
| LegacyControl.LegacyWheelStep | src/control.rs:138-161 | the wheel never changes the mouse state |
| LegacyControl.LegacyHandleEventStep | src/control.rs:67-81 | no contract of its own: the routing of `handle_event`; `LegacyControl.StepClicks` and `LegacyControl.ClicksOnlyFromLeftReleases` state its properties |
| LegacyControl.LegacyMouseState.constructor | src/control.rs:5-11 | the derived default: every field zero or false |
| LegacyControl.LegacyMouseState.CaptureLeftButtonPressed | src/control.rs:14-16 | the left down position becomes the cursor |
| LegacyControl.LegacyMouseState.CaptureLeftButtonReleased | src/control.rs:18-20 | the left down position becomes the sentinel |
| LegacyControl.LegacyControlState.constructor | src/control.rs:34-42 | default mouse state, map size (0, 0), last zoom at `now` |
| LegacyControl.MapControl.constructor | src/control.rs:44-47 | a control over the given state and settings, with nothing sent yet |
| LegacyControl.MapControl.MousePressed | src/control.rs:83-90 | the new state is `PressedStep` of the old |
| LegacyControl.MapControl.MouseReleased | src/control.rs:92-107 | the new state is `ReleasedStep` of the old |
| LegacyControl.MapControl.CursorMoved | src/control.rs:117-136 | the new state is `MovedStep` of the old |
| LegacyControl.MapControl.Wheel | src/control.rs:138-161 | the new state is `LegacyWheelStep` of the old; the map size is kept |
| LegacyControl.MapControl.HandleEvent | src/control.rs:67-81 | the new state is `LegacyHandleEventStep` of the old |
| LegacyControl.DefaultReadsLeftPressed | src/control.rs:5-24 | the derived default reads Left as held and Right and Middle as free, so the first move sends a left `Drag` |
| LegacyControl.LeftReleaseClicksWithinThreshold | src/control.rs:92-102 | a left release clicks at the cursor exactly when within the threshold; Left is then free |
| LegacyControl.SecondLeftReleaseDoesNotClick | src/control.rs:92-102 | a second left release with no press in between sends nothing (exact distance, on-screen cursor) |
| LegacyControl.StepClicks | src/control.rs:67-107 | one window event adds a click only if it is a left release, and then at most one |
| LegacyControl.ClicksOnlyFromLeftReleases | src/control.rs:67-107 | over any run there are no more clicks than left releases |
| LegacyControl.WheelAgreesWithNewerControl | src/control.rs:138-161 | the older wheel zooms exactly when the newer one does, with the same factor and cursor, and restarts the window the same way |
| MapView.CenterOf | src/map.rs:228-230 | no contract of its own: `center`; `MapView.SettersRoundTrip` proves it reads back what `set_center` set |
| MapView.ResolutionOf | src/map.rs:232-234 | no contract of its own: `resolution`; `MapView.SettersRoundTrip` proves it reads back what `set_resolution` set |
| MapView.WidthPxOf | src/map.rs:160-162 | no contract of its own: `width_px`; `MapView.SettersRoundTrip` proves it reads back the width given to `set_screen_size` |
| MapView.HeightPxOf | src/map.rs:164-166 | no contract of its own: `height_px`; `MapView.SettersRoundTrip` proves it reads back the height given to `set_screen_size` |
| MapView.UnrotatedMapPosition | src/map.rs:236-253 | no contract of its own: `get_map_position` at zero angles; `MapView.ZoomedMapPositionX`, `MapView.ZoomedMapPositionY` and `MapView.ZoomDrift` state where it puts the zoom pixel before and after a zoom |
| MapView.RightDragTurn | src/map.rs:92-117 | no turn when either drag vector has length zero: the cursor's map point is the centre (`v1`), or it is the centre moved by `(dx, dy)` times the resolution (`v2`); a turn is `acos` of a value of at most 1, or its negation |
| MapView.SetCenterPos | src/map.rs:152-154 | afterwards `center()` is `(x, y)`; scale, screen scale and angles are kept |
| MapView.SetResolutionPos | src/map.rs:156-158 | afterwards `resolution()` is `r`; only the scale changes |
| MapView.SetScreenSizePos | src/map.rs:220-222 | afterwards `width_px()` and `height_px()` are the window size; the z scale follows the width; only the screen scale changes |
| MapView.RotatePos | src/map.rs:180-185 | the tilt moves by `x` clamped to [0, 3π/8] and is exact inside the range; the rotation moves by `z` without bound; nothing else changes |
| MapView.ZoomPos | src/map.rs:199-214 | the scale is multiplied by `delta`; the centre moves to `c + (c - zoom_c)(1 - delta)`; the angles and screen are kept |
| MapView.TranslatePxPos | src/map.rs:172-178 | the centre moves against the inverse-rotated pixel movement, scaled by the resolution; scale, screen and angles are kept |
| MapView.RightDragPos | src/map.rs:92-117 | no turn leaves the position as it is; a turn changes only `rotation_z`, by the angle |
| MapView.MiddleDragPos | src/map.rs:119-122 | a middle drag is `rotate(dy * 0.005, 0)` and changes only the tilt |
| MapView.HandledPos | src/map.rs:77-126 | routing keeps the position valid; clicks and double clicks leave it alone |
| MapView.MapPosition.constructor | src/map.rs:256-268 | the default position: identity matrices and zero angles |
| MapView.MapPosition.SetCenter | src/map.rs:152-154 | the new state is `SetCenterPos` of the old |
| MapView.MapPosition.SetResolution | src/map.rs:156-158 | the new state is `SetResolutionPos` of the old |
| MapView.MapPosition.SetScreenSize | src/map.rs:220-222 | the new state is `SetScreenSizePos` of the old |
| MapView.MapPosition.Rotate | src/map.rs:180-185 | the new state is `RotatePos` of the old |
| MapView.MapPosition.Zoom | src/map.rs:199-214 | the new state is `ZoomPos` of the old, at the map point under `center_px` |
| MapView.MapPosition.TranslatePx | src/map.rs:172-178 | the new state is `TranslatePxPos` of the old |
| MapView.Map.constructor | src/map.rs:17-26 | a new map: default position, no clicks, no handler calls |
| MapView.Map.Listen | src/map.rs:129-140 | `on` is recorded as a handler call; the clicks are kept |
| MapView.Map.Unlisten | src/map.rs:129-140 | `off` is recorded as a handler call; the clicks are kept |
| MapView.Map.HandleEvent | src/map.rs:77-126 | the position becomes `HandledPos` of the old; only a `Click` reaches the listeners; the handler calls are kept |
| MapView.DefaultPosition | src/map.rs:256-268 | the default view is centred at (0, 0), with resolution 1, both angles 0 and a 2 by 2 screen |
| MapView.ZoomKeepsCentre | src/map.rs:199-214 | zooming divides the resolution by `delta` and keeps the angles; with `delta` 1 or at the centre, the centre stays |
| MapView.DriftAlongAxis | src/map.rs:199-214 | along one axis, the point under the zoom pixel moves by `(delta-1)(1-1/delta)` times its offset from the centre |
| MapView.DriftFactorZero | src/map.rs:206-207 | that factor is zero exactly when `delta` is 1 |
| MapView.ScaledOffsetZero | src/map.rs:203-210 | a point moved by `k` times its offset from the centre stays put exactly when `k` is 0 or it is the centre |
| MapView.ZoomedScalars | src/map.rs:199-214 | zooming keeps the position valid and the screen size, and divides the resolution by `delta` |
| MapView.ZoomedMapPositionX | src/map.rs:236-253 | in an unrotated view, the x of the map point under the zoom pixel after the zoom |
| MapView.ZoomedMapPositionY | src/map.rs:236-253 | in an unrotated view, the y of the map point under the zoom pixel after the zoom |
| MapView.ZoomDrift | src/map.rs:199-214 | in an unrotated view, after the zoom the zoom pixel shows `zc + (zc - c)(delta-1)^2/delta`; it shows `zc` again exactly when `delta` is 1 or the pixel shows the centre |
| MapView.MiddleDragOnlyTilts | src/map.rs:119-122 | a middle drag changes only the tilt, which stays in range and is exact inside it |
| MapView.RightDragAtCentreDoesNothing | src/map.rs:92-104 | with the cursor over the centre (`v1` of length 0), a right drag changes nothing |
| MapView.RightDragOnlyTurns | src/map.rs:92-117 | a right drag changes at most `rotation_z` |
| MapView.SettersRoundTrip | src/map.rs:152-166 | `center` after `set_center`, `resolution` after `set_resolution`, and `width_px`/`height_px` after `set_screen_size` read back what was set; the centre and resolution setters do not disturb each other |
| MapView.ClicksLeavePositionAlone | src/map.rs:79-80 | clicks and double clicks leave the position alone |
| DefaultControl.AttachStep | src/control/default.rs:27-34 | attaching registers the drag handler and then the zoom handler, keeps both ids, and is attached |
| DefaultControl.DetachStep | src/control/default.rs:36-44 | on an attached control: `off` for the drag id then the zoom id, ids reset to 0, detached; on a detached control: nothing |
| DefaultControl.DetachIdempotent | src/control/default.rs:36-44 | detaching twice is detaching once |
| DefaultControl.AttachThenDetach | src/control/default.rs:27-44 | detaching after attaching unregisters exactly the registered ids in the same order and returns the control to new |
| DefaultControl.ZoomOutcome | src/control/default.rs:52-55 | `handle_zoom` always answers `Final` and keeps the position valid |
| DefaultControl.DragOutcome | src/control/default.rs:57-76 | `handle_drag` answers `Continue` exactly for an `Other` button, which changes nothing |
| DefaultControl.HandlersAgreeWithMapRouting | src/control/default.rs:52-76 | the handlers move the position as `Map::handle_event` does for the matching `MapEvent` |
| DefaultControl.RightDragIsFinal | src/control/default.rs:78-106 | a right drag always answers `Final`, changes at most `rotation_z`, and changes nothing when the cursor's map point is the centre or the centre moved by `(dx, dy)` times the resolution |
| DefaultControl.MiddleDragIsFinal | src/control/default.rs:71-76 | a middle drag answers `Final` and only tilts, by `dy * 0.005` inside the range |
| DefaultControl.DefaultMapControl.constructor | src/control/default.rs:19-21 | a new control holds no map and zero ids |
| DefaultControl.DefaultMapControl.IsAttached | src/control/default.rs:23-25 | no contract of its own: whether a map is held; `Attach`, `Detach` and `Drop` state it afterwards |
| DefaultControl.DefaultMapControl.Attach | src/control/default.rs:27-34 | the control holds the map and the ids; the map records the two `on` calls |
| DefaultControl.DefaultMapControl.Detach | src/control/default.rs:36-44 | the control no longer holds a map; the map it held records the two `off` calls |
| DefaultControl.DefaultMapControl.Drop | src/control/default.rs:46-50 | dropping detaches |
| DefaultControl.HandleZoom | src/control/default.rs:52-55 | the position and answer are `ZoomOutcome` |
| DefaultControl.HandleLeftButtonDrag | src/control/default.rs:66-69 | `translate_px`, then `Final` |
| DefaultControl.HandleMiddleButtonDrag | src/control/default.rs:71-76 | `rotate(dy * 0.005, 0)`, then `Final` |
| DefaultControl.HandleRightButtonDrag | src/control/default.rs:78-106 | the guarded turn about z, then `Final` whichever guard returns |
| DefaultControl.HandleDrag | src/control/default.rs:57-64 | the position and answer are `DragOutcome` |
| TileScheme.Reverse | src/layer/tile_layer/tile_scheme.rs:125 | no contract of its own: `Ordering::reverse`; `TileScheme.CompareLevels` states the reversed order it yields |
| TileScheme.CompareReals | src/layer/tile_layer/tile_scheme.rs:124 | no contract of its own: `partial_cmp` on non-NaN values; `TileScheme.CompareLevels` states the order it yields |
| TileScheme.CompareLevels | src/layer/tile_layer/tile_scheme.rs:121-133 | a level sorts before another exactly when its resolution is larger, and equal exactly when the resolutions are equal |
| TileScheme.CompareLevelsIsOrder | src/layer/tile_layer/tile_scheme.rs:113-133 | the level order is antisymmetric and transitive |
| TileScheme.InsertLevel | src/layer/tile_layer/tile_scheme.rs:102 | inserting into a coarsest-first list keeps it coarsest-first and adds exactly that level |
| TileScheme.PrependCoarsest | src/layer/tile_layer/tile_scheme.rs:102 | a level at least as coarse as all others can go in front of a coarsest-first list |
| TileScheme.HeadIsCoarsest | src/layer/tile_layer/tile_scheme.rs:102 | the head of a coarsest-first list is at least as coarse as the rest |
| TileScheme.SortLevels | src/layer/tile_layer/tile_scheme.rs:102 | `SortedVec::from`: the result is coarsest-first and a permutation of the input |
| TileScheme.SortedHeadIsCoarsest | src/layer/tile_layer/tile_scheme.rs:140-156 | after sorting, `levels[0]` is a level of the input at least as coarse as every other |
| TileScheme.SortStrictlySortedIsIdentity | src/layer/tile_layer/tile_scheme.rs:102 | sorting strictly coarsest-first levels leaves them as they are |
| TileScheme.SortTwoLevelsExample | src/layer/tile_layer/tile_scheme.rs:144-155 | sorting resolutions 1.0 and 2.0 puts 2.0 first |
| TileScheme.Accepts | src/layer/tile_layer/tile_scheme.rs:68 | no contract of its own: the test `resolution * 0.99 < requested`; `TileScheme.SelectedIndex` states the selection it drives |
| TileScheme.FirstAcceptedFrom | src/layer/tile_layer/tile_scheme.rs:66-73 | the scan from `from` stops at the first accepting level, or at the last level |
| TileScheme.SelectedIndex | src/layer/tile_layer/tile_scheme.rs:65-74 | the first level with `resolution * 0.99 < requested`, or the last level when none qualifies |
| TileScheme.SelectedLevel | src/layer/tile_layer/tile_scheme.rs:65-74 | no contract of its own: the level at `SelectedIndex`; `TileScheme.SelectedLevelIsALevel` states its properties |
| TileScheme.SelectedLevelIsALevel | src/layer/tile_layer/tile_scheme.rs:65-74 | the selected level is one of the schema's levels, and accepts the request unless it is the last level and no level accepts |
| TileScheme.SelectLevel | src/layer/tile_layer/tile_scheme.rs:65-74 | the loop returns the level at `SelectedIndex` |
| TileScheme.SelectLevelMonotone | src/layer/tile_layer/tile_scheme.rs:65-74 | a smaller request never selects an earlier level |
| TileScheme.SelectedResolutionMonotone | src/layer/tile_layer/tile_scheme.rs:65-74 | with coarsest-first levels, a smaller request never selects a coarser level |
| TileScheme.TileWidth | src/layer/tile_layer/tile_scheme.rs:26 | a tile's width in map units is positive |
| TileScheme.TileHeight | src/layer/tile_layer/tile_scheme.rs:27 | a tile's height in map units is positive |
| TileScheme.Ranges | src/layer/tile_layer/tile_scheme.rs:26-49 | no contract of its own: the clamped, outward-rounded column and row ranges; `TileScheme.ColumnsMeetBox` and `TileScheme.RowsMeetBox` state what they contain |
| TileScheme.Cover | src/layer/tile_layer/tile_scheme.rs:24-63 | no contract of its own: the list `get_indices` returns; `TileScheme.CoverShape` and `TileScheme.CoverIsExact` state its properties |
| TileScheme.GetIndices | src/layer/tile_layer/tile_scheme.rs:24-63 | the nested loops produce `Cover` |
| TileScheme.ColumnContents | src/layer/tile_layer/tile_scheme.rs:53-59 | the inner loop pushes rows `y_min, y_min + 1, …` of one column, one per row |
| TileScheme.GridLength | src/layer/tile_layer/tile_scheme.rs:51-62 | the product has `columns * rows` entries |
| TileScheme.GridMembers | src/layer/tile_layer/tile_scheme.rs:51-62 | the product holds exactly the indices inside both ranges, with the level's z |
| TileScheme.GridOrdered | src/layer/tile_layer/tile_scheme.rs:51-62 | the product is strictly increasing, column first, then row |
| TileScheme.CoverShape | src/layer/tile_layer/tile_scheme.rs:24-63 | `get_indices` has length `width(x range) * width(y range)`, contains exactly the range product with the selected z, in loop order |
| TileScheme.SpanMeets | src/layer/tile_layer/tile_scheme.rs:29-30 | tile `k` is in `floor(lo/size)..ceil(hi/size)` exactly when it starts before `hi` and ends after `lo` |
| TileScheme.AxisMeets | src/layer/tile_layer/tile_scheme.rs:33-36 | the same, measured upwards from the origin |
| TileScheme.AxisMeetsDownwards | src/layer/tile_layer/tile_scheme.rs:40-48 | the same, measured downwards from the origin |
| TileScheme.ColumnsMeetBox | src/layer/tile_layer/tile_scheme.rs:29-30 | a column is in the x range exactly when it starts before the clamped upper x bound and ends after the clamped lower one |
| TileScheme.RowsMeetBox | src/layer/tile_layer/tile_scheme.rs:31-49 | a row is in the y range exactly when it starts before the clamped upper y bound and ends after the clamped lower one, in the scheme's direction |
| TileScheme.RowsMeetBoxUpwards | src/layer/tile_layer/tile_scheme.rs:33-36 | the bottom-to-top case of `RowsMeetBox` |
| TileScheme.RowsMeetBoxDownwards | src/layer/tile_layer/tile_scheme.rs:40-48 | the top-to-bottom case of `RowsMeetBox` |
| TileScheme.CoverIsExact | src/layer/tile_layer/tile_scheme.rs:24-63 | a tile is returned exactly when it belongs to the selected level and, on each axis, starts before the clamped upper bound and ends after the clamped lower bound |
| TileScheme.OverlapIsMeeting | src/layer/tile_layer/tile_scheme.rs:29-48 | for bounds that do not cross, "starts before `hi` and ends after `lo`" is exactly the open tile interval meeting the closed interval `lo..hi` |
| TileScheme.ColumnInteriorMeetsBox | src/layer/tile_layer/tile_scheme.rs:29-30 | with uncrossed clamped x bounds, a column passes the overlap test exactly when some x inside the clamped bounds lies strictly inside the column |
| TileScheme.RowInteriorMeetsBox | src/layer/tile_layer/tile_scheme.rs:31-49 | with uncrossed clamped y bounds, a row passes the overlap test exactly when some y inside the clamped bounds lies strictly inside the row, in either direction |
| TileScheme.CoverMeetsClampedBox | src/layer/tile_layer/tile_scheme.rs:24-63 | when the box meets the envelope, a tile is returned exactly when it belongs to the selected level and its open interior meets the closed clamped box: none is missing and none is superfluous |
| TileScheme.CoverClampsToEnvelope | src/layer/tile_layer/tile_scheme.rs:29-48 | a box and its intersection with the envelope give the same tiles |
| TileScheme.CoverOfOversizedBox | src/layer/tile_layer/tile_scheme.rs:264-274 | a box containing the envelope gives the envelope's tiles |
| TileScheme.SpanEmptyAtGridLine | src/layer/tile_layer/tile_scheme.rs:29-30 | an empty interval whose bound lies on a grid line gives an empty tile range |
| TileScheme.ClampedSpanEmpty | src/layer/tile_layer/tile_scheme.rs:29-36 | an interval disjoint from an on-grid envelope clamps to an empty tile range |
| TileScheme.ClampedSpanEmptyDownwards | src/layer/tile_layer/tile_scheme.rs:40-48 | the same for rows counted downwards |
| TileScheme.RangesOfDisjointBox | src/layer/tile_layer/tile_scheme.rs:29-48 | for a box disjoint from an on-grid envelope, one of the ranges is empty |
| TileScheme.CoverOfDisjointBoxIsEmpty | src/layer/tile_layer/tile_scheme.rs:289-295 | a box disjoint from an on-grid envelope gives no tiles |
| TileScheme.DisjointBoxOffGridExample | src/layer/tile_layer/tile_scheme.rs:29-30 | without the grid condition, a disjoint box can still give a tile |
| TileScheme.DefaultResolution | src/layer/tile_layer/tile_scheme.rs:79-89 | no contract of its own: level `z`'s resolution; `TileScheme.DefaultResolutionPositive` and `TileScheme.DefaultResolutionDecreasing` state its properties |
| TileScheme.DefaultLevels | src/layer/tile_layer/tile_scheme.rs:84-89 | no contract of its own: the 18 default levels; `TileScheme.DefaultSchemaFacts` states their properties |
| TileScheme.DefaultTileSchema | src/layer/tile_layer/tile_scheme.rs:77-105 | no contract of its own: the default scheme; `TileScheme.DefaultSchemaFacts` and `TileScheme.DefaultSchema` state its properties |
| TileScheme.DefaultResolutionPositive | src/layer/tile_layer/tile_scheme.rs:79-89 | every default resolution is positive |
| TileScheme.DefaultResolutionDecreasing | src/layer/tile_layer/tile_scheme.rs:84-89 | default resolutions strictly decrease with z |
| TileScheme.DefaultSchemaFacts | src/layer/tile_layer/tile_scheme.rs:77-105 | the default scheme: 18 levels with z 0..17, each half the previous resolution, strictly coarsest-first, 256 x 256 tiles, top to bottom, origin at the top-left corner of the envelope |
| TileScheme.DefaultSchema | src/layer/tile_layer/tile_scheme.rs:77-105 | the loop that builds the levels, followed by the sort, gives `DefaultTileSchema` |
| TileScheme.DefaultSelectLevelExamples | src/layer/tile_layer/tile_scheme.rs:159-185 | at level 0's resolution, ±1, and ×2: level 0; at /2 and /1.5: level 1 |
| TileScheme.DefaultSelectFinestExamples | src/layer/tile_layer/tile_scheme.rs:187-199 | requests finer than the last level select the last level |
| TileScheme.SimpleSchema | src/layer/tile_layer/tile_scheme.rs:202-224 | no contract of its own: the tests' schema; `TileScheme.SimpleSchemaLevelsSorted` shows its levels are as `SortedVec::from` leaves them |
| TileScheme.SimpleSchemaLevelsSorted | src/layer/tile_layer/tile_scheme.rs:202-224 | sorting the test schema's levels leaves them as written |
| TileScheme.SortThreeSortedLevels | src/layer/tile_layer/tile_scheme.rs:209-222 | three strictly coarsest-first levels sort to themselves |
| TileScheme.CoverAtLevel | src/layer/tile_layer/tile_scheme.rs:51-62 | with the selected level and its ranges known, the length and bounds of the result follow |
| TileScheme.WholeEnvelopeOneTile | src/layer/tile_layer/tile_scheme.rs:226-232 | the whole envelope at resolution 1 is the single tile (0, 0, 0) |
| TileScheme.WholeEnvelopeFourTiles | src/layer/tile_layer/tile_scheme.rs:234-240 | at 0.5: 4 tiles of z 1 in columns and rows 0..1 |
| TileScheme.WholeEnvelopeSixteenTiles | src/layer/tile_layer/tile_scheme.rs:242-248 | at 0.25: 16 tiles of z 2 in columns and rows 0..3 |
| TileScheme.WholeEnvelopeFinestRanges | src/layer/tile_layer/tile_scheme.rs:29-36 | the ranges of the whole envelope at level 2 are 0..4 by 0..4 |
| TileScheme.PartialIntersectionExample | src/layer/tile_layer/tile_scheme.rs:251-262 | the box (2, 2)-(8, 4) at 0.5: 2 tiles of z 1, columns 0..1, row 0 |
| TileScheme.LargeBoxExample | src/layer/tile_layer/tile_scheme.rs:264-274 | the box (-10, -10)-(20, 20) at 0.5: 4 tiles in columns and rows 0..1 |
| TileScheme.HighResolutionExample | src/layer/tile_layer/tile_scheme.rs:276-287 | the box (2, 2)-(3, 3) at 0.125: 4 tiles of z 2 in columns and rows 0..1 |
| TileScheme.NoIntersectionExample | src/layer/tile_layer/tile_scheme.rs:289-295 | the box (-10, -10)-(-5, -5) gives no tiles |
| TileScheme.TopToBottomExample | src/layer/tile_layer/tile_scheme.rs:297-310 | with origin (0, 10) and rows counted downwards: 4 tiles of z 2, columns 0..1, rows 2..3 |
| TileScheme.OtherTileSizeCoarse | src/layer/tile_layer/tile_scheme.rs:312-324 | 5 x 3 tiles at resolution 1: 6 tiles of z 0, columns 0..1, rows 0..2 |
| TileScheme.OtherTileSizeFine | src/layer/tile_layer/tile_scheme.rs:326-333 | at 0.5: 12 tiles of z 1, columns 0..2, rows 1..4 |
| TileScheme.MovedOriginExample | src/layer/tile_layer/tile_scheme.rs:335-347 | with origin (5, 5), the box (2.5, 2.5)-(7.5, 7.5) at 0.25: 4 tiles of z 2 in columns and rows -1..0 (inside the test's -1..1) |

## Left out

- `f32` rounding: every computation is over exact reals. Over reals the default envelope,
  2 × 20037508.342787 on each side, is a hair wider and taller than 256 tiles of level 0's
  resolution. So a full-world query at level 0 gives two columns and two rows (four tiles)
  where `f32` gives the single tile (0, 0, 0); none of the source's tests asks for that.
- The matrices, the trigonometry, `sqrt`, `acos` and `get_map_position` (src/map.rs:187-253)
  are supplied as a `Geometry`. `MapPosition` is modelled through the matrix entries the
  code reads. `matrix()` and `rotation()` are not modelled.
- `f32::powf` is a parameter, so no property of the power function is used.
- `HandlerStore`, `TypedHandlerStore` and the weak `upgrade` in `trigger` are not part of this
  model, and the store is taken to be alive. A triggered event is appended to a log. `on`
  and `off` are recorded as calls on the map, and the ids `on` returns are inputs to
  `Attach`. Handler ordering and `EventState` propagation between several handlers are not
  modelled.
- `Instant::now` and `elapsed` become an integer millisecond clock supplied by the caller. The
  `u128`/`u32` comparison is then exact.
- `Map`'s layers, `draw`, `add_layer`, `animate_to`, `animation_frame` and
  `MapPosition::translate` are left out. They are GPU and windowing code or `todo!()`.
  `Map::set_center` and `Map::set_resolution` only delegate to `MapPosition`, which is
  modelled.
- The `as i32` casts in `get_indices` (src/layer/tile_layer/tile_scheme.rs:29-46) are exact
  integers in the model. Saturation for astronomically large boxes is not modelled.
- Pixel arithmetic (`dx`, `dy`, `displacement`) uses unbounded integers. Overflow is modelled
  only in `WrappingDisplacement`, which documents the finding below.
- `MapView.SetResolutionPos` and `MapView.MapPosition.SetResolution` require `r != 0`, whose
  inverse-of-zero the source would turn into an infinite scale. `MapView.SetScreenSizePos` and
  `MapView.MapPosition.SetScreenSize` require a non-empty window.
- `MapView.HandledPos`, `MapView.Map.HandleEvent` and `DefaultControl.HandleZoom` require a
  valid position and a non-zero zoom `delta`. Floating-point infinities and NaNs are not
  modelled.
- `MapView.RightDragTurn`, `MapView.RightDragPos` and `DefaultControl.HandleRightButtonDrag`: the
  turn angle comes from the supplied `acos`. The lemmas show that nothing but `rotation_z`
  changes, and that nothing changes under the two zero-length guards. The `prod > 1` guard is
  modelled in the body of `MapView.RightDragTurn`; its contract reflects it only as a turn of
  `acos` of some value of at most 1, or its negation. No contract states the angle itself.
- `TileScheme.CoverIsExact` and `TileScheme.TileMeetsBox`: for a box that misses the envelope the
  clamped bounds cross (the low bound is above the high one), so the clamped box is empty, yet a
  tile can pass the overlap test and be returned while meeting nothing.
  `TileScheme.CoverMeetsClampedBox` states the interior reading only for uncrossed bounds.
- `TileScheme.CoverOfDisjointBoxIsEmpty` holds only when the envelope's edges lie on the
  selected level's tile boundaries, as in the default and the test schemas.
  `TileScheme.DisjointBoxOffGridExample` shows that without it a disjoint box can yield a tile.
- `SortedVec::from` uses an unstable sort. `TileScheme.SortLevels` is an insertion sort, so
  the order among levels of equal resolution is a choice of this model.
- The two control files cannot compile together. Each is modelled on its own terms: the older
  `ClickEvent` has no button, and its drags go to `Map::trigger`.
- `ClickEvent`, `DragEvent` and `ZoomEvent` are not defined in the files modelled. Their fields
  follow the way the controls construct them.

## Findings

| source | as written | input that shows it | evidently intended | confidence | as-written member | corrected member |
|---|---|---|---|---|---|---|
| src/control/mod.rs:194-196 | `displacement` subtracts the cursor from the `i32::MIN` down position of a button that is not held, and that subtraction overflows `i32` | releasing `Other(8)`, or a button pressed outside the window, with the cursor at (10, 10): a release build computes distance -20, which is at most 3, so it emits a click; a debug build panics | a release without a matching press does not click | not executed; high for the arithmetic, which build profile ships is unknown | Control.UnheldReleaseClicksAsWritten | Control.ReleaseUnheldDoesNotClick |
| src/control.rs:164-166 | the same `displacement`, reached by a second left release with no press in between | left press and release at (10, 10), then another left release there: a release build clicks twice | one click per press | not executed; high for the arithmetic, which build profile ships is unknown | Control.UnheldReleaseClicksAsWritten | LegacyControl.SecondLeftReleaseDoesNotClick |
