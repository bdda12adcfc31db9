/** The mouse-input state machine of `src/control/mod.rs`: per-button down positions with an
    `i32::MIN` sentinel for "not pressed", clicks on release within a distance threshold, one drag
    per cursor move chosen by button priority, and a debounced mouse wheel. */
module Control {
  import opened Primitives
  import opened Events

  /** The down position of a button that is not held. */
  const RELEASED: Px := Px(I32_MIN, I32_MIN)

  /** `DELTA`: the zoom factor of one wheel notch before it is raised to the wheel speed. */
  const ZOOM_STEP: real := 1.1

  // ---------------------------------------------------------------------------------------
  // Mouse state as a value

  /** The fields of `MouseState`. */
  datatype Mouse = Mouse(
    cursor_position: Px,
    left_button_down_position: Px,
    middle_button_down_position: Px,
    right_button_down_position: Px)

  /** `MouseState::default`. */
  const DEFAULT_MOUSE: Mouse := Mouse(Px(0, 0), RELEASED, RELEASED, RELEASED)

  /** `button_pressed_position`: the stored down position; `Other` buttons are never tracked. */
  function ButtonPressedPosition(m: Mouse, button: MouseButton): (p: Px)
    ensures button.Other? ==> p == RELEASED
  {
    match button
    case Left => m.left_button_down_position
    case Right => m.right_button_down_position
    case Middle => m.middle_button_down_position
    case Other(_) => RELEASED
  }

  /** `capture_button_position`: the button's down position becomes `val`; everything else,
      the cursor included, is kept. An `Other` button changes nothing. */
  function WithButtonPosition(m: Mouse, button: MouseButton, val: Px): (r: Mouse)
    ensures r.cursor_position == m.cursor_position
    ensures forall b :: ButtonPressedPosition(r, b)
                        == if b == button && !button.Other? then val else ButtonPressedPosition(m, b)
    ensures button.Other? ==> r == m
  {
    match button
    case Left => m.(left_button_down_position := val)
    case Right => m.(right_button_down_position := val)
    case Middle => m.(middle_button_down_position := val)
    case Other(_) => m
  }

  /** `button_pressed`: the down position's x is not the sentinel. */
  function ButtonPressed(m: Mouse, button: MouseButton): (r: bool)
    ensures button.Other? ==> !r
    ensures ButtonPressedPosition(m, button).x == I32_MIN ==> !r
  {
    ButtonPressedPosition(m, button).x != I32_MIN
  }

  /** `any_button_pressed`: some button, of any kind, is held. */
  function AnyButtonPressed(m: Mouse): (r: bool)
    ensures r <==> exists b :: ButtonPressed(m, b)
  {
    ButtonPressed(m, Left) || ButtonPressed(m, Middle) || ButtonPressed(m, Right)
  }

  /** The button a cursor move drags with: the left button if held, else the right, else the
      middle; none when no button is held. */
  function DragButton(m: Mouse): (b: Option<MouseButton>)
    ensures b.None? <==> !AnyButtonPressed(m)
    ensures b.Some? ==> ButtonPressed(m, b.value) && !b.value.Other?
    ensures b == Some(Right) ==> !ButtonPressed(m, Left)
    ensures b == Some(Middle) ==> !ButtonPressed(m, Left) && !ButtonPressed(m, Right)
  {
    if ButtonPressed(m, Left) then Some(Left)
    else if ButtonPressed(m, Right) then Some(Right)
    else if ButtonPressed(m, Middle) then Some(Middle)
    else None
  }

  /** `displacement`: the Manhattan distance between two pixel positions. */
  function Displacement(p1: Px, p2: Px): (d: nat)
    ensures d == 0 <==> p1 == p2
    ensures d >= Abs(p1.x - p2.x) && d >= Abs(p1.y - p2.y)
  {
    Abs(p1.x - p2.x) + Abs(p1.y - p2.y)
  }

  /** `displacement` exactly as a release build computes it on `i32` coordinates: the two
      subtractions, the two `abs` calls and the sum all wrap around on overflow. It agrees with
      `Displacement` as long as no step overflows. */
  function WrappingDisplacement(p1: Px, p2: Px): (d: int)
    requires I32_MIN <= p1.x <= I32_MAX && I32_MIN <= p1.y <= I32_MAX
    requires I32_MIN <= p2.x <= I32_MAX && I32_MIN <= p2.y <= I32_MAX
    ensures I32_MIN <= d <= I32_MAX
    ensures I32_MIN < p1.x - p2.x <= I32_MAX && I32_MIN < p1.y - p2.y <= I32_MAX
            && Displacement(p1, p2) <= I32_MAX
            ==> d == Displacement(p1, p2)
  {
    WrapI32(WrappingAbsI32(WrapI32(p1.x - p2.x)) + WrappingAbsI32(WrapI32(p1.y - p2.y)))
  }

  /** As written, the distance from the released sentinel to an on-screen cursor `(x, y)` wraps
      round to `-(x + y)`, which is within any non-negative threshold: releasing a button that
      is not held (an `Other` button, or one pressed outside the window) clicks. */
  lemma UnheldReleaseClicksAsWritten(c: Px, settings: MapControlSettings)
    requires 0 <= c.x && 0 <= c.y && c.x + c.y <= I32_MAX
    requires settings.max_click_displacement >= 0
    ensures WrappingDisplacement(RELEASED, c) == -(c.x + c.y)
    ensures WrappingDisplacement(RELEASED, c) <= settings.max_click_displacement
    ensures Displacement(RELEASED, c) > I32_MAX
  {
    SentinelTerm(c.x);
    SentinelTerm(c.y);
  }

  /** One term of the wrapped distance from the sentinel to a non-negative coordinate `v`:
      `i32::MIN - v` wraps round to `2^31 - v`, except that `abs(i32::MIN)` stays `i32::MIN`. */
  lemma SentinelTerm(v: int)
    requires 0 <= v <= I32_MAX
    ensures WrappingAbsI32(WrapI32(I32_MIN - v)) == if v == 0 then I32_MIN else I32_MODULUS / 2 - v
  {
  }

  /** The distance is symmetric and obeys the triangle inequality. */
  lemma DisplacementIsMetric(p1: Px, p2: Px, p3: Px)
    ensures Displacement(p1, p2) == Displacement(p2, p1)
    ensures Displacement(p1, p3) <= Displacement(p1, p2) + Displacement(p2, p3)
  {
  }

  /** The distance is the Manhattan one: a move along one axis costs the coordinate
      difference, and the distance is the length of the path through the corner
      `(p2.x, p1.y)`. */
  lemma DisplacementIsManhattan(p1: Px, p2: Px, k: int)
    ensures Displacement(p1, Px(p1.x + k, p1.y)) == Abs(k) && Displacement(p1, Px(p1.x, p1.y + k)) == Abs(k)
    ensures Displacement(p1, p2) == Displacement(p1, Px(p2.x, p1.y)) + Displacement(Px(p2.x, p1.y), p2)
  {
  }

  // ---------------------------------------------------------------------------------------
  // Settings, events and the clock

  datatype MapControlSettings = MapControlSettings(
    mouse_wheel_speed: real,
    zoom_delay: nat,
    max_click_displacement: int)

  /** `MapControlSettings::default`. */
  const DEFAULT_SETTINGS: MapControlSettings := MapControlSettings(2.0, 50, 3)

  /** An event handed to the handler store by `trigger`. */
  datatype Triggered =
    | TriggeredClick(click: ClickEvent)
    | TriggeredDrag(drag: DragEvent)
    | TriggeredZoom(zoom: ZoomEvent)

  /** `Instant::elapsed().as_millis()`, with the clock read as whole milliseconds `now`;
      `elapsed` saturates at zero. */
  function Elapsed(now: int, since: int): (e: nat)
    ensures since <= now ==> since + e == now
    ensures now < since ==> e == 0
  {
    if now >= since then now - since else 0
  }

  /** The vertical scroll amount, in lines or in pixels. */
  function WheelDy(delta: ScrollDelta): real
  {
    match delta
    case LineDelta(_, dy) => dy
    case PixelDelta(_, y) => y
  }

  /** The factor of one notch before raising it to the wheel speed: `DELTA` for a scroll up,
      `1 / DELTA` for a scroll down, none for no vertical scroll. */
  function ZoomBase(dy: real): (b: Option<real>)
    ensures b.None? <==> dy == 0.0
  {
    if dy > 0.0 then Some(ZOOM_STEP) else if dy < 0.0 then Some(1.0 / ZOOM_STEP) else None
  }

  /** Scrolling up enlarges, scrolling down shrinks by the reciprocal factor. */
  lemma ZoomBasesAreReciprocal(up: real, down: real)
    requires up > 0.0 && down < 0.0
    ensures ZoomBase(up).Some? && ZoomBase(down).Some?
    ensures ZoomBase(up).value > 1.0 && 0.0 < ZoomBase(down).value < 1.0
    ensures ZoomBase(up).value * ZoomBase(down).value == 1.0
  {
  }

  // ---------------------------------------------------------------------------------------
  // The dispatcher as a transition function

  /** What one step of the dispatcher reads and writes: the mouse state, `last_zoom_time`, and
      the events triggered so far. */
  datatype Dispatch = Dispatch(mouse: Mouse, last_zoom_time: int, emitted: seq<Triggered>)

  /** `mouse_pressed`: the button's down position becomes the cursor position. */
  function MousePressedStep(d: Dispatch, button: MouseButton): (r: Dispatch)
    ensures r.emitted == d.emitted && r.last_zoom_time == d.last_zoom_time
    ensures r.mouse.cursor_position == d.mouse.cursor_position
    ensures !button.Other? ==> ButtonPressedPosition(r.mouse, button) == d.mouse.cursor_position
    ensures forall b :: b != button ==> ButtonPressedPosition(r.mouse, b) == ButtonPressedPosition(d.mouse, b)
    ensures button.Other? ==> r == d
  {
    d.(mouse := WithButtonPosition(d.mouse, button, d.mouse.cursor_position))
  }

  /** The click a release produces: one at the cursor when the button went down at most
      `max_click_displacement` away from it. */
  function ReleaseClick(m: Mouse, button: MouseButton, settings: MapControlSettings): (c: Option<ClickEvent>)
    ensures c.Some? <==> Displacement(ButtonPressedPosition(m, button), m.cursor_position) <= settings.max_click_displacement
    ensures c.Some? ==> c.value == ClickEvent(m.cursor_position, button)
  {
    if Displacement(ButtonPressedPosition(m, button), m.cursor_position) <= settings.max_click_displacement then
      Some(ClickEvent(m.cursor_position, button))
    else
      None
  }

  /** `mouse_released`: trigger the click, if any, then reset the button to the sentinel. */
  function MouseReleasedStep(d: Dispatch, button: MouseButton, settings: MapControlSettings): (r: Dispatch)
    ensures !button.Other? ==> !ButtonPressed(r.mouse, button)
    ensures r.last_zoom_time == d.last_zoom_time && r.mouse.cursor_position == d.mouse.cursor_position
    ensures forall b :: b != button ==> ButtonPressedPosition(r.mouse, b) == ButtonPressedPosition(d.mouse, b)
  {
    var emitted := match ReleaseClick(d.mouse, button, settings)
                   case Some(c) => d.emitted + [TriggeredClick(c)]
                   case None => d.emitted;
    Dispatch(WithButtonPosition(d.mouse, button, RELEASED), d.last_zoom_time, emitted)
  }

  /** The drag a move to `(x, y)` produces: none without a held button; otherwise one for the
      priority button, with the movement since the last position (y pointing up) and the new
      cursor position. */
  function MoveDrag(m: Mouse, x: int, y: int): (e: Option<DragEvent>)
    ensures e.Some? <==> AnyButtonPressed(m)
    ensures e.Some? ==> && Some(e.value.button) == DragButton(m)
                        && m.cursor_position.x + e.value.dx == x
                        && m.cursor_position.y - e.value.dy == y
                        && e.value.curr_cursor_position == Px(x, y)
  {
    match DragButton(m)
    case None => None
    case Some(b) =>
      Some(DragEvent(x - m.cursor_position.x, -(y - m.cursor_position.y), b, Px(x, y)))
  }

  /** `cursor_moved`: trigger the drag, if any, then store the new cursor position. */
  function CursorMovedStep(d: Dispatch, x: int, y: int): (r: Dispatch)
    ensures r.mouse == d.mouse.(cursor_position := Px(x, y))
    ensures r.last_zoom_time == d.last_zoom_time
  {
    var emitted := match MoveDrag(d.mouse, x, y)
                   case Some(e) => d.emitted + [TriggeredDrag(e)]
                   case None => d.emitted;
    Dispatch(d.mouse.(cursor_position := Px(x, y)), d.last_zoom_time, emitted)
  }

  /** The zoom factor of a wheel event at time `now`: none while less than `zoom_delay` ms have
      passed since the last zoom or when there is no vertical scroll; otherwise the notch factor
      raised to the wheel speed (`pow` stands for `f32::powf`). */
  function WheelZoom(settings: MapControlSettings, last_zoom_time: int, now: int, delta: ScrollDelta,
                     pow: (real, real) -> real): (f: Option<real>)
    ensures f.Some? <==> Elapsed(now, last_zoom_time) >= settings.zoom_delay && WheelDy(delta) != 0.0
    ensures f.Some? ==> f.value == pow(ZoomBase(WheelDy(delta)).value, settings.mouse_wheel_speed)
  {
    if Elapsed(now, last_zoom_time) < settings.zoom_delay then None
    else
      match ZoomBase(WheelDy(delta))
      case None => None
      case Some(base) => Some(pow(base, settings.mouse_wheel_speed))
  }

  /** `wheel`: trigger the zoom at the cursor, then restart the debounce window at `now`. */
  function WheelStep(d: Dispatch, delta: ScrollDelta, now: int, pow: (real, real) -> real,
                     settings: MapControlSettings): (r: Dispatch)
    ensures r.mouse == d.mouse
  {
    match WheelZoom(settings, d.last_zoom_time, now, delta, pow)
    case None => d
    case Some(f) => Dispatch(d.mouse, now, d.emitted + [TriggeredZoom(ZoomEvent(f, d.mouse.cursor_position))])
  }

  /** `handle_event`: route a window event; the cursor position is cast to `i32`. */
  function HandleEventStep(d: Dispatch, event: WindowEvent, now: int, pow: (real, real) -> real,
                           settings: MapControlSettings): Dispatch
  {
    match event
    case MouseInput(button, Pressed) => MousePressedStep(d, button)
    case MouseInput(button, Released) => MouseReleasedStep(d, button, settings)
    case CursorMoved(x, y) => CursorMovedStep(d, CastToI32(x), CastToI32(y))
    case MouseWheel(delta) => WheelStep(d, delta, now, pow, settings)
    case OtherWindowEvent => d
  }

  // ---------------------------------------------------------------------------------------
  // The objects

  /** `MouseState`, updated in place. */
  class MouseState {
    var cursor_position: Px
    var left_button_down_position: Px
    var middle_button_down_position: Px
    var right_button_down_position: Px

    function Snapshot(): Mouse
      reads this
    {
      Mouse(cursor_position, left_button_down_position, middle_button_down_position, right_button_down_position)
    }

    /** `MouseState::default`: cursor at the origin, no button held. */
    constructor ()
      ensures Snapshot() == DEFAULT_MOUSE
      ensures !AnyButtonPressed(Snapshot())
    {
      cursor_position := Px(0, 0);
      left_button_down_position := RELEASED;
      middle_button_down_position := RELEASED;
      right_button_down_position := RELEASED;
    }

    method CaptureButtonPosition(button: MouseButton, val: Px)
      modifies this
      ensures Snapshot() == WithButtonPosition(old(Snapshot()), button, val)
    {
      match button
      case Left => left_button_down_position := val;
      case Right => right_button_down_position := val;
      case Middle => middle_button_down_position := val;
      case Other(_) =>
    }

    method CaptureButtonPressed(button: MouseButton)
      modifies this
      ensures Snapshot() == WithButtonPosition(old(Snapshot()), button, old(cursor_position))
    {
      CaptureButtonPosition(button, cursor_position);
    }

    method CaptureButtonReleased(button: MouseButton)
      modifies this
      ensures Snapshot() == WithButtonPosition(old(Snapshot()), button, RELEASED)
    {
      CaptureButtonPosition(button, RELEASED);
    }
  }

  /** `ControlState`: the mouse state, the map's pixel size and the time of the last zoom. */
  class ControlState {
    const mouse_state: MouseState
    var map_size: (nat, nat)
    var last_zoom_time: int

    /** `ControlState::default`, with `Instant::now()` read as `now`. */
    constructor (now: int)
      ensures fresh(mouse_state) && mouse_state.Snapshot() == DEFAULT_MOUSE
      ensures map_size == (0, 0) && last_zoom_time == now
    {
      mouse_state := new MouseState();
      map_size := (0, 0);
      last_zoom_time := now;
    }
  }

  /** `MapEventDispatcher`: turns window events into click, drag and zoom events. */
  class MapEventDispatcher {
    const state: ControlState
    const settings: MapControlSettings
    var emitted: seq<Triggered>

    function Snapshot(): Dispatch
      reads this, state, state.mouse_state
    {
      Dispatch(state.mouse_state.Snapshot(), state.last_zoom_time, emitted)
    }

    constructor (state: ControlState, settings: MapControlSettings)
      ensures this.state == state && this.settings == settings && emitted == []
    {
      this.state := state;
      this.settings := settings;
      emitted := [];
    }

    method MousePressed(button: MouseButton)
      modifies state.mouse_state
      ensures Snapshot() == MousePressedStep(old(Snapshot()), button)
    {
      state.mouse_state.CaptureButtonPressed(button);
    }

    /** `trigger`: hand the event to the handler store. */
    method Trigger(e: Triggered)
      modifies this
      ensures emitted == old(emitted) + [e]
    {
      emitted := emitted + [e];
    }

    method MouseReleased(button: MouseButton)
      modifies this, state.mouse_state
      ensures Snapshot() == MouseReleasedStep(old(Snapshot()), button, settings)
    {
      var ms := state.mouse_state;
      if Displacement(ButtonPressedPosition(ms.Snapshot(), button), ms.cursor_position) <= settings.max_click_displacement {
        Trigger(TriggeredClick(ClickEvent(ms.cursor_position, button)));
      }
      ms.CaptureButtonReleased(button);
    }

    method CursorMoved(x: int, y: int)
      modifies this, state.mouse_state
      ensures Snapshot() == CursorMovedStep(old(Snapshot()), x, y)
    {
      var ms := state.mouse_state;
      if AnyButtonPressed(ms.Snapshot()) {
        var prev_position := ms.cursor_position;
        var dx := x - prev_position.x;
        var dy := -(y - prev_position.y);
        var curr_cursor_position := Px(x, y);
        if ButtonPressed(ms.Snapshot(), Left) {
          Trigger(TriggeredDrag(DragEvent(dx, dy, Left, curr_cursor_position)));
        } else if ButtonPressed(ms.Snapshot(), Right) {
          Trigger(TriggeredDrag(DragEvent(dx, dy, Right, curr_cursor_position)));
        } else if ButtonPressed(ms.Snapshot(), Middle) {
          Trigger(TriggeredDrag(DragEvent(dx, dy, Middle, curr_cursor_position)));
        }
      }
      ms.cursor_position := Px(x, y);
    }

    method Wheel(delta: ScrollDelta, now: int, pow: (real, real) -> real)
      modifies this, state
      ensures Snapshot() == WheelStep(old(Snapshot()), delta, now, pow, settings)
      ensures state.map_size == old(state.map_size)
    {
      if Elapsed(now, state.last_zoom_time) < settings.zoom_delay {
        return;
      }
      var dy := match delta case LineDelta(_, dy) => dy case PixelDelta(_, y) => y;
      var base := 0.0;
      if dy > 0.0 {
        base := ZOOM_STEP;
      } else if dy < 0.0 {
        base := 1.0 / ZOOM_STEP;
      } else {
        return;
      }
      var factor := pow(base, settings.mouse_wheel_speed);
      Trigger(TriggeredZoom(ZoomEvent(factor, state.mouse_state.cursor_position)));
      state.last_zoom_time := now;
    }

    method HandleEvent(event: WindowEvent, now: int, pow: (real, real) -> real)
      modifies this, state, state.mouse_state
      ensures Snapshot() == HandleEventStep(old(Snapshot()), event, now, pow, settings)
      ensures state.map_size == old(state.map_size)
    {
      match event
      case MouseInput(button, Pressed) => MousePressed(button);
      case MouseInput(button, Released) => MouseReleased(button);
      case CursorMoved(x, y) => CursorMoved(CastToI32(x), CastToI32(y));
      case MouseWheel(delta) => Wheel(delta, now, pow);
      case OtherWindowEvent =>
    }
  }

  // ---------------------------------------------------------------------------------------
  // Properties

  /** Every step keeps the events already triggered and adds at most one. */
  lemma StepEmitsAtMostOne(d: Dispatch, event: WindowEvent, now: int, pow: (real, real) -> real,
                           settings: MapControlSettings)
    ensures var r := HandleEventStep(d, event, now, pow, settings);
            |d.emitted| <= |r.emitted| <= |d.emitted| + 1 && r.emitted[..|d.emitted|] == d.emitted
  {
  }

  /** Pressing a tracked button records the cursor as its down position; the button then reads
      as held unless the cursor sits on the sentinel column. Other buttons' positions are kept. */
  lemma PressRecordsCursor(d: Dispatch, button: MouseButton, other: MouseButton)
    requires !button.Other?
    requires other != button
    ensures d.mouse.cursor_position.x != I32_MIN ==> ButtonPressed(MousePressedStep(d, button).mouse, button)
    ensures ButtonPressedPosition(MousePressedStep(d, button).mouse, other) == ButtonPressedPosition(d.mouse, other)
  {
  }

  /** A release emits a click exactly when the button went down within the threshold, and
      afterwards the button reads as released whether or not a click was emitted. */
  lemma ReleaseClicksWithinThreshold(d: Dispatch, button: MouseButton, settings: MapControlSettings)
    ensures var r := MouseReleasedStep(d, button, settings);
            var near := Displacement(ButtonPressedPosition(d.mouse, button), d.mouse.cursor_position)
                        <= settings.max_click_displacement;
            && (near ==> r.emitted == d.emitted + [TriggeredClick(ClickEvent(d.mouse.cursor_position, button))])
            && (!near ==> r.emitted == d.emitted)
            && (!button.Other? ==> ButtonPressedPosition(r.mouse, button) == RELEASED)
  {
  }

  /** A press and a release at the same place click (with any non-negative threshold). */
  lemma PressReleaseInPlaceClicks(d: Dispatch, button: MouseButton, settings: MapControlSettings)
    requires !button.Other? && settings.max_click_displacement >= 0
    ensures MouseReleasedStep(MousePressedStep(d, button), button, settings).emitted
            == d.emitted + [TriggeredClick(ClickEvent(d.mouse.cursor_position, button))]
  {
    var p := MousePressedStep(d, button);
    assert Displacement(ButtonPressedPosition(p.mouse, button), p.mouse.cursor_position) == 0;
  }

  /** Releasing a button that is not held (its down position is the sentinel, as for every
      `Other` button) emits no click while the cursor is on screen and the threshold is an
      `i32`: measured without overflow, the sentinel is more than `i32::MAX` away. */
  lemma ReleaseUnheldDoesNotClick(d: Dispatch, button: MouseButton, settings: MapControlSettings)
    requires ButtonPressedPosition(d.mouse, button) == RELEASED
    requires d.mouse.cursor_position.x >= 0 && d.mouse.cursor_position.y >= 0
    requires settings.max_click_displacement <= I32_MAX
    ensures MouseReleasedStep(d, button, settings).emitted == d.emitted
    ensures !button.Other? ==> !ButtonPressed(MouseReleasedStep(d, button, settings).mouse, button)
  {
  }

  /** A move emits one drag when a button is held and none otherwise, the drag carries the
      held button of highest priority and the movement with y pointing up, and the cursor
      is stored whatever happens. */
  lemma MoveEmitsPriorityDrag(d: Dispatch, x: int, y: int)
    ensures var r := CursorMovedStep(d, x, y);
            && r.mouse.cursor_position == Px(x, y)
            && (!AnyButtonPressed(d.mouse) ==> r.emitted == d.emitted)
            && (ButtonPressed(d.mouse, Left) ==>
                  r.emitted == d.emitted + [TriggeredDrag(DragEvent(x - d.mouse.cursor_position.x,
                                              d.mouse.cursor_position.y - y, Left, Px(x, y)))])
            && (!ButtonPressed(d.mouse, Left) && ButtonPressed(d.mouse, Right) ==>
                  r.emitted == d.emitted + [TriggeredDrag(DragEvent(x - d.mouse.cursor_position.x,
                                              d.mouse.cursor_position.y - y, Right, Px(x, y)))])
            && (!ButtonPressed(d.mouse, Left) && !ButtonPressed(d.mouse, Right) && ButtonPressed(d.mouse, Middle) ==>
                  r.emitted == d.emitted + [TriggeredDrag(DragEvent(x - d.mouse.cursor_position.x,
                                              d.mouse.cursor_position.y - y, Middle, Px(x, y)))])
  {
  }

  /** Inside the debounce window, and for a scroll without vertical movement, a wheel event
      changes nothing: no event and the same `last_zoom_time`. Otherwise it emits one zoom at the
      cursor and restarts the window at `now`. */
  lemma WheelDebounce(d: Dispatch, delta: ScrollDelta, now: int, pow: (real, real) -> real,
                      settings: MapControlSettings)
    ensures var r := WheelStep(d, delta, now, pow, settings);
            if Elapsed(now, d.last_zoom_time) < settings.zoom_delay || WheelDy(delta) == 0.0 then r == d
            else && r.last_zoom_time == now
                 && r.emitted == d.emitted + [TriggeredZoom(ZoomEvent(
                      pow(if WheelDy(delta) > 0.0 then ZOOM_STEP else 1.0 / ZOOM_STEP, settings.mouse_wheel_speed),
                      d.mouse.cursor_position))]
  {
  }

  /** Two wheel notches less than `zoom_delay` ms apart zoom once. */
  lemma RapidWheelZoomsOnce(d: Dispatch, delta1: ScrollDelta, delta2: ScrollDelta, t1: int, t2: int,
                            pow: (real, real) -> real, settings: MapControlSettings)
    requires t1 <= t2 < t1 + settings.zoom_delay
    ensures var r := WheelStep(WheelStep(d, delta1, t1, pow, settings), delta2, t2, pow, settings);
            |r.emitted| <= |d.emitted| + 1
  {
    var r1 := WheelStep(d, delta1, t1, pow, settings);
    if r1 != d {
      assert r1.last_zoom_time == t1;
    }
  }

  /** The dispatcher run over a sequence of timed window events. */
  function Run(d: Dispatch, events: seq<(WindowEvent, int)>, pow: (real, real) -> real,
               settings: MapControlSettings): Dispatch
    decreases |events|
  {
    if events == [] then d
    else Run(HandleEventStep(d, events[0].0, events[0].1, pow, settings), events[1..], pow, settings)
  }

  /** Over any run, the log only grows and grows by at most one event per window event. */
  lemma {:induction false} RunEmitsAtMostOnePerEvent(d: Dispatch, events: seq<(WindowEvent, int)>,
                                                     pow: (real, real) -> real, settings: MapControlSettings)
    ensures var r := Run(d, events, pow, settings);
            |d.emitted| <= |r.emitted| <= |d.emitted| + |events| && r.emitted[..|d.emitted|] == d.emitted
    decreases |events|
  {
    if events != [] {
      var d1 := HandleEventStep(d, events[0].0, events[0].1, pow, settings);
      StepEmitsAtMostOne(d, events[0].0, events[0].1, pow, settings);
      RunEmitsAtMostOnePerEvent(d1, events[1..], pow, settings);
      var r := Run(d, events, pow, settings);
      assert r == Run(d1, events[1..], pow, settings);
      assert r.emitted[..|d.emitted|] == r.emitted[..|d1.emitted|][..|d.emitted|];
    }
  }

  /** A left click that wanders two pixels right and one down still clicks: the move emits a
      drag, the release a click at the new position. */
  lemma LeftClickWithSmallWobble()
    ensures var d0 := Dispatch(DEFAULT_MOUSE.(cursor_position := Px(10, 10)), 0, []);
            var d1 := MousePressedStep(d0, Left);
            var d2 := CursorMovedStep(d1, 12, 11);
            var d3 := MouseReleasedStep(d2, Left, DEFAULT_SETTINGS);
            d3.emitted == [TriggeredDrag(DragEvent(2, -1, Left, Px(12, 11))),
                           TriggeredClick(ClickEvent(Px(12, 11), Left))]
  {
  }

  /** A press, a move of four pixels and a release drag without clicking. */
  lemma LeftDragTooFarToClick()
    ensures var d0 := Dispatch(DEFAULT_MOUSE.(cursor_position := Px(10, 10)), 0, []);
            var d3 := MouseReleasedStep(CursorMovedStep(MousePressedStep(d0, Left), 14, 10), Left, DEFAULT_SETTINGS);
            d3.emitted == [TriggeredDrag(DragEvent(4, 0, Left, Px(14, 10)))]
  {
  }
}
