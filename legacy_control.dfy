/** The older control of `src/control.rs`: only the left button keeps a down position (and so
    only it clicks), right and middle are plain flags, and drags go to the map as `MapEvent`s.
    The settings, the clock, `displacement` and the wheel factor are those of the newer
    control, which this file shares from `Control`. */
module LegacyControl {
  import opened Primitives
  import opened Events
  import opened Control

  /** The fields of the older `MouseState`. */
  datatype LegacyMouse = LegacyMouse(
    cursor_position: Px,
    left_button_down_position: Px,
    right_button_pressed: bool,
    middle_button_pressed: bool)

  /** The derived `Default`: every field zero, so the left down position is `[0, 0]`. */
  const DEFAULT_LEGACY_MOUSE: LegacyMouse := LegacyMouse(Px(0, 0), Px(0, 0), false, false)

  /** `left_button_pressed`. */
  function LeftButtonPressed(m: LegacyMouse): (r: bool)
    ensures m.left_button_down_position == RELEASED ==> !r
    ensures m.left_button_down_position == Px(0, 0) ==> r
  {
    m.left_button_down_position.x != I32_MIN
  }

  /** What the older control sends: a `ClickEvent` (cursor only) to the handler store, or a
      `MapEvent` to `Map::trigger`, in the order they were sent. */
  datatype Sent = StoreClick(cursor_position: Px) | MapTrigger(event: MapEvent)

  datatype LegacyDispatch = LegacyDispatch(mouse: LegacyMouse, last_zoom_time: int, sent: seq<Sent>)

  /** `mouse_pressed`: Left records the cursor, Right and Middle raise their flag. */
  function PressedStep(d: LegacyDispatch, button: MouseButton): (r: LegacyDispatch)
    ensures r.sent == d.sent && r.last_zoom_time == d.last_zoom_time
    ensures r.mouse.cursor_position == d.mouse.cursor_position
    ensures button == Left ==> r.mouse == d.mouse.(left_button_down_position := d.mouse.cursor_position)
    ensures button == Right ==> r.mouse == d.mouse.(right_button_pressed := true)
    ensures button == Middle ==> r.mouse == d.mouse.(middle_button_pressed := true)
    ensures button.Other? ==> r == d
  {
    match button
    case Left => d.(mouse := d.mouse.(left_button_down_position := d.mouse.cursor_position))
    case Right => d.(mouse := d.mouse.(right_button_pressed := true))
    case Middle => d.(mouse := d.mouse.(middle_button_pressed := true))
    case Other(_) => d
  }

  /** `mouse_released`: a left release clicks when within the threshold and resets the left
      down position; Right and Middle lower their flag and never click. */
  function ReleasedStep(d: LegacyDispatch, button: MouseButton, settings: MapControlSettings): (r: LegacyDispatch)
    ensures r.last_zoom_time == d.last_zoom_time && r.mouse.cursor_position == d.mouse.cursor_position
    ensures button != Left ==> r.sent == d.sent
    ensures button == Left ==> r.mouse == d.mouse.(left_button_down_position := RELEASED)
    ensures button == Right ==> r.mouse == d.mouse.(right_button_pressed := false)
    ensures button == Middle ==> r.mouse == d.mouse.(middle_button_pressed := false)
    ensures button.Other? ==> r == d
  {
    match button
    case Left =>
      var m := d.mouse;
      var sent := if Displacement(m.left_button_down_position, m.cursor_position) <= settings.max_click_displacement
                  then d.sent + [StoreClick(m.cursor_position)]
                  else d.sent;
      LegacyDispatch(m.(left_button_down_position := RELEASED), d.last_zoom_time, sent)
    case Right => d.(mouse := d.mouse.(right_button_pressed := false))
    case Middle => d.(mouse := d.mouse.(middle_button_pressed := false))
    case Other(_) => d
  }

  /** The map event a move to `(x, y)` sends: `Drag` when the left button is held, else
      `RightButtonDrag` at the previous cursor, else `MiddleButtonDrag`; y points up. */
  function MoveEvent(m: LegacyMouse, x: int, y: int): (e: Option<MapEvent>)
    ensures e.None? <==> !LeftButtonPressed(m) && !m.right_button_pressed && !m.middle_button_pressed
    ensures LeftButtonPressed(m) ==> e == Some(Drag(x - m.cursor_position.x, m.cursor_position.y - y))
    ensures !LeftButtonPressed(m) && m.right_button_pressed ==>
              e == Some(RightButtonDrag(x - m.cursor_position.x, m.cursor_position.y - y, m.cursor_position))
    ensures !LeftButtonPressed(m) && !m.right_button_pressed && m.middle_button_pressed ==>
              e == Some(MiddleButtonDrag(x - m.cursor_position.x, m.cursor_position.y - y))
  {
    var dx := x - m.cursor_position.x;
    var dy := y - m.cursor_position.y;
    if LeftButtonPressed(m) then Some(Drag(dx, -dy))
    else if m.right_button_pressed then Some(RightButtonDrag(dx, -dy, m.cursor_position))
    else if m.middle_button_pressed then Some(MiddleButtonDrag(dx, -dy))
    else None
  }

  /** `cursor_moved`: send the drag, if any, then store the cursor. */
  function MovedStep(d: LegacyDispatch, x: int, y: int): (r: LegacyDispatch)
    ensures r.mouse == d.mouse.(cursor_position := Px(x, y)) && r.last_zoom_time == d.last_zoom_time
    ensures MoveEvent(d.mouse, x, y).None? ==> r.sent == d.sent
    ensures MoveEvent(d.mouse, x, y).Some? ==> r.sent == d.sent + [MapTrigger(MoveEvent(d.mouse, x, y).value)]
  {
    var sent := match MoveEvent(d.mouse, x, y) case Some(e) => d.sent + [MapTrigger(e)] case None => d.sent;
    LegacyDispatch(d.mouse.(cursor_position := Px(x, y)), d.last_zoom_time, sent)
  }

  /** `wheel`: the same debounce and factor as the newer control, sent as `MapEvent::Zoom`. */
  function LegacyWheelStep(d: LegacyDispatch, delta: ScrollDelta, now: int, pow: (real, real) -> real,
                           settings: MapControlSettings): (r: LegacyDispatch)
    ensures r.mouse == d.mouse
  {
    match WheelZoom(settings, d.last_zoom_time, now, delta, pow)
    case None => d
    case Some(f) => LegacyDispatch(d.mouse, now, d.sent + [MapTrigger(Zoom(f, d.mouse.cursor_position))])
  }

  /** `MapControl::handle_event`. */
  function LegacyHandleEventStep(d: LegacyDispatch, event: WindowEvent, now: int, pow: (real, real) -> real,
                                 settings: MapControlSettings): LegacyDispatch
  {
    match event
    case MouseInput(button, Pressed) => PressedStep(d, button)
    case MouseInput(button, Released) => ReleasedStep(d, button, settings)
    case CursorMoved(x, y) => MovedStep(d, CastToI32(x), CastToI32(y))
    case MouseWheel(delta) => LegacyWheelStep(d, delta, now, pow, settings)
    case OtherWindowEvent => d
  }

  // ---------------------------------------------------------------------------------------
  // The objects

  /** The older `MouseState`, updated in place. */
  class LegacyMouseState {
    var cursor_position: Px
    var left_button_down_position: Px
    var right_button_pressed: bool
    var middle_button_pressed: bool

    function Snapshot(): LegacyMouse
      reads this
    {
      LegacyMouse(cursor_position, left_button_down_position, right_button_pressed, middle_button_pressed)
    }

    /** The derived `Default`. */
    constructor ()
      ensures Snapshot() == DEFAULT_LEGACY_MOUSE
    {
      cursor_position := Px(0, 0);
      left_button_down_position := Px(0, 0);
      right_button_pressed := false;
      middle_button_pressed := false;
    }

    method CaptureLeftButtonPressed()
      modifies this
      ensures Snapshot() == old(Snapshot()).(left_button_down_position := old(cursor_position))
    {
      left_button_down_position := cursor_position;
    }

    method CaptureLeftButtonReleased()
      modifies this
      ensures Snapshot() == old(Snapshot()).(left_button_down_position := RELEASED)
    {
      left_button_down_position := RELEASED;
    }
  }

  /** The older `ControlState`. */
  class LegacyControlState {
    const mouse_state: LegacyMouseState
    var map_size: (nat, nat)
    var last_zoom_time: int

    constructor (now: int)
      ensures fresh(mouse_state) && mouse_state.Snapshot() == DEFAULT_LEGACY_MOUSE
      ensures map_size == (0, 0) && last_zoom_time == now
    {
      mouse_state := new LegacyMouseState();
      map_size := (0, 0);
      last_zoom_time := now;
    }
  }

  /** `MapControl`: the older dispatcher. */
  class MapControl {
    const state: LegacyControlState
    const settings: MapControlSettings
    var sent: seq<Sent>

    function Snapshot(): LegacyDispatch
      reads this, state, state.mouse_state
    {
      LegacyDispatch(state.mouse_state.Snapshot(), state.last_zoom_time, sent)
    }

    constructor (state: LegacyControlState, settings: MapControlSettings)
      ensures this.state == state && this.settings == settings && sent == []
    {
      this.state := state;
      this.settings := settings;
      sent := [];
    }

    method MousePressed(button: MouseButton)
      modifies state.mouse_state
      ensures Snapshot() == PressedStep(old(Snapshot()), button)
    {
      var ms := state.mouse_state;
      match button
      case Left => ms.CaptureLeftButtonPressed();
      case Right => ms.right_button_pressed := true;
      case Middle => ms.middle_button_pressed := true;
      case Other(_) =>
    }

    method MouseReleased(button: MouseButton)
      modifies this, state.mouse_state
      ensures Snapshot() == ReleasedStep(old(Snapshot()), button, settings)
    {
      var ms := state.mouse_state;
      match button
      case Left =>
        if Displacement(ms.left_button_down_position, ms.cursor_position) <= settings.max_click_displacement {
          sent := sent + [StoreClick(ms.cursor_position)];
        }
        ms.CaptureLeftButtonReleased();
      case Right => ms.right_button_pressed := false;
      case Middle => ms.middle_button_pressed := false;
      case Other(_) =>
    }

    method CursorMoved(x: int, y: int)
      modifies this, state.mouse_state
      ensures Snapshot() == MovedStep(old(Snapshot()), x, y)
    {
      var ms := state.mouse_state;
      var left := LeftButtonPressed(ms.Snapshot());
      if left || ms.right_button_pressed || ms.middle_button_pressed {
        var prev_position := ms.cursor_position;
        var dx := x - prev_position.x;
        var dy := y - prev_position.y;
        if left {
          sent := sent + [MapTrigger(Drag(dx, -dy))];
        } else if ms.right_button_pressed {
          sent := sent + [MapTrigger(RightButtonDrag(dx, -dy, ms.cursor_position))];
        } else if ms.middle_button_pressed {
          sent := sent + [MapTrigger(MiddleButtonDrag(dx, -dy))];
        }
      }
      ms.cursor_position := Px(x, y);
    }

    method Wheel(delta: ScrollDelta, now: int, pow: (real, real) -> real)
      modifies this, state
      ensures Snapshot() == LegacyWheelStep(old(Snapshot()), delta, now, pow, settings)
      ensures state.map_size == old(state.map_size)
    {
      if Elapsed(now, state.last_zoom_time) < settings.zoom_delay {
        return;
      }
      var dy := match delta case LineDelta(_, dy) => dy case PixelDelta(_, y) => y;
      var base := 0.0;
      if dy > 0.0 {
        base := ZOOM_STEP;
      } else if dy < 0.0 {
        base := 1.0 / ZOOM_STEP;
      } else {
        return;
      }
      var factor := pow(base, settings.mouse_wheel_speed);
      sent := sent + [MapTrigger(Zoom(factor, state.mouse_state.cursor_position))];
      state.last_zoom_time := now;
    }

    method HandleEvent(event: WindowEvent, now: int, pow: (real, real) -> real)
      modifies this, state, state.mouse_state
      ensures Snapshot() == LegacyHandleEventStep(old(Snapshot()), event, now, pow, settings)
      ensures state.map_size == old(state.map_size)
    {
      match event
      case MouseInput(button, Pressed) => MousePressed(button);
      case MouseInput(button, Released) => MouseReleased(button);
      case CursorMoved(x, y) => CursorMoved(CastToI32(x), CastToI32(y));
      case MouseWheel(delta) => Wheel(delta, now, pow);
      case OtherWindowEvent =>
    }
  }

  // ---------------------------------------------------------------------------------------
  // Properties

  /** The derived default reads the left button as held, right and middle as free, so the
      very first cursor move sends a left drag. */
  lemma DefaultReadsLeftPressed(x: int, y: int, last_zoom_time: int)
    ensures LeftButtonPressed(DEFAULT_LEGACY_MOUSE)
    ensures !DEFAULT_LEGACY_MOUSE.right_button_pressed && !DEFAULT_LEGACY_MOUSE.middle_button_pressed
    ensures MovedStep(LegacyDispatch(DEFAULT_LEGACY_MOUSE, last_zoom_time, []), x, y).sent
            == [MapTrigger(Drag(x, -y))]
  {
  }

  /** A left release within the threshold clicks at the cursor, outside it sends nothing, and
      either way the left button is free afterwards. */
  lemma LeftReleaseClicksWithinThreshold(d: LegacyDispatch, settings: MapControlSettings)
    ensures var r := ReleasedStep(d, Left, settings);
            && !LeftButtonPressed(r.mouse)
            && var near := Displacement(d.mouse.left_button_down_position, d.mouse.cursor_position)
                           <= settings.max_click_displacement;
            && (near ==> r.sent == d.sent + [StoreClick(d.mouse.cursor_position)])
            && (!near ==> r.sent == d.sent)
  {
  }

  /** A second left release, with no press in between, clicks no more: the down position is the
      sentinel, which lies more than `i32::MAX` away from any on-screen cursor. */
  lemma SecondLeftReleaseDoesNotClick(d: LegacyDispatch, settings: MapControlSettings)
    requires d.mouse.cursor_position.x >= 0 && d.mouse.cursor_position.y >= 0
    requires settings.max_click_displacement <= I32_MAX
    ensures var r := ReleasedStep(d, Left, settings);
            ReleasedStep(r, Left, settings).sent == r.sent
  {
  }

  /** The number of clicks in a log. */
  function CountClicks(sent: seq<Sent>): nat
  {
    if sent == [] then 0 else (if sent[0].StoreClick? then 1 else 0) + CountClicks(sent[1..])
  }

  lemma {:induction false} CountClicksAppend(a: seq<Sent>, b: seq<Sent>)
    ensures CountClicks(a + b) == CountClicks(a) + CountClicks(b)
  {
    if a == [] {
      assert a + b == b;
    } else {
      assert (a + b)[1..] == a[1..] + b;
      CountClicksAppend(a[1..], b);
    }
  }

  /** The number of left-button releases among timed window events. */
  function CountLeftReleases(events: seq<(WindowEvent, int)>): nat
  {
    if events == [] then 0
    else (if events[0].0 == MouseInput(Left, Released) then 1 else 0) + CountLeftReleases(events[1..])
  }

  /** One step adds a click only on a left release, and at most one. */
  lemma StepClicks(d: LegacyDispatch, event: WindowEvent, now: int, pow: (real, real) -> real,
                   settings: MapControlSettings)
    ensures CountClicks(LegacyHandleEventStep(d, event, now, pow, settings).sent)
            <= CountClicks(d.sent) + (if event == MouseInput(Left, Released) then 1 else 0)
  {
    var r := LegacyHandleEventStep(d, event, now, pow, settings);
    if r.sent != d.sent {
      var e := r.sent[|d.sent|];
      assert r.sent == d.sent + [e];
      CountClicksAppend(d.sent, [e]);
      assert [e][1..] == [];
      assert e.StoreClick? ==> event == MouseInput(Left, Released);
    }
  }

  /** The older control run over a sequence of timed window events. */
  function LegacyRun(d: LegacyDispatch, events: seq<(WindowEvent, int)>, pow: (real, real) -> real,
                     settings: MapControlSettings): LegacyDispatch
    decreases |events|
  {
    if events == [] then d
    else LegacyRun(LegacyHandleEventStep(d, events[0].0, events[0].1, pow, settings), events[1..], pow, settings)
  }

  /** Over any run there are no more clicks than left releases: right, middle and other buttons
      never click in the older control. */
  lemma {:induction false} ClicksOnlyFromLeftReleases(d: LegacyDispatch, events: seq<(WindowEvent, int)>,
                                                      pow: (real, real) -> real, settings: MapControlSettings)
    ensures CountClicks(LegacyRun(d, events, pow, settings).sent) <= CountClicks(d.sent) + CountLeftReleases(events)
    decreases |events|
  {
    if events != [] {
      var d1 := LegacyHandleEventStep(d, events[0].0, events[0].1, pow, settings);
      StepClicks(d, events[0].0, events[0].1, pow, settings);
      ClicksOnlyFromLeftReleases(d1, events[1..], pow, settings);
    }
  }

  /** On matching button states, the older control drags exactly when the newer one does,
      by the same amounts and for the same button: a left drag becomes `Drag`, a right drag
      `RightButtonDrag` about the previous cursor, a middle drag `MiddleButtonDrag`. */
  lemma MoveAgreesWithNewerControl(m: LegacyMouse, n: Mouse, x: int, y: int)
    requires n.cursor_position == m.cursor_position
    requires ButtonPressed(n, Left) == LeftButtonPressed(m)
    requires ButtonPressed(n, Right) == m.right_button_pressed
    requires ButtonPressed(n, Middle) == m.middle_button_pressed
    ensures MoveEvent(m, x, y).Some? <==> MoveDrag(n, x, y).Some?
    ensures MoveDrag(n, x, y).Some? ==>
              var e := MoveDrag(n, x, y).value;
              MoveEvent(m, x, y).value == match e.button
                                          case Left => Drag(e.dx, e.dy)
                                          case Right => RightButtonDrag(e.dx, e.dy, m.cursor_position)
                                          case _ => MiddleButtonDrag(e.dx, e.dy)
  {
  }

  /** The wheel behaves as in the newer control: it sends a zoom exactly when the newer
      control would trigger one, with the same factor, and restarts the window only then. */
  lemma WheelAgreesWithNewerControl(d: LegacyDispatch, n: Dispatch, delta: ScrollDelta, now: int,
                                    pow: (real, real) -> real, settings: MapControlSettings)
    requires d.last_zoom_time == n.last_zoom_time && d.mouse.cursor_position == n.mouse.cursor_position
    ensures var r := LegacyWheelStep(d, delta, now, pow, settings);
            var s := WheelStep(n, delta, now, pow, settings);
            && r.last_zoom_time == s.last_zoom_time
            && |r.sent| - |d.sent| == |s.emitted| - |n.emitted|
            && (|s.emitted| > |n.emitted| ==>
                  r.sent[|d.sent|] == MapTrigger(Zoom(s.emitted[|n.emitted|].zoom.delta, d.mouse.cursor_position))
                  && s.emitted[|n.emitted|].zoom.cursor_position == d.mouse.cursor_position)
  {
  }
}
