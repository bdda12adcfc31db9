/** `DefaultMapControl` of `src/control/default.rs`: it attaches a drag handler and a zoom
    handler to a map and detaches them again, and its handlers move the map's position and
    answer with an `EventState`. */
module DefaultControl {
  import opened Primitives
  import opened Events
  import opened MapView

  /** `HandlerIds`: the ids `on` returned; zero when detached. */
  datatype HandlerIds = HandlerIds(drag: nat, zoom: nat)

  /** The lifecycle state of the control: whether a map is held, and the handler ids. */
  datatype Lifecycle = Lifecycle(attached: bool, handlers: HandlerIds)

  /** `DefaultMapControl::new`. */
  const NEW_CONTROL: Lifecycle := Lifecycle(false, HandlerIds(0, 0))

  /** `attach`: register the drag handler, then the zoom handler, keep their ids and the map.
      A control that is already attached is not detached first. */
  function AttachStep(l: Lifecycle, drag_id: nat, zoom_id: nat): (r: (Lifecycle, seq<ListenerCall>))
    ensures r.0.attached && r.0.handlers == HandlerIds(drag_id, zoom_id)
    ensures r.1 == [On(DragHandler, drag_id), On(ZoomHandler, zoom_id)]
  {
    (Lifecycle(true, HandlerIds(drag_id, zoom_id)), [On(DragHandler, drag_id), On(ZoomHandler, zoom_id)])
  }

  /** `detach`: on an attached control, unregister the drag handler, then the zoom handler,
      and forget the ids and the map; on a detached control, nothing. */
  function DetachStep(l: Lifecycle): (r: (Lifecycle, seq<ListenerCall>))
    ensures !r.0.attached
    ensures l.attached ==>
              r.0.handlers == HandlerIds(0, 0) && r.1 == [Off(DragHandler, l.handlers.drag), Off(ZoomHandler, l.handlers.zoom)]
    ensures !l.attached ==> r == (l, [])
  {
    if l.attached then
      (Lifecycle(false, HandlerIds(0, 0)), [Off(DragHandler, l.handlers.drag), Off(ZoomHandler, l.handlers.zoom)])
    else
      (l, [])
  }

  /** Detaching twice is detaching once. */
  lemma DetachIdempotent(l: Lifecycle)
    ensures DetachStep(DetachStep(l).0) == (DetachStep(l).0, [])
  {
  }

  /** Detaching right after attaching unregisters exactly the handlers attaching registered,
      in the same order, and leaves the control as new. */
  lemma AttachThenDetach(l: Lifecycle, drag_id: nat, zoom_id: nat)
    ensures var a := AttachStep(l, drag_id, zoom_id);
            var d := DetachStep(a.0);
            && d.0 == NEW_CONTROL
            && a.1 + d.1 == [On(DragHandler, drag_id), On(ZoomHandler, zoom_id),
                             Off(DragHandler, drag_id), Off(ZoomHandler, zoom_id)]
  {
  }

  /** `handle_zoom`: zoom at the event's cursor, and stop there. */
  function ZoomOutcome(p: Pos, e: ZoomEvent, g: Geometry): (r: (Pos, EventState))
    requires ValidPos(p) && e.delta != 0.0
    ensures r.1 == Final && ValidPos(r.0)
  {
    (ZoomPos(p, e.delta, g.locate(p, e.cursor_position)), Final)
  }

  /** `handle_drag`: the left button pans, the right turns about the cursor, the middle
      tilts; each stops there. Another button is passed on untouched. */
  function DragOutcome(p: Pos, e: DragEvent, g: Geometry): (r: (Pos, EventState))
    requires ValidPos(p)
    ensures r.1 == Continue <==> e.button.Other?
    ensures e.button.Other? ==> r.0 == p
    ensures ValidPos(r.0)
  {
    match e.button
    case Left => (TranslatePxPos(p, e.dx, e.dy, g), Final)
    case Right => (RightDragPos(p, e.dx, e.dy, e.curr_cursor_position, g), Final)
    case Middle => (MiddleDragPos(p, e.dy), Final)
    case Other(_) => (p, Continue)
  }

  /** The default control's handlers move the position as `Map::handle_event` does for the
      matching map event; its right-button turn is about the cursor after the move. */
  lemma HandlersAgreeWithMapRouting(p: Pos, e: DragEvent, z: ZoomEvent, g: Geometry)
    requires ValidPos(p) && z.delta != 0.0
    ensures ZoomOutcome(p, z, g).0 == HandledPos(p, Zoom(z.delta, z.cursor_position), g)
    ensures e.button == Left ==> DragOutcome(p, e, g).0 == HandledPos(p, Drag(e.dx, e.dy), g)
    ensures e.button == Right ==>
              DragOutcome(p, e, g).0 == HandledPos(p, RightButtonDrag(e.dx, e.dy, e.curr_cursor_position), g)
    ensures e.button == Middle ==> DragOutcome(p, e, g).0 == HandledPos(p, MiddleButtonDrag(e.dx, e.dy), g)
  {
  }

  /** A right-button drag stops the event whatever happens, and turns only about z. It changes
      nothing when the cursor is over the centre (`v1` has length zero), or when the cursor's
      map point is the centre moved by the drag (`v2` has length zero). */
  lemma RightDragIsFinal(p: Pos, e: DragEvent, g: Geometry)
    requires ValidPos(p) && e.button == Right
    ensures DragOutcome(p, e, g).1 == Final
    ensures DragOutcome(p, e, g).0 == p.(rotation_z := DragOutcome(p, e, g).0.rotation_z)
    ensures g.locate(p, e.curr_cursor_position) == CenterOf(p) && g.sqrt(0.0) == 0.0 ==> DragOutcome(p, e, g).0 == p
    ensures (&& g.locate(p, e.curr_cursor_position) == Point(CenterOf(p).x + e.dx as real * ResolutionOf(p),
                                                            CenterOf(p).y + e.dy as real * ResolutionOf(p))
             && g.sqrt(0.0) == 0.0)
            ==> DragOutcome(p, e, g).0 == p
  {
    if g.locate(p, e.curr_cursor_position) == CenterOf(p) && g.sqrt(0.0) == 0.0 {
      RightDragAtCentreDoesNothing(p, e.dx, e.dy, e.curr_cursor_position, g);
    }
  }

  /** A middle-button drag stops the event and only tilts, by `dy * ANGLE_STEP`, within range. */
  lemma MiddleDragIsFinal(p: Pos, e: DragEvent, g: Geometry)
    requires ValidPos(p) && e.button == Middle
    ensures DragOutcome(p, e, g).1 == Final
    ensures DragOutcome(p, e, g).0 == p.(rotation_x := DragOutcome(p, e, g).0.rotation_x)
    ensures MIN_X_ANGLE <= p.rotation_x + e.dy as real * ANGLE_STEP <= MAX_X_ANGLE ==>
              DragOutcome(p, e, g).0.rotation_x == p.rotation_x + e.dy as real * ANGLE_STEP
  {
  }

  // ---------------------------------------------------------------------------------------
  // The object and the handlers

  /** `DefaultMapControl`. */
  class DefaultMapControl {
    var map_cell: Option<Map>
    var handlers: HandlerIds

    function State(): Lifecycle
      reads this
    {
      Lifecycle(map_cell.Some?, handlers)
    }

    /** `DefaultMapControl::new`. */
    constructor ()
      ensures map_cell == None && State() == NEW_CONTROL
    {
      map_cell := None;
      handlers := HandlerIds(0, 0);
    }

    /** `is_attached`. */
    predicate IsAttached()
      reads this
    {
      map_cell.Some?
    }

    /** `attach`, with the ids the map's handler store hands out given as `drag_id` and
        `zoom_id`. */
    method Attach(m: Map, drag_id: nat, zoom_id: nat)
      modifies this, m
      ensures map_cell == Some(m) && IsAttached()
      ensures State() == AttachStep(old(State()), drag_id, zoom_id).0
      ensures m.listener_calls == old(m.listener_calls) + AttachStep(old(State()), drag_id, zoom_id).1
      ensures m.clicks == old(m.clicks)
    {
      m.Listen(DragHandler, drag_id);
      m.Listen(ZoomHandler, zoom_id);
      handlers := HandlerIds(drag_id, zoom_id);
      map_cell := Some(m);
    }

    /** `detach`. */
    method Detach()
      modifies this, if map_cell.Some? then {map_cell.value} else {}
      ensures map_cell == None && !IsAttached()
      ensures State() == DetachStep(old(State())).0
      ensures old(map_cell).Some? ==>
                && old(map_cell).value.listener_calls == old(map_cell.value.listener_calls) + DetachStep(old(State())).1
                && old(map_cell).value.clicks == old(map_cell.value.clicks)
    {
      if map_cell.Some? {
        var m := map_cell.value;
        m.Unlisten(DragHandler, handlers.drag);
        m.Unlisten(ZoomHandler, handlers.zoom);
        handlers := HandlerIds(0, 0);
        map_cell := None;
      }
    }

    /** `Drop::drop`: detach. */
    method Drop()
      modifies this, if map_cell.Some? then {map_cell.value} else {}
      ensures map_cell == None
      ensures State() == DetachStep(old(State())).0
      ensures old(map_cell).Some? ==>
                && old(map_cell).value.listener_calls == old(map_cell.value.listener_calls) + DetachStep(old(State())).1
                && old(map_cell).value.clicks == old(map_cell.value.clicks)
    {
      Detach();
    }
  }

  /** `handle_zoom`. */
  method HandleZoom(e: ZoomEvent, m: Map, g: Geometry) returns (s: EventState)
    requires ValidPos(m.position.Snapshot()) && e.delta != 0.0
    modifies m.position
    ensures (m.position.Snapshot(), s) == ZoomOutcome(old(m.position.Snapshot()), e, g)
  {
    m.position.Zoom(e.delta, e.cursor_position, g);
    return Final;
  }

  /** `handle_left_button_drag`. */
  method HandleLeftButtonDrag(dx: int, dy: int, m: Map, g: Geometry) returns (s: EventState)
    requires ValidPos(m.position.Snapshot())
    modifies m.position
    ensures m.position.Snapshot() == TranslatePxPos(old(m.position.Snapshot()), dx, dy, g) && s == Final
  {
    m.position.TranslatePx(dx, dy, g);
    return Final;
  }

  /** `handle_middle_button_drag`. */
  method HandleMiddleButtonDrag(dy: int, m: Map) returns (s: EventState)
    modifies m.position
    ensures m.position.Snapshot() == MiddleDragPos(old(m.position.Snapshot()), dy) && s == Final
  {
    m.position.Rotate(dy as real * ANGLE_STEP, 0.0);
    return Final;
  }

  /** `handle_right_button_drag`. */
  method HandleRightButtonDrag(dx: int, dy: int, m: Map, cursor_position: Px, g: Geometry) returns (s: EventState)
    requires ValidPos(m.position.Snapshot())
    modifies m.position
    ensures m.position.Snapshot() == RightDragPos(old(m.position.Snapshot()), dx, dy, cursor_position, g)
    ensures s == Final
  {
    var position := m.position;
    var turn := RightDragTurn(position.Snapshot(), dx, dy, cursor_position, g);
    if turn.None? {
      return Final;
    }
    position.Rotate(0.0, turn.value);
    return Final;
  }

  /** `handle_drag`. */
  method HandleDrag(e: DragEvent, m: Map, g: Geometry) returns (s: EventState)
    requires ValidPos(m.position.Snapshot())
    modifies m.position
    ensures (m.position.Snapshot(), s) == DragOutcome(old(m.position.Snapshot()), e, g)
  {
    match e.button
    case Left => s := HandleLeftButtonDrag(e.dx, e.dy, m, g);
    case Right => s := HandleRightButtonDrag(e.dx, e.dy, m, e.curr_cursor_position, g);
    case Middle => s := HandleMiddleButtonDrag(e.dy, m);
    case Other(_) => s := Continue;
  }
}
