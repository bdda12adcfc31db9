/** The input events the controls read (winit's `WindowEvent`, `MouseButton`, `ElementState` and
    `MouseScrollDelta`) and the events they produce (`ClickEvent`, `DragEvent`, `ZoomEvent`,
    `MapEvent`, `EventState`). */
module Events {
  import opened Primitives

  const I32_MAX: int := 0x7fff_ffff

  /** winit's mouse button; `Other` carries the platform's button code. */
  datatype MouseButton = Left | Right | Middle | Other(code: nat)

  datatype ElementState = Pressed | Released

  /** winit's scroll amount: in lines, or in logical pixels (`f64`, read as `f32`). */
  datatype ScrollDelta = LineDelta(x: real, y: real) | PixelDelta(x: real, y: real)

  /** The window events the controls react to; every other event is `OtherWindowEvent`. The cursor
      position arrives as a pair of `f64`. */
  datatype WindowEvent =
    | MouseInput(button: MouseButton, state: ElementState)
    | CursorMoved(x: real, y: real)
    | MouseWheel(delta: ScrollDelta)
    | OtherWindowEvent

  /** A click: where the cursor was when the button came up, and which button. */
  datatype ClickEvent = ClickEvent(cursor_position: Px, button: MouseButton)

  /** A drag step: the movement since the last cursor event (y pointing up), the button, and the
      cursor position after the move. */
  datatype DragEvent = DragEvent(dx: int, dy: int, button: MouseButton, curr_cursor_position: Px)

  /** A zoom step: the scale factor and the cursor position it is centred on. */
  datatype ZoomEvent = ZoomEvent(delta: real, cursor_position: Px)

  /** The events `Map::handle_event` routes. */
  datatype MapEvent =
    | Click(click: ClickEvent)
    | DoubleClick(double_click: ClickEvent)
    | Drag(dx: int, dy: int)
    | RightButtonDrag(dx: int, dy: int, cursor_position: Px)
    | MiddleButtonDrag(dx: int, dy: int)
    | Zoom(delta: real, cursor_position: Px)

  /** The two kinds of handler the default control registers on a map. */
  datatype HandlerKind = DragHandler | ZoomHandler

  /** A call of `EventListener::on` (which registered a handler under `id`) or `off`. */
  datatype ListenerCall = On(kind: HandlerKind, id: nat) | Off(kind: HandlerKind, id: nat)

  /** What a handler answers: let later handlers see the event, or stop here. */
  datatype EventState = Continue | Final

  /** Rust's `f64 as i32`: truncation toward zero, saturating at the ends of the `i32` range. */
  function CastToI32(v: real): (r: int)
    ensures I32_MIN <= r <= I32_MAX
    ensures I32_MIN as real <= v <= I32_MAX as real ==>
              (v >= 0.0 ==> r as real <= v < r as real + 1.0) && (v < 0.0 ==> r as real - 1.0 < v <= r as real)
    ensures v <= I32_MIN as real ==> r == I32_MIN
    ensures v >= I32_MAX as real ==> r == I32_MAX
  {
    var t := if v >= 0.0 then Floor(v) else -Floor(-v);
    if t < I32_MIN then I32_MIN else if t > I32_MAX then I32_MAX else t
  }

  /** Number of distinct `i32` values. */
  const I32_MODULUS: int := 0x1_0000_0000

  /** Two's-complement wrap-around into the `i32` range of the sum or difference of two `i32`
      values: what `i32` arithmetic does on overflow in a release build. */
  function WrapI32(v: int): (r: int)
    requires 2 * I32_MIN <= v <= I32_MAX - I32_MIN
    ensures I32_MIN <= r <= I32_MAX
    ensures r == v || r == v + I32_MODULUS || r == v - I32_MODULUS
    ensures I32_MIN <= v <= I32_MAX ==> r == v
  {
    if v < I32_MIN then v + I32_MODULUS else if v > I32_MAX then v - I32_MODULUS else v
  }

  /** `i32::abs` in a release build: the absolute value, except that `i32::MIN` stays itself. */
  function WrappingAbsI32(v: int): (r: int)
    requires I32_MIN <= v <= I32_MAX
    ensures I32_MIN <= r <= I32_MAX
    ensures v != I32_MIN ==> r == Abs(v)
    ensures v == I32_MIN ==> r == I32_MIN
  {
    if v == I32_MIN then I32_MIN else Abs(v)
  }

  /** Whole coordinates inside the `i32` range pass through the cast unchanged. */
  lemma CastWholeNumber(n: int)
    requires I32_MIN <= n <= I32_MAX
    ensures CastToI32(n as real) == n
  {
    if n < 0 {
      assert Floor(-(n as real)) == -n;
    }
  }
}
