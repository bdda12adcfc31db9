/** The viewport of `src/map.rs`: `MapPosition`'s centre, resolution, screen size, tilt and
    rotation, read through the matrix entries the code uses, and the routing of `MapEvent`s in
    `Map::handle_event`. The rotation matrices, the screen-to-map transformation and the
    square root and arc cosine of the right-button drag are inputs (a `Geometry`). */
module MapView {
  import opened Primitives
  import opened Events

  /** `std::f32::consts::FRAC_PI_8`, as a decimal. */
  const FRAC_PI_8: real := 0.39269908169872415480783
  /** The tilt range of `rotate`. */
  const MIN_X_ANGLE: real := 0.0
  const MAX_X_ANGLE: real := 3.0 * FRAC_PI_8
  /** `ANGLE_STEP`: radians of tilt per pixel of a middle-button drag. */
  const ANGLE_STEP: real := 0.005

  /** The fields of `MapPosition` through the entries the code reads: the `screen_scale` and
      `scale` diagonals (the scale is always uniform), the translation column of `translate`,
      and the two angles. */
  datatype Pos = Pos(
    screen_scale_x: real, screen_scale_y: real, screen_scale_z: real,
    scale: real,
    translate_x: real, translate_y: real, translate_z: real,
    rotation_x: real, rotation_z: real)

  /** What the divisions of the position need, and the tilt range `rotate` keeps. */
  predicate ValidPos(p: Pos)
  {
    p.scale != 0.0 && p.screen_scale_x != 0.0 && p.screen_scale_y != 0.0
    && MIN_X_ANGLE <= p.rotation_x <= MAX_X_ANGLE
  }

  /** `MapPosition::default`: every matrix the identity, both angles zero. */
  const DEFAULT_POS: Pos := Pos(1.0, 1.0, 1.0, 1.0, 0.0, 0.0, 0.0, 0.0, 0.0)

  /** The parts of the view computed with matrices and transcendental functions, given from
      outside: `get_map_position` of a pixel, `inverse_rotation` applied to a pixel movement,
      and `f32::sqrt`/`f32::acos`. */
  datatype Geometry = Geometry(
    locate: (Pos, Px) -> Point,
    unrotate: (real, real, int, int) -> (real, real, real),
    sqrt: real -> real,
    acos: real -> real)

  /** `center`: the negated translation. */
  function CenterOf(p: Pos): Point
  {
    Point(-p.translate_x, -p.translate_y)
  }

  /** `resolution`: map units per pixel. */
  function ResolutionOf(p: Pos): real
    requires p.scale != 0.0
  {
    1.0 / p.scale
  }

  /** `width_px`. */
  function WidthPxOf(p: Pos): real
    requires p.screen_scale_x != 0.0
  {
    2.0 / p.screen_scale_x
  }

  /** `height_px`. */
  function HeightPxOf(p: Pos): real
    requires p.screen_scale_y != 0.0
  {
    2.0 / p.screen_scale_y
  }

  /** `set_center`: afterwards `center` is `(x, y)`; scale, screen and angles are kept. */
  function SetCenterPos(p: Pos, x: real, y: real): (r: Pos)
    ensures CenterOf(r) == Point(x, y)
    ensures r.scale == p.scale && r.rotation_x == p.rotation_x && r.rotation_z == p.rotation_z
    ensures (r.screen_scale_x, r.screen_scale_y, r.screen_scale_z) == (p.screen_scale_x, p.screen_scale_y, p.screen_scale_z)
    ensures ValidPos(p) ==> ValidPos(r)
  {
    p.(translate_x := -x, translate_y := -y, translate_z := 0.0)
  }

  /** `set_resolution`: afterwards `resolution` is `resolution`; all else is kept. */
  function SetResolutionPos(p: Pos, resolution: real): (r: Pos)
    requires resolution != 0.0
    ensures r.scale != 0.0 && ResolutionOf(r) == resolution
    ensures r == p.(scale := r.scale)
    ensures ValidPos(p) ==> ValidPos(r)
  {
    p.(scale := 1.0 / resolution)
  }

  /** `set_screen_size`: afterwards `width_px` and `height_px` are the window size; the z
      scale follows the width. */
  function SetScreenSizePos(p: Pos, width: nat, height: nat): (r: Pos)
    requires width > 0 && height > 0
    ensures r.screen_scale_x != 0.0 && r.screen_scale_y != 0.0
    ensures WidthPxOf(r) == width as real && HeightPxOf(r) == height as real
    ensures r.screen_scale_z == r.screen_scale_x
    ensures r == p.(screen_scale_x := r.screen_scale_x, screen_scale_y := r.screen_scale_y, screen_scale_z := r.screen_scale_z)
    ensures ValidPos(p) ==> ValidPos(r)
  {
    p.(screen_scale_x := 2.0 / width as real, screen_scale_y := 2.0 / height as real,
       screen_scale_z := 2.0 / width as real)
  }

  /** `rotate`: the tilt moves by `x` and is clamped to its range; the rotation moves by `z`
      without bound. */
  function RotatePos(p: Pos, x: real, z: real): (r: Pos)
    ensures MIN_X_ANGLE <= r.rotation_x <= MAX_X_ANGLE
    ensures MIN_X_ANGLE <= p.rotation_x + x <= MAX_X_ANGLE ==> r.rotation_x == p.rotation_x + x
    ensures p.rotation_x + x < MIN_X_ANGLE ==> r.rotation_x == MIN_X_ANGLE
    ensures p.rotation_x + x > MAX_X_ANGLE ==> r.rotation_x == MAX_X_ANGLE
    ensures r.rotation_z == p.rotation_z + z
    ensures r == p.(rotation_x := r.rotation_x, rotation_z := r.rotation_z)
    ensures ValidPos(p) ==> ValidPos(r)
  {
    p.(rotation_x := MinReal(MaxReal(p.rotation_x + x, MIN_X_ANGLE), MAX_X_ANGLE),
       rotation_z := p.rotation_z + z)
  }

  /** `zoom` towards the map point `zoom_c` under the cursor: the centre moves to
      `c + (c - zoom_c) * (1 - delta)` and the scale is multiplied by `delta`. */
  function ZoomPos(p: Pos, delta: real, zoom_c: Point): (r: Pos)
    ensures r.scale == p.scale * delta
    ensures CenterOf(r) == Point(CenterOf(p).x + (CenterOf(p).x - zoom_c.x) * (1.0 - delta),
                                 CenterOf(p).y + (CenterOf(p).y - zoom_c.y) * (1.0 - delta))
    ensures r == p.(scale := r.scale, translate_x := r.translate_x, translate_y := r.translate_y)
    ensures ValidPos(p) && delta != 0.0 ==> ValidPos(r)
  {
    var map_c := CenterOf(p);
    var dx_scaled := (map_c.x - zoom_c.x) * (1.0 - delta);
    var dy_scaled := (map_c.y - zoom_c.y) * (1.0 - delta);
    p.(translate_x := -(map_c.x + dx_scaled), translate_y := -(map_c.y + dy_scaled), scale := p.scale * delta)
  }

  /** `translate_px`: the pixel movement, inverse-rotated and divided by the scale, is added
      to the translation, so the centre moves against it. */
  function TranslatePxPos(p: Pos, dx: int, dy: int, g: Geometry): (r: Pos)
    requires p.scale != 0.0
    ensures var v := g.unrotate(p.rotation_x, p.rotation_z, dx, dy);
            CenterOf(r) == Point(CenterOf(p).x - v.0 * ResolutionOf(p), CenterOf(p).y - v.1 * ResolutionOf(p))
    ensures r == p.(translate_x := r.translate_x, translate_y := r.translate_y, translate_z := r.translate_z)
    ensures ValidPos(p) ==> ValidPos(r)
  {
    var v := g.unrotate(p.rotation_x, p.rotation_z, dx, dy);
    p.(translate_x := p.translate_x + v.0 * (1.0 / p.scale),
       translate_y := p.translate_y + v.1 * (1.0 / p.scale),
       translate_z := p.translate_z + v.2 * (1.0 / p.scale))
  }

  /** `get_map_position` of a view with both angles zero (the inverse rotation is then the
      identity): the pixel's offset from the screen centre, y flipped, times the resolution,
      plus the centre. */
  function UnrotatedMapPosition(p: Pos, px: Px): Point
    requires ValidPos(p)
  {
    Point(CenterOf(p).x + (px.x as real - WidthPxOf(p) / 2.0) * ResolutionOf(p),
          CenterOf(p).y + (HeightPxOf(p) / 2.0 - px.y as real) * ResolutionOf(p))
  }

  /** The right-button drag's turn: the angle between the centre-to-cursor vector `v1` and
      `v1` moved by the drag (in map units), negated when the turn is counter-clockwise; none
      when either vector has length zero or the normalised dot product exceeds 1. */
  function RightDragTurn(p: Pos, dx: int, dy: int, cursor_position: Px, g: Geometry): (t: Option<real>)
    requires p.scale != 0.0
    ensures g.locate(p, cursor_position) == CenterOf(p) && g.sqrt(0.0) == 0.0 ==> t.None?
    ensures (&& g.locate(p, cursor_position) == Point(CenterOf(p).x + dx as real * ResolutionOf(p),
                                                     CenterOf(p).y + dy as real * ResolutionOf(p))
             && g.sqrt(0.0) == 0.0)
            ==> t.None?
    ensures t.Some? ==> exists c: real :: c <= 1.0 && (t.value == g.acos(c) || t.value == -g.acos(c))
  {
    var center := CenterOf(p);
    var position := g.locate(p, cursor_position);
    var v1 := (center.x - position.x, center.y - position.y);
    var ddx := dx as real * ResolutionOf(p);
    var ddy := dy as real * ResolutionOf(p);
    var v2 := (v1.0 + ddx, v1.1 + ddy);
    var v1_len := g.sqrt(v1.0 * v1.0 + v1.1 * v1.1);
    var v2_len := g.sqrt(v2.0 * v2.0 + v2.1 * v2.1);
    if v1_len == 0.0 || v2_len == 0.0 then None
    else
      var prod := (v1.0 * v2.0 + v1.1 * v2.1) / v1_len / v2_len;
      if prod > 1.0 then None
      else
        var angle := g.acos(prod);
        Some(if v1.0 * v2.1 - v1.1 * v2.0 > 0.0 then -angle else angle)
  }

  /** A right-button drag: rotate about the z axis by the turn, if there is one. */
  function RightDragPos(p: Pos, dx: int, dy: int, cursor_position: Px, g: Geometry): (r: Pos)
    requires ValidPos(p)
    ensures RightDragTurn(p, dx, dy, cursor_position, g).None? ==> r == p
    ensures RightDragTurn(p, dx, dy, cursor_position, g).Some? ==>
              r == p.(rotation_z := p.rotation_z + RightDragTurn(p, dx, dy, cursor_position, g).value)
    ensures ValidPos(r)
  {
    match RightDragTurn(p, dx, dy, cursor_position, g)
    case None => p
    case Some(angle) => RotatePos(p, 0.0, angle)
  }

  /** A middle-button drag: tilt by `dy * ANGLE_STEP`. */
  function MiddleDragPos(p: Pos, dy: int): (r: Pos)
    ensures r == RotatePos(p, dy as real * ANGLE_STEP, 0.0)
    ensures r == p.(rotation_x := r.rotation_x)
    ensures ValidPos(p) ==> ValidPos(r)
  {
    RotatePos(p, dy as real * ANGLE_STEP, 0.0)
  }

  /** The zoom deltas the map accepts: the model keeps the scale non-zero. */
  predicate Routable(event: MapEvent)
  {
    event.Zoom? ==> event.delta != 0.0
  }

  /** The position after `Map::handle_event`: clicks leave it alone, drags translate, the right
      button turns, the middle button tilts, the wheel zooms at the cursor. */
  function HandledPos(p: Pos, event: MapEvent, g: Geometry): (r: Pos)
    requires ValidPos(p) && Routable(event)
    ensures ValidPos(r)
    ensures (event.Click? || event.DoubleClick?) ==> r == p
  {
    match event
    case Click(_) => p
    case DoubleClick(_) => p
    case Drag(dx, dy) => TranslatePxPos(p, dx, dy, g)
    case RightButtonDrag(dx, dy, cursor_position) => RightDragPos(p, dx, dy, cursor_position, g)
    case MiddleButtonDrag(_, dy) => MiddleDragPos(p, dy)
    case Zoom(delta, cursor_position) => ZoomPos(p, delta, g.locate(p, cursor_position))
  }

  // ---------------------------------------------------------------------------------------
  // The objects

  /** `MapPosition`, updated in place. */
  class MapPosition {
    var screen_scale_x: real
    var screen_scale_y: real
    var screen_scale_z: real
    var scale: real
    var translate_x: real
    var translate_y: real
    var translate_z: real
    var rotation_x: real
    var rotation_z: real

    function Snapshot(): Pos
      reads this
    {
      Pos(screen_scale_x, screen_scale_y, screen_scale_z, scale, translate_x, translate_y, translate_z,
          rotation_x, rotation_z)
    }

    /** `MapPosition::default`. */
    constructor ()
      ensures Snapshot() == DEFAULT_POS
    {
      screen_scale_x, screen_scale_y, screen_scale_z := 1.0, 1.0, 1.0;
      scale := 1.0;
      translate_x, translate_y, translate_z := 0.0, 0.0, 0.0;
      rotation_x, rotation_z := 0.0, 0.0;
    }

    method SetCenter(x: real, y: real)
      modifies this
      ensures Snapshot() == SetCenterPos(old(Snapshot()), x, y)
    {
      translate_x, translate_y, translate_z := -x, -y, 0.0;
    }

    method SetResolution(resolution: real)
      requires resolution != 0.0
      modifies this
      ensures Snapshot() == SetResolutionPos(old(Snapshot()), resolution)
    {
      scale := 1.0 / resolution;
    }

    method SetScreenSize(width: nat, height: nat)
      requires width > 0 && height > 0
      modifies this
      ensures Snapshot() == SetScreenSizePos(old(Snapshot()), width, height)
    {
      screen_scale_x := 2.0 / width as real;
      screen_scale_y := 2.0 / height as real;
      screen_scale_z := 2.0 / width as real;
    }

    method Rotate(x: real, z: real)
      modifies this
      ensures Snapshot() == RotatePos(old(Snapshot()), x, z)
    {
      rotation_x := MinReal(MaxReal(rotation_x + x, MIN_X_ANGLE), MAX_X_ANGLE);
      rotation_z := rotation_z + z;
    }

    /** `zoom`, with `get_map_position(center_px)` read from the geometry. */
    method Zoom(delta: real, center_px: Px, g: Geometry)
      modifies this
      ensures Snapshot() == ZoomPos(old(Snapshot()), delta, g.locate(old(Snapshot()), center_px))
    {
      var zoom_c := g.locate(Snapshot(), center_px);
      var map_c := Point(-translate_x, -translate_y);
      var dx := map_c.x - zoom_c.x;
      var dy := map_c.y - zoom_c.y;
      var dx_scaled := dx * (1.0 - delta);
      var dy_scaled := dy * (1.0 - delta);
      translate_x := -(map_c.x + dx_scaled);
      translate_y := -(map_c.y + dy_scaled);
      scale := scale * delta;
    }

    method TranslatePx(dx: int, dy: int, g: Geometry)
      requires scale != 0.0
      modifies this
      ensures Snapshot() == TranslatePxPos(old(Snapshot()), dx, dy, g)
    {
      var rotated := g.unrotate(rotation_x, rotation_z, dx, dy);
      var inverse_scale := 1.0 / scale;
      translate_x := translate_x + rotated.0 * inverse_scale;
      translate_y := translate_y + rotated.1 * inverse_scale;
      translate_z := translate_z + rotated.2 * inverse_scale;
    }
  }

  /** `Map` as far as event routing goes: its position and the clicks it hands to its
      listeners. */
  class Map {
    const position: MapPosition
    var clicks: seq<ClickEvent>
    /** The calls made on the map's handler store, in order. */
    var listener_calls: seq<ListenerCall>

    constructor ()
      ensures fresh(position) && position.Snapshot() == DEFAULT_POS && clicks == [] && listener_calls == []
    {
      position := new MapPosition();
      clicks := [];
      listener_calls := [];
    }

    /** `EventListener::on`: the store registers the handler under `id`. */
    method Listen(kind: HandlerKind, id: nat)
      modifies this
      ensures listener_calls == old(listener_calls) + [On(kind, id)] && clicks == old(clicks)
    {
      listener_calls := listener_calls + [On(kind, id)];
    }

    /** `EventListener::off`. */
    method Unlisten(kind: HandlerKind, id: nat)
      modifies this
      ensures listener_calls == old(listener_calls) + [Off(kind, id)] && clicks == old(clicks)
    {
      listener_calls := listener_calls + [Off(kind, id)];
    }

    /** `handle_event` (and so `trigger`). */
    method HandleEvent(event: MapEvent, g: Geometry)
      requires ValidPos(position.Snapshot()) && Routable(event)
      modifies this, position
      ensures position.Snapshot() == HandledPos(old(position.Snapshot()), event, g)
      ensures clicks == old(clicks) + (if event.Click? then [event.click] else [])
      ensures listener_calls == old(listener_calls)
    {
      match event
      case Click(e) => clicks := clicks + [e];
      case DoubleClick(_) =>
      case Drag(dx, dy) => position.TranslatePx(dx, dy, g);
      case RightButtonDrag(dx, dy, cursor_position) =>
        var turn := RightDragTurn(position.Snapshot(), dx, dy, cursor_position, g);
        if turn.Some? {
          position.Rotate(0.0, turn.value);
        }
      case MiddleButtonDrag(_, dy) => position.Rotate(dy as real * ANGLE_STEP, 0.0);
      case Zoom(delta, cursor_position) => position.Zoom(delta, cursor_position, g);
    }
  }

  // ---------------------------------------------------------------------------------------
  // Properties

  /** The default view is centred on the origin at resolution 1 with no tilt or rotation,
      on a 2 by 2 pixel screen. */
  lemma DefaultPosition()
    ensures ValidPos(DEFAULT_POS)
    ensures CenterOf(DEFAULT_POS) == Point(0.0, 0.0) && ResolutionOf(DEFAULT_POS) == 1.0
    ensures DEFAULT_POS.rotation_x == 0.0 && DEFAULT_POS.rotation_z == 0.0
    ensures WidthPxOf(DEFAULT_POS) == 2.0 && HeightPxOf(DEFAULT_POS) == 2.0
  {
  }

  /** Zooming by 1, or at the centre, leaves the centre where it is; the resolution is always
      divided by `delta`, the angles are kept. */
  lemma ZoomKeepsCentre(p: Pos, delta: real, zoom_c: Point)
    requires p.scale != 0.0 && delta != 0.0
    ensures var r := ZoomPos(p, delta, zoom_c);
            && ResolutionOf(r) == ResolutionOf(p) / delta
            && r.rotation_x == p.rotation_x && r.rotation_z == p.rotation_z
            && (delta == 1.0 || zoom_c == CenterOf(p) ==> CenterOf(r) == CenterOf(p))
  {
    var r := ZoomPos(p, delta, zoom_c);
    assert r.scale == p.scale * delta;
    calc {
      ResolutionOf(r);
      1.0 / (p.scale * delta);
      (1.0 / p.scale) / delta;
    }
  }

  /** How far zooming by `delta` moves the map point under the zoom pixel, relative to its
      offset from the centre: `(delta - 1)^2 / delta`, written as a product of two factors. */
  function DriftFactor(delta: real): real
    requires delta != 0.0
  {
    (delta - 1.0) * (1.0 - 1.0 / delta)
  }

  /** The 1-dimensional core of `ZoomDrift`. */
  lemma DriftAlongAxis(c: real, o: real, res: real, delta: real)
    requires delta != 0.0
    ensures var zc := c + o * res;
            var c' := c + (c - zc) * (1.0 - delta);
            c' + o * (res / delta) == zc + (zc - c) * DriftFactor(delta)
  {
    var zc := c + o * res;
    var k := o * res;
    assert zc - c == k;
    assert c + (c - zc) * (1.0 - delta) == c - k + k * delta;
    assert o * (res / delta) == k / delta;
    assert DriftFactor(delta) == delta - 2.0 + 1.0 / delta;
    assert k * (delta - 2.0 + 1.0 / delta) == k * delta - 2.0 * k + k / delta;
  }

  lemma MulNonZero(a: real, b: real)
    requires a != 0.0 && b != 0.0
    ensures a * b != 0.0
  {
  }

  /** The drift factor is zero only for `delta` 1. */
  lemma DriftFactorZero(delta: real)
    requires delta != 0.0
    ensures DriftFactor(delta) == 0.0 <==> delta == 1.0
  {
    if delta != 1.0 {
      assert 1.0 / delta != 1.0;
      var a := delta - 1.0;
      var b := 1.0 - 1.0 / delta;
      MulNonZero(a, b);
      assert DriftFactor(delta) == a * b;
    }
  }

  /** A point moved by `k` times its offset from `c` stays put iff `k` is 0 or it is `c`. */
  lemma ScaledOffsetZero(zc: Point, c: Point, k: real)
    ensures Point(zc.x + (zc.x - c.x) * k, zc.y + (zc.y - c.y) * k) == zc <==> k == 0.0 || zc == c
  {
    if k != 0.0 && zc != c {
      assert zc.x - c.x != 0.0 || zc.y - c.y != 0.0;
      assert (zc.x - c.x) * k != 0.0 || (zc.y - c.y) * k != 0.0;
    }
  }

  /** The zoomed view's scalars, in the terms `UnrotatedMapPosition` reads. */
  lemma ZoomedScalars(p: Pos, delta: real, zc: Point)
    requires ValidPos(p) && delta != 0.0
    ensures var r := ZoomPos(p, delta, zc);
            && ValidPos(r) && WidthPxOf(r) == WidthPxOf(p) && HeightPxOf(r) == HeightPxOf(p)
            && ResolutionOf(r) == ResolutionOf(p) / delta
  {
    ZoomKeepsCentre(p, delta, zc);
  }

  /** Where the map point under `px` goes along x when zooming at it in an unrotated view. */
  lemma ZoomedMapPositionX(p: Pos, delta: real, px: Px)
    requires ValidPos(p) && delta != 0.0
    ensures var zc := UnrotatedMapPosition(p, px);
            var r := ZoomPos(p, delta, zc);
            ValidPos(r) && UnrotatedMapPosition(r, px).x == zc.x + (zc.x - CenterOf(p).x) * DriftFactor(delta)
  {
    var zc := UnrotatedMapPosition(p, px);
    var r := ZoomPos(p, delta, zc);
    var res := ResolutionOf(p);
    var c := CenterOf(p);
    ZoomedScalars(p, delta, zc);
    var ox := px.x as real - WidthPxOf(p) / 2.0;
    assert zc.x == c.x + ox * res;
    assert CenterOf(r).x == c.x + (c.x - zc.x) * (1.0 - delta);
    DriftAlongAxis(c.x, ox, res, delta);
    assert UnrotatedMapPosition(r, px).x == CenterOf(r).x + ox * (res / delta);
  }

  /** Where the map point under `px` goes along y when zooming at it in an unrotated view. */
  lemma ZoomedMapPositionY(p: Pos, delta: real, px: Px)
    requires ValidPos(p) && delta != 0.0
    ensures var zc := UnrotatedMapPosition(p, px);
            var r := ZoomPos(p, delta, zc);
            ValidPos(r) && UnrotatedMapPosition(r, px).y == zc.y + (zc.y - CenterOf(p).y) * DriftFactor(delta)
  {
    var zc := UnrotatedMapPosition(p, px);
    var r := ZoomPos(p, delta, zc);
    var res := ResolutionOf(p);
    var c := CenterOf(p);
    ZoomedScalars(p, delta, zc);
    var oy := HeightPxOf(p) / 2.0 - px.y as real;
    assert zc.y == c.y + oy * res;
    assert CenterOf(r).y == c.y + (c.y - zc.y) * (1.0 - delta);
    DriftAlongAxis(c.y, oy, res, delta);
    assert UnrotatedMapPosition(r, px).y == CenterOf(r).y + oy * (res / delta);
  }

  /** In an unrotated view, zooming at a pixel does not keep the map point under that pixel
      in place: the point moves away from the centre by `(delta - 1)^2 / delta` times its
      offset, so it stays put only when `delta` is 1 or the pixel shows the centre. */
  lemma ZoomDrift(p: Pos, delta: real, px: Px)
    requires ValidPos(p) && p.rotation_x == 0.0 && p.rotation_z == 0.0 && delta != 0.0
    ensures var zc := UnrotatedMapPosition(p, px);
            var r := ZoomPos(p, delta, zc);
            var k := DriftFactor(delta);
            && ValidPos(r)
            && UnrotatedMapPosition(r, px) == Point(zc.x + (zc.x - CenterOf(p).x) * k, zc.y + (zc.y - CenterOf(p).y) * k)
            && (UnrotatedMapPosition(r, px) == zc <==> delta == 1.0 || zc == CenterOf(p))
  {
    var zc := UnrotatedMapPosition(p, px);
    var k := DriftFactor(delta);
    ZoomedMapPositionX(p, delta, px);
    ZoomedMapPositionY(p, delta, px);
    DriftFactorZero(delta);
    ScaledOffsetZero(zc, CenterOf(p), k);
  }

  /** A middle-button drag tilts and changes nothing else; the tilt stays in range. */
  lemma MiddleDragOnlyTilts(p: Pos, dx: int, dy: int, g: Geometry)
    requires ValidPos(p)
    ensures var r := HandledPos(p, MiddleButtonDrag(dx, dy), g);
            && r == p.(rotation_x := r.rotation_x)
            && MIN_X_ANGLE <= r.rotation_x <= MAX_X_ANGLE
            && (MIN_X_ANGLE <= p.rotation_x + dy as real * ANGLE_STEP <= MAX_X_ANGLE ==>
                  r.rotation_x == p.rotation_x + dy as real * ANGLE_STEP)
  {
  }

  /** A right-button drag with the cursor over the centre does nothing: `v1` has length 0. */
  lemma RightDragAtCentreDoesNothing(p: Pos, dx: int, dy: int, cursor_position: Px, g: Geometry)
    requires ValidPos(p)
    requires g.locate(p, cursor_position) == CenterOf(p) && g.sqrt(0.0) == 0.0
    ensures HandledPos(p, RightButtonDrag(dx, dy, cursor_position), g) == p
  {
    var center := CenterOf(p);
    var position := g.locate(p, cursor_position);
    assert (center.x - position.x) * (center.x - position.x) + (center.y - position.y) * (center.y - position.y) == 0.0;
  }

  /** A right-button drag changes at most `rotation_z`. */
  lemma RightDragOnlyTurns(p: Pos, dx: int, dy: int, cursor_position: Px, g: Geometry)
    requires ValidPos(p)
    ensures var r := HandledPos(p, RightButtonDrag(dx, dy, cursor_position), g);
            r == p.(rotation_z := r.rotation_z)
  {
  }

  /** The scalar round-trips of the setters. */
  lemma SettersRoundTrip(p: Pos, x: real, y: real, resolution: real, width: nat, height: nat)
    requires resolution != 0.0 && width > 0 && height > 0
    ensures CenterOf(SetCenterPos(p, x, y)) == Point(x, y)
    ensures ResolutionOf(SetResolutionPos(p, resolution)) == resolution
    ensures WidthPxOf(SetScreenSizePos(p, width, height)) == width as real
    ensures HeightPxOf(SetScreenSizePos(p, width, height)) == height as real
    ensures CenterOf(SetResolutionPos(SetCenterPos(p, x, y), resolution)) == Point(x, y)
    ensures ResolutionOf(SetCenterPos(SetResolutionPos(p, resolution), x, y)) == resolution
  {
  }

  /** Clicks reach the map's listeners; double clicks are dropped. */
  lemma ClicksLeavePositionAlone(p: Pos, e: ClickEvent, g: Geometry)
    requires ValidPos(p)
    ensures HandledPos(p, Click(e), g) == p && HandledPos(p, DoubleClick(e), g) == p
  {
  }
}
