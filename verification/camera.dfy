/**
 * The pan/zoom camera of src/camera.rs: a left-button drag pans, the wheel
 * zooms, and `screen_to_world` / `get_view_matrix` relate screen, world and
 * view coordinates. `f32` is modelled as `real`.
 */
module CameraControl {
  import opened Wrappers

  /** A `[f32; 2]` point or offset. */
  datatype Vec2 = Vec2(x: real, y: real)

  /** The mouse buttons winit reports. */
  datatype MouseButton = Left | Right | Middle | Back | Forward | Other(id: nat)

  const MIN_ZOOM: real := 0.1
  const MAX_ZOOM: real := 10.0
  const ZOOM_SPEED: real := 0.1

  /** `f32::clamp(MIN_ZOOM, MAX_ZOOM)`. */
  function ClampZoom(z: real): (r: real)
    ensures MIN_ZOOM <= r <= MAX_ZOOM
    ensures MIN_ZOOM <= z <= MAX_ZOOM ==> r == z
    ensures z < MIN_ZOOM ==> r == MIN_ZOOM
    ensures z > MAX_ZOOM ==> r == MAX_ZOOM
  {
    if z < MIN_ZOOM then MIN_ZOOM else if z > MAX_ZOOM then MAX_ZOOM else z
  }

  /** The zoom after a wheel step of `delta`: scaled by `1 + delta * ZOOM_SPEED`, then clamped. */
  function ScrolledZoom(zoom: real, delta: real): (z: real)
    ensures MIN_ZOOM <= z <= MAX_ZOOM
    ensures MIN_ZOOM <= zoom * (1.0 + delta * ZOOM_SPEED) <= MAX_ZOOM ==> z == zoom * (1.0 + delta * ZOOM_SPEED)
    ensures delta == 0.0 && MIN_ZOOM <= zoom <= MAX_ZOOM ==> z == zoom
  {
    ClampZoom(zoom * (1.0 + delta * ZOOM_SPEED))
  }

  /**
   * `screen_to_world`: the world point shown at `screen` in a window of size
   * `window`, for a camera at `position` with `zoom`. Its offset from the
   * camera, scaled by the zoom, is the screen point's offset from the
   * window's centre.
   */
  function WorldAt(screen: Vec2, window: Vec2, zoom: real, position: Vec2): (w: Vec2)
    requires zoom != 0.0
    ensures (w.x - position.x) * zoom == screen.x - window.x / 2.0
    ensures (w.y - position.y) * zoom == screen.y - window.y / 2.0
  {
    Vec2((screen.x - window.x / 2.0) / zoom + position.x, (screen.y - window.y / 2.0) / zoom + position.y)
  }

  /** The camera position after dragging the cursor from `last` to `pos`: moved back by the drag over the zoom. */
  function PannedPosition(position: Vec2, last: Vec2, pos: Vec2, zoom: real): (p: Vec2)
    requires zoom != 0.0
    ensures (position.x - p.x) * zoom == pos.x - last.x
    ensures (position.y - p.y) * zoom == pos.y - last.y
  {
    Vec2(position.x - (pos.x - last.x) / zoom, position.y - (pos.y - last.y) / zoom)
  }

  /** A drag keeps the grabbed world point under the cursor. */
  lemma PanKeepsGrabbedPoint(position: Vec2, last: Vec2, pos: Vec2, window: Vec2, zoom: real)
    requires zoom != 0.0
    ensures WorldAt(pos, window, zoom, PannedPosition(position, last, pos, zoom)) == WorldAt(last, window, zoom, position)
  {
  }

  /**
   * The position `handle_scroll` leaves, as written: the old position plus
   * the world point under the cursor after the zoom minus the one before.
   */
  function ScrolledPosition(cursor: Vec2, window: Vec2, zoom: real, newZoom: real, position: Vec2): Vec2
    requires zoom != 0.0 && newZoom != 0.0
  {
    var before := WorldAt(cursor, window, zoom, position);
    var after := WorldAt(cursor, window, newZoom, position);
    Vec2(position.x + (after.x - before.x), position.y + (after.y - before.y))
  }

  /**
   * The position the comment on the adjustment asks for: the old position
   * MINUS the world point under the cursor after the zoom minus the one
   * before.
   */
  function AnchoredPosition(cursor: Vec2, window: Vec2, zoom: real, newZoom: real, position: Vec2): Vec2
    requires zoom != 0.0 && newZoom != 0.0
  {
    var before := WorldAt(cursor, window, zoom, position);
    var after := WorldAt(cursor, window, newZoom, position);
    Vec2(position.x - (after.x - before.x), position.y - (after.y - before.y))
  }

  /** The corrected adjustment keeps the world point under the cursor fixed, for every zoom change. */
  lemma AnchoredKeepsCursor(cursor: Vec2, window: Vec2, zoom: real, newZoom: real, position: Vec2)
    requires zoom != 0.0 && newZoom != 0.0
    ensures WorldAt(cursor, window, newZoom, AnchoredPosition(cursor, window, zoom, newZoom, position))
         == WorldAt(cursor, window, zoom, position)
  {
  }

  /**
   * One axis of the as-written adjustment: with offset `o` of the cursor from
   * the centre, the world coordinate under the cursor afterwards is
   * `p + 2 o / z' - o / z`; it equals `p + o / z` exactly when `o == 0` or `z == z'`.
   */
  lemma {:induction false} DriftOnAxis(o: real, z: real, z2: real, p: real)
    requires z > 0.0 && z2 > 0.0
    ensures o / z2 + (p + ((o / z2 + p) - (o / z + p))) == o / z + p <==> (o == 0.0 || z == z2)
  {
    if o / z2 + (p + ((o / z2 + p) - (o / z + p))) == o / z + p {
      assert o / z2 == o / z;
      if o != 0.0 {
        assert o * z == o * z2 by {
          calc {
            o * z;
            (o / z2) * z2 * z;
            (o / z) * z * z2;
            o * z2;
          }
        }
        assert z == z2;
      }
    }
  }

  /**
   * The as-written adjustment moves the world point under the cursor whenever
   * the zoom changes and the cursor is off the window's centre; when the zoom
   * does not change (a zero step, or a step clamped at a bound) the position
   * does not change either.
   */
  lemma {:induction false} ScrollDriftsCursor(cursor: Vec2, window: Vec2, zoom: real, newZoom: real, position: Vec2)
    requires zoom > 0.0 && newZoom > 0.0
    ensures WorldAt(cursor, window, newZoom, ScrolledPosition(cursor, window, zoom, newZoom, position))
         == WorldAt(cursor, window, zoom, position)
       <==> (zoom == newZoom || (cursor.x == window.x / 2.0 && cursor.y == window.y / 2.0))
    ensures zoom == newZoom ==> ScrolledPosition(cursor, window, zoom, newZoom, position) == position
  {
    DriftOnAxis(cursor.x - window.x / 2.0, zoom, newZoom, position.x);
    DriftOnAxis(cursor.y - window.y / 2.0, zoom, newZoom, position.y);
  }

  /**
   * A concrete case: the default 800x600 window, zoom 1, camera at the
   * origin, cursor 100 pixels right of the centre, one wheel step up. The
   * world point under the cursor was x = 100; after `handle_scroll` it is
   * x = 900/11 (about 81.8), not 100.
   */
  lemma ScrollDriftExample()
    ensures ScrolledZoom(1.0, 1.0) == 1.1
    ensures WorldAt(Vec2(500.0, 300.0), Vec2(800.0, 600.0), 1.0, Vec2(0.0, 0.0)) == Vec2(100.0, 0.0)
    ensures WorldAt(Vec2(500.0, 300.0), Vec2(800.0, 600.0), 1.1,
                    ScrolledPosition(Vec2(500.0, 300.0), Vec2(800.0, 600.0), 1.0, 1.1, Vec2(0.0, 0.0)))
         == Vec2(900.0 / 11.0, 0.0)
  {
  }

  /**
   * The 4x4 `[[f32; 4]; 4]` view matrix applied to the world point `p`
   * (homogeneous `(p.x, p.y, 0, 1)`), each inner array read as one column.
   */
  function Transform(m: seq<seq<real>>, p: Vec2): seq<real>
    requires |m| == 4 && forall k :: 0 <= k < 4 ==> |m[k]| == 4
  {
    seq(4, r requires 0 <= r < 4 => p.x * m[0][r] + p.y * m[1][r] + 0.0 * m[2][r] + 1.0 * m[3][r])
  }

  class Camera {
    var position: Vec2
    var zoom: real
    var dragging: bool
    var lastMousePos: Option<Vec2>
    var windowSize: Vec2

    /** A drag is in progress exactly when the last cursor position is remembered; the zoom stays in range. */
    ghost predicate Valid()
      reads this
    {
      (dragging <==> lastMousePos.Some?) && MIN_ZOOM <= zoom <= MAX_ZOOM
    }

    /** `Camera::new` */
    constructor ()
      ensures Valid()
      ensures position == Vec2(0.0, 0.0) && zoom == 1.0
      ensures !dragging && lastMousePos == None
      ensures windowSize == Vec2(800.0, 600.0)
    {
      position := Vec2(0.0, 0.0);
      zoom := 1.0;
      dragging := false;
      lastMousePos := None;
      windowSize := Vec2(800.0, 600.0);
    }

    method UpdateWindowSize(width: real, height: real)
      requires Valid()
      modifies this
      ensures Valid()
      ensures windowSize == Vec2(width, height)
      ensures position == old(position) && zoom == old(zoom)
      ensures dragging == old(dragging) && lastMousePos == old(lastMousePos)
    {
      windowSize := Vec2(width, height);
    }

    /** `get_view_matrix`: scale by the zoom, then translate by minus the position times the zoom. */
    function ViewMatrix(): (m: seq<seq<real>>)
      reads this
      ensures |m| == 4 && forall k :: 0 <= k < 4 ==> |m[k]| == 4
      ensures forall k, r :: 0 <= k < 3 && 0 <= r < 4 && k != r ==> m[k][r] == 0.0
      ensures m[2][2] == 1.0
    {
      [[zoom, 0.0, 0.0, 0.0],
       [0.0, zoom, 0.0, 0.0],
       [0.0, 0.0, 1.0, 0.0],
       [-position.x * zoom, -position.y * zoom, 0.0, 1.0]]
    }

    function ScreenToWorld(screen: Vec2): Vec2
      reads this
      requires Valid()
    {
      WorldAt(screen, windowSize, zoom, position)
    }

    method HandleMousePress(button: MouseButton, pos: Vec2)
      requires Valid()
      modifies this
      ensures Valid()
      ensures button == Left ==> dragging && lastMousePos == Some(pos)
      ensures button != Left ==> dragging == old(dragging) && lastMousePos == old(lastMousePos)
      ensures position == old(position) && zoom == old(zoom) && windowSize == old(windowSize)
    {
      if button == Left {
        dragging := true;
        lastMousePos := Some(pos);
      }
    }

    method HandleMouseRelease(button: MouseButton)
      requires Valid()
      modifies this
      ensures Valid()
      ensures button == Left ==> !dragging && lastMousePos == None
      ensures button != Left ==> dragging == old(dragging) && lastMousePos == old(lastMousePos)
      ensures position == old(position) && zoom == old(zoom) && windowSize == old(windowSize)
    {
      if button == Left {
        dragging := false;
        lastMousePos := None;
      }
    }

    /**
     * Without a drag nothing changes. During a drag the camera moves back by
     * the cursor's movement over the zoom, so the world point grabbed at the
     * last position is now under the new one.
     */
    method HandleMouseMove(pos: Vec2)
      requires Valid()
      modifies this
      ensures Valid()
      ensures !old(dragging) ==> position == old(position) && lastMousePos == old(lastMousePos)
      ensures old(dragging) ==> lastMousePos == Some(pos)
      ensures old(dragging) ==> position == PannedPosition(old(position), old(lastMousePos).value, pos, zoom)
      ensures old(dragging) ==> ScreenToWorld(pos) == old(ScreenToWorld(lastMousePos.value))
      ensures dragging == old(dragging) && zoom == old(zoom) && windowSize == old(windowSize)
    {
      if dragging {
        if lastMousePos.Some? {
          var lastPos := lastMousePos.value;
          var deltaX := (pos.x - lastPos.x) / zoom;
          var deltaY := (pos.y - lastPos.y) / zoom;
          position := Vec2(position.x - deltaX, position.y - deltaY);
          PanKeepsGrabbedPoint(old(position), lastPos, pos, windowSize, zoom);
        }
        lastMousePos := Some(pos);
      }
    }

    /**
     * `handle_scroll` as written: the zoom is rescaled and clamped, and the
     * position moves by the world point under the cursor after the zoom
     * minus the one before (see `ScrollDriftsCursor` for what that does).
     */
    method HandleScroll(delta: real, cursor: Vec2)
      requires Valid()
      modifies this
      ensures Valid()
      ensures zoom == ScrolledZoom(old(zoom), delta)
      ensures position == ScrolledPosition(cursor, windowSize, old(zoom), zoom, old(position))
      ensures dragging == old(dragging) && lastMousePos == old(lastMousePos) && windowSize == old(windowSize)
    {
      var worldPosBefore := ScreenToWorld(cursor);
      var newZoom := ClampZoom(zoom * (1.0 + delta * ZOOM_SPEED));
      zoom := newZoom;
      var worldPosAfter := ScreenToWorld(cursor);
      position := Vec2(position.x + (worldPosAfter.x - worldPosBefore.x),
                       position.y + (worldPosAfter.y - worldPosBefore.y));
    }

    /** The zoom step with the adjustment's sign corrected: the world point under the cursor stays put. */
    method HandleScrollAnchored(delta: real, cursor: Vec2)
      requires Valid()
      modifies this
      ensures Valid()
      ensures zoom == ScrolledZoom(old(zoom), delta)
      ensures position == AnchoredPosition(cursor, windowSize, old(zoom), zoom, old(position))
      ensures ScreenToWorld(cursor) == old(ScreenToWorld(cursor))
      ensures dragging == old(dragging) && lastMousePos == old(lastMousePos) && windowSize == old(windowSize)
    {
      var worldPosBefore := ScreenToWorld(cursor);
      var newZoom := ClampZoom(zoom * (1.0 + delta * ZOOM_SPEED));
      zoom := newZoom;
      var worldPosAfter := ScreenToWorld(cursor);
      position := Vec2(position.x - (worldPosAfter.x - worldPosBefore.x),
                       position.y - (worldPosAfter.y - worldPosBefore.y));
      AnchoredKeepsCursor(cursor, windowSize, old(zoom), zoom, old(position));
    }
  }

  /** The view matrix takes a world point to its offset from the camera, scaled by the zoom. */
  lemma ViewMatrixMapsWorld(c: Camera, p: Vec2)
    ensures Transform(c.ViewMatrix(), p) == [(p.x - c.position.x) * c.zoom, (p.y - c.position.y) * c.zoom, 0.0, 1.0]
  {
    var t := Transform(c.ViewMatrix(), p);
    assert t[0] == p.x * c.zoom + -c.position.x * c.zoom == (p.x - c.position.x) * c.zoom;
    assert t[1] == p.y * c.zoom + -c.position.y * c.zoom == (p.y - c.position.y) * c.zoom;
    assert t[2] == 0.0 && t[3] == 1.0;
  }

  /**
   * The view matrix undoes `screen_to_world`: the world point under a screen
   * point is taken back to that point's offset from the window's centre.
   */
  lemma ViewUndoesScreenToWorld(c: Camera, screen: Vec2)
    requires c.Valid()
    ensures Transform(c.ViewMatrix(), c.ScreenToWorld(screen))
         == [screen.x - c.windowSize.x / 2.0, screen.y - c.windowSize.y / 2.0, 0.0, 1.0]
  {
    var w := WorldAt(screen, c.windowSize, c.zoom, c.position);
    assert c.ScreenToWorld(screen) == w;
    ViewMatrixMapsWorld(c, w);
    assert (w.x - c.position.x) * c.zoom == screen.x - c.windowSize.x / 2.0;
    assert (w.y - c.position.y) * c.zoom == screen.y - c.windowSize.y / 2.0;
  }
}
