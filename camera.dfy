/**
 * The camera controller: a zoom level that mouse-wheel events scale and
 * clamp, and the camera placement derived from it once per frame.
 */
module Camera {
  import opened Space

  const InitialZoom: real := 1.0
  const MinZoom: real := 0.1
  const MaxZoom: real := 10.0
  /** Factor applied by a wheel event with a positive `deltaY`. */
  const ZoomInFactor: real := 1.1
  /** Factor applied by every other wheel event, `deltaY == 0` included. */
  const ZoomOutFactor: real := 0.9

  predicate InZoomRange(zoom: real) {
    MinZoom <= zoom <= MaxZoom
  }

  /** `Math.min(Math.max(zoom, 0.1), 10)`. */
  function Clamp(zoom: real): (r: real)
    ensures InZoomRange(r)
    ensures InZoomRange(zoom) ==> r == zoom
    ensures zoom < MinZoom ==> r == MinZoom
    ensures zoom > MaxZoom ==> r == MaxZoom
  {
    var atLeastMin := if zoom > MinZoom then zoom else MinZoom;
    if atLeastMin < MaxZoom then atLeastMin else MaxZoom
  }

  function WheelFactor(deltaY: real): real {
    if deltaY > 0.0 then ZoomInFactor else ZoomOutFactor
  }

  /**
   * The zoom level after one wheel event. Whatever the level before, the
   * level after is in range; from an in-range level, a positive delta never
   * lowers it and any other delta never raises it, and each moves it
   * strictly unless it already sits at the bound it moves towards.
   */
  function NextZoom(zoom: real, deltaY: real): (r: real)
    ensures InZoomRange(r)
    ensures InZoomRange(zoom) && deltaY > 0.0 ==> zoom <= r
    ensures InZoomRange(zoom) && deltaY <= 0.0 ==> r <= zoom
    ensures InZoomRange(zoom) && deltaY > 0.0 && zoom < MaxZoom ==> zoom < r
    ensures InZoomRange(zoom) && deltaY <= 0.0 && MinZoom < zoom ==> r < zoom
  {
    Clamp(zoom * WheelFactor(deltaY))
  }

  /** The zoom level after the wheel events `deltas`, oldest first. */
  function ZoomAfter(zoom: real, deltas: seq<real>): real {
    if |deltas| == 0 then zoom
    else NextZoom(ZoomAfter(zoom, deltas[..|deltas| - 1]), deltas[|deltas| - 1])
  }

  /** A non-empty run of wheel events always ends in range; an empty one keeps an in-range level. */
  lemma {:induction false} ZoomAfterInRange(zoom: real, deltas: seq<real>)
    requires InZoomRange(zoom) || |deltas| > 0
    ensures InZoomRange(ZoomAfter(zoom, deltas))
  {
    if |deltas| > 0 {
      // The last event clamps, whatever came before.
      var before := ZoomAfter(zoom, deltas[..|deltas| - 1]);
      assert ZoomAfter(zoom, deltas) == NextZoom(before, deltas[|deltas| - 1]);
    }
  }

  /** Starting from the initial level, the zoom stays in range after any run of wheel events. */
  lemma {:induction false} ZoomAlwaysInRange(deltas: seq<real>)
    ensures InZoomRange(ZoomAfter(InitialZoom, deltas))
  {
    ZoomAfterInRange(InitialZoom, deltas);
  }

  /** Wheel events preserve the order of two zoom levels. */
  lemma {:induction false} ZoomAfterMonotone(lo: real, hi: real, deltas: seq<real>)
    requires 0.0 <= lo <= hi
    ensures ZoomAfter(lo, deltas) <= ZoomAfter(hi, deltas)
  {
    if |deltas| > 0 {
      var prefix := deltas[..|deltas| - 1];
      ZoomAfterMonotone(lo, hi, prefix);
      ZoomAfterNonNegative(lo, prefix);
      NextZoomMonotone(ZoomAfter(lo, prefix), ZoomAfter(hi, prefix), deltas[|deltas| - 1]);
    }
  }

  lemma ZoomAfterNonNegative(zoom: real, deltas: seq<real>)
    requires 0.0 <= zoom
    ensures 0.0 <= ZoomAfter(zoom, deltas)
  {
    if |deltas| > 0 {
      var before := ZoomAfter(zoom, deltas[..|deltas| - 1]);
      assert ZoomAfter(zoom, deltas) == NextZoom(before, deltas[|deltas| - 1]);
    }
  }

  lemma NextZoomMonotone(lo: real, hi: real, deltaY: real)
    requires 0.0 <= lo <= hi
    ensures NextZoom(lo, deltaY) <= NextZoom(hi, deltaY)
  {
    var f := WheelFactor(deltaY);
    assert lo * f <= hi * f;
  }

  /** `[0, 50, 200 / zoomLevel]`. */
  function CameraPosition(zoom: real): (eye: Vec3)
    requires zoom != 0.0
    ensures eye.x == 0.0 && eye.y == 50.0 && eye.z * zoom == 200.0
    ensures InZoomRange(zoom) ==> 20.0 <= eye.z <= 2000.0
  {
    Vec3(0.0, 50.0, 200.0 / zoom)
  }

  /** Zooming in never moves the camera away from the scene. */
  lemma CameraApproachesWithZoom(lo: real, hi: real)
    requires 0.0 < lo <= hi
    ensures 0.0 < CameraPosition(hi).z <= CameraPosition(lo).z
  {
    var zl, zh := CameraPosition(lo).z, CameraPosition(hi).z;
    assert zh == 200.0 / hi && zl == 200.0 / lo;
    assert 0.0 < zh && 0.0 < zl;
    assert zl * hi >= zl * lo == 200.0 == zh * hi by { assert zl * (hi - lo) >= 0.0; }
    assert (zl - zh) * hi >= 0.0;
  }

  /** At the initial zoom level the camera sits at (0, 50, 200). */
  lemma InitialCamera()
    ensures CameraPosition(InitialZoom) == Vec3(0.0, 50.0, 200.0)
  {
  }

  const FieldOfViewDegrees: real := 60.0
  const Near: real := 0.1
  const Far: real := 2000.0
  const Up: Vec3 := Vec3(0.0, 1.0, 0.0)

  /**
   * What the frame hands to the matrix library: a perspective projection
   * and a camera looking from `eye` at `target` with `up` pointing up.
   */
  datatype CameraSetup = CameraSetup(
    eye: Vec3, target: Vec3, up: Vec3,
    fieldOfViewDegrees: real, aspect: real, near: real, far: real)

  function CameraFor(zoom: real, aspect: real): (c: CameraSetup)
    requires zoom != 0.0
    ensures c.eye == CameraPosition(zoom) && c.target == Origin && c.up == Up
    ensures c.aspect == aspect && c.fieldOfViewDegrees == 60.0 && c.near == 0.1 && c.far == 2000.0
    ensures 0.0 < c.near < c.far
  {
    CameraSetup(CameraPosition(zoom), Origin, Up, FieldOfViewDegrees, aspect, Near, Far)
  }

  /** The squared distance from the eye to the point it looks at. */
  function TargetDistanceSquared(c: CameraSetup): real {
    var dx, dy, dz := c.target.x - c.eye.x, c.target.y - c.eye.y, c.target.z - c.eye.z;
    dx * dx + dy * dy + dz * dz
  }

  /**
   * The target is 50 units below the eye's height and `200 / zoom` in
   * front of it, so its squared distance is 2500 plus the square of the
   * eye's z.
   */
  lemma TargetDistance(zoom: real, aspect: real)
    requires zoom != 0.0
    ensures var c := CameraFor(zoom, aspect);
            TargetDistanceSquared(c) == 2500.0 + c.eye.z * c.eye.z && c.eye.z * zoom == 200.0
  {
  }

  /**
   * Fully zoomed out, the eye is at z = 2000, and the origin it looks at
   * is about 2000.6 away: beyond the far plane at 2000.
   */
  lemma ZoomedOutTargetBeyondFar(aspect: real)
    ensures var c := CameraFor(MinZoom, aspect);
            c.eye.z == 2000.0 && TargetDistanceSquared(c) > c.far * c.far
  {
    TargetDistance(MinZoom, aspect);
  }

  /**
   * From one zoom-in step above the minimum (zoom 0.11) upwards, the
   * origin lies within the far plane.
   */
  lemma TargetWithinFar(zoom: real, aspect: real)
    requires MinZoom * ZoomInFactor <= zoom
    ensures var c := CameraFor(zoom, aspect);
            TargetDistanceSquared(c) <= c.far * c.far
  {
    TargetDistance(zoom, aspect);
    var z := CameraPosition(zoom).z;
    assert 0.0 < z by { assert z * zoom == 200.0; }
    assert z <= 1820.0 by {
      assert z * zoom == 200.0;
      assert z * 0.11 <= z * zoom;
    }
    assert z * z <= 1820.0 * 1820.0 by {
      assert z * z <= z * 1820.0;
      assert z * 1820.0 <= 1820.0 * 1820.0;
    }
  }

  /**
   * The `zoomLevel` variable and its wheel handler. `wheelEvents` is the
   * history of deltas the handler has seen, kept for the proof.
   */
  class ZoomController {
    var zoom: real
    ghost var wheelEvents: seq<real>

    ghost predicate Valid()
      reads this
    {
      zoom == ZoomAfter(InitialZoom, wheelEvents) && InZoomRange(zoom)
    }

    constructor ()
      ensures Valid() && zoom == InitialZoom && wheelEvents == []
    {
      zoom := InitialZoom;
      wheelEvents := [];
    }

    method OnWheel(deltaY: real)
      requires Valid()
      modifies this
      ensures Valid() && wheelEvents == old(wheelEvents) + [deltaY]
      ensures zoom == NextZoom(old(zoom), deltaY)
      ensures deltaY > 0.0 ==> old(zoom) <= zoom
      ensures deltaY <= 0.0 ==> zoom <= old(zoom)
    {
      zoom := zoom * WheelFactor(deltaY);
      zoom := Clamp(zoom);
      wheelEvents := wheelEvents + [deltaY];
      assert wheelEvents[..|wheelEvents| - 1] == old(wheelEvents);
    }
  }
}
