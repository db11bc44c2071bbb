/** `OrbitCamera`: a camera on a sphere around a target point, placed by
    yaw, pitch and radius. */
module Orbit {
  import opened Geometry

  const MinRadius: real := 1.0
  const MaxRadius: real := 100.0

  /** The camera's offset from its target: spherical to Cartesian, with the
      angles in degrees. */
  function Offset(trig: Trig, radius: real, yaw: real, pitch: real): Vec3 {
    var p, y := Radians(pitch), Radians(yaw);
    Vec3(radius * trig.cos(p) * trig.cos(y), radius * trig.sin(p), radius * trig.cos(p) * trig.sin(y))
  }

  function OrbitPosition(trig: Trig, target: Vec3, radius: real, yaw: real, pitch: real): Vec3 {
    Add(target, Offset(trig, radius, yaw, pitch))
  }

  /** Wherever the angles point, the camera is exactly `radius` from its
      target, given only the Pythagorean identity at the two angles. */
  lemma OrbitDistance(trig: Trig, target: Vec3, radius: real, yaw: real, pitch: real)
    requires OnUnitCircle(trig, Radians(pitch)) && OnUnitCircle(trig, Radians(yaw))
    ensures Norm2(Sub(OrbitPosition(trig, target, radius, yaw, pitch), target)) == radius * radius
  {
    var cp, sp := trig.cos(Radians(pitch)), trig.sin(Radians(pitch));
    var cy, sy := trig.cos(Radians(yaw)), trig.sin(Radians(yaw));
    assert Sub(OrbitPosition(trig, target, radius, yaw, pitch), target)
        == Vec3(radius * cp * cy, radius * sp, radius * cp * sy);
    SphericalLength(radius, cp, sp, cy, sy);
  }

  lemma SphericalLength(r: real, cp: real, sp: real, cy: real, sy: real)
    requires cp * cp + sp * sp == 1.0 && cy * cy + sy * sy == 1.0
    ensures Norm2(Vec3(r * cp * cy, r * sp, r * cp * sy)) == r * r
  {
    var r2, cp2 := r * r, cp * cp;
    calc {
      Norm2(Vec3(r * cp * cy, r * sp, r * cp * sy));
      (r * cp * cy) * (r * cp * cy) + (r * sp) * (r * sp) + (r * cp * sy) * (r * cp * sy);
      r2 * cp2 * (cy * cy) + r2 * (sp * sp) + r2 * cp2 * (sy * sy);
      r2 * (cp2 * (cy * cy + sy * sy) + sp * sp);
      r2 * (cp2 + sp * sp);
      r2;
    }
  }

  /** Every field of an orbit camera at one moment. */
  datatype View = View(
    position: Vec3, worldUp: Vec3, target: Vec3,
    yaw: real, pitch: real, radius: real,
    movementSpeed: real, mouseSensitivity: real, zoom: real)

  /** `setTarget(t)` on a camera in state `v`: the target moves and the
      position is recomputed around it; nothing else changes. */
  function AfterSetTarget(trig: Trig, v: View, t: Vec3): View {
    v.(target := t, position := OrbitPosition(trig, t, v.radius, v.yaw, v.pitch))
  }

  /** Setting the same target twice leaves the camera as setting it once. */
  lemma SetTargetIdempotent(trig: Trig, v: View, t: Vec3)
    ensures AfterSetTarget(trig, AfterSetTarget(trig, v, t), t) == AfterSetTarget(trig, v, t)
  {
  }

  class OrbitCamera {
    /** The maths library's cosine and sine. */
    const trig: Trig

    var position: Vec3
    var worldUp: Vec3
    var target: Vec3
    var yaw: real
    var pitch: real
    var radius: real
    var movementSpeed: real
    var mouseSensitivity: real
    var zoom: real

    function Snapshot(): View
      reads this
    {
      View(position, worldUp, target, yaw, pitch, radius, movementSpeed, mouseSensitivity, zoom)
    }

    /** The position is always the one the angles and radius place around the target. */
    ghost predicate Valid()
      reads this
    {
      position == OrbitPosition(trig, target, radius, yaw, pitch)
    }

    /** Radius, yaw and pitch are stored as given, without clamping. */
    constructor (trig: Trig, target: Vec3 := Origin, radius: real := 10.0, yaw: real := -90.0, pitch: real := 0.0)
      ensures Valid() && this.trig == trig
      ensures this.target == target && this.radius == radius && this.yaw == yaw && this.pitch == pitch
      ensures worldUp == YAxis && mouseSensitivity == 0.1 && zoom == 45.0 && movementSpeed == 10.0
    {
      this.trig := trig;
      this.target := target;
      this.radius := radius;
      this.yaw := yaw;
      this.pitch := pitch;

      worldUp := YAxis;
      mouseSensitivity := 0.1;
      zoom := 45.0;
      movementSpeed := 10.0;
      new;
      UpdateCameraVectors();
    }

    method ProcessMouseMovement(xoffset: real, yoffset: real, constrainPitch: bool := true)
      modifies this
      ensures Valid()
      ensures yaw == old(yaw + xoffset * mouseSensitivity)
      ensures constrainPitch ==> pitch == Clamp(old(pitch + yoffset * mouseSensitivity), -PitchLimit, PitchLimit)
      ensures constrainPitch ==> -PitchLimit <= pitch <= PitchLimit
      ensures !constrainPitch ==> pitch == old(pitch + yoffset * mouseSensitivity)
      ensures radius == old(radius) && target == old(target) && worldUp == old(worldUp)
      ensures mouseSensitivity == old(mouseSensitivity) && movementSpeed == old(movementSpeed) && zoom == old(zoom)
    {
      var dx := xoffset * mouseSensitivity;
      var dy := yoffset * mouseSensitivity;

      yaw := yaw + dx;
      pitch := pitch + dy;

      if constrainPitch {
        if pitch > PitchLimit {
          pitch := PitchLimit;
        }
        if pitch < -PitchLimit {
          pitch := -PitchLimit;
        }
      }

      UpdateCameraVectors();
    }

    method ProcessMouseScroll(yoffset: real)
      modifies this
      ensures Valid()
      ensures radius == Clamp(old(radius) - yoffset, MinRadius, MaxRadius)
      ensures MinRadius <= radius <= MaxRadius
      ensures yaw == old(yaw) && pitch == old(pitch) && target == old(target) && worldUp == old(worldUp)
      ensures mouseSensitivity == old(mouseSensitivity) && movementSpeed == old(movementSpeed) && zoom == old(zoom)
    {
      radius := radius - yoffset;
      if radius < MinRadius {
        radius := MinRadius;
      }
      if radius > MaxRadius {
        radius := MaxRadius;
      }

      UpdateCameraVectors();
    }

    method SetTarget(newTarget: Vec3)
      modifies this
      ensures Snapshot() == AfterSetTarget(trig, old(Snapshot()), newTarget)
      ensures Valid()
      ensures target == newTarget
      ensures yaw == old(yaw) && pitch == old(pitch) && radius == old(radius) && worldUp == old(worldUp)
      ensures mouseSensitivity == old(mouseSensitivity) && movementSpeed == old(movementSpeed) && zoom == old(zoom)
    {
      target := newTarget;
      UpdateCameraVectors();
    }

    /** Recomputes the position from target, radius, yaw and pitch. */
    method UpdateCameraVectors()
      modifies this`position
      ensures Valid()
    {
      var p, y := Radians(pitch), Radians(yaw);
      var dx := radius * trig.cos(p) * trig.cos(y);
      var dy := radius * trig.sin(p);
      var dz := radius * trig.cos(p) * trig.sin(y);

      position := Add(target, Vec3(dx, dy, dz));
    }
  }
}
