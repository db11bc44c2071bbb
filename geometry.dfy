/** Vectors, the clamp both cameras use, the degree-to-radian conversion and
    the trigonometric functions the cameras take from the maths library.
    Arithmetic is over `real`: float rounding is not modelled. */
module Geometry {

  datatype Vec2 = Vec2(x: real, y: real)

  datatype Vec3 = Vec3(x: real, y: real, z: real)

  const Origin: Vec3 := Vec3(0.0, 0.0, 0.0)
  const XAxis: Vec3 := Vec3(1.0, 0.0, 0.0)
  const YAxis: Vec3 := Vec3(0.0, 1.0, 0.0)
  const ZAxis: Vec3 := Vec3(0.0, 0.0, 1.0)

  function Add(a: Vec3, b: Vec3): Vec3 {
    Vec3(a.x + b.x, a.y + b.y, a.z + b.z)
  }

  function Sub(a: Vec3, b: Vec3): Vec3 {
    Vec3(a.x - b.x, a.y - b.y, a.z - b.z)
  }

  /** Squared Euclidean length. */
  function Norm2(v: Vec3): real {
    v.x * v.x + v.y * v.y + v.z * v.z
  }

  /** The pair of sequential guards `if (v > hi) v = hi; if (v < lo) v = lo;`
      (or in the other order) that both cameras apply to pitch and radius. */
  function Clamp(v: real, lo: real, hi: real): (r: real)
    requires lo <= hi
    ensures lo <= r <= hi
    ensures lo <= v <= hi ==> r == v
    ensures v < lo ==> r == lo
    ensures v > hi ==> r == hi
  {
    if v > hi then hi else if v < lo then lo else v
  }

  /** Both cameras keep pitch within [-PitchLimit, PitchLimit] degrees after
      mouse movement, so the view never flips over the pole. */
  const PitchLimit: real := 89.0

  /** glm's radians(): multiplication by the constant pi / 180 as glm spells it. */
  const DegreesToRadians: real := 0.01745329251994329576923690768489

  function Radians(degrees: real): real {
    degrees * DegreesToRadians
  }

  /** Cosine and sine come from the C maths library; the model takes them as
      parameters, so only what holds for every such pair is proved. */
  datatype Trig = Trig(cos: real -> real, sin: real -> real)

  /** The Pythagorean identity at one angle, the only fact about the
      trigonometric functions any proof here relies on. */
  predicate OnUnitCircle(t: Trig, angle: real) {
    t.cos(angle) * t.cos(angle) + t.sin(angle) * t.sin(angle) == 1.0
  }

  lemma MulPositive(a: real, b: real)
    requires a > 0.0 && b > 0.0
    ensures a * b > 0.0
  {
  }

  lemma MulMonotone(a: real, b: real, c: real)
    requires a <= b && c > 0.0
    ensures a * c <= b * c
  {
    MulNonNegative(b - a, c);
  }

  lemma MulNonNegative(a: real, b: real)
    requires a >= 0.0 && b > 0.0
    ensures a * b >= 0.0
  {
    if a > 0.0 {
      MulPositive(a, b);
    }
  }

  lemma RadiansInjective(a: real, b: real)
    ensures Radians(a) == Radians(b) <==> a == b
  {
  }
}
