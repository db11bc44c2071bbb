/** `nsi::Model`: the transform record of a renderable entity and its model
    matrix. */
module Models {
  import opened Geometry

  /** One elementary transform as glm builds it. */
  datatype Factor =
    | Translate(offset: Vec3)
    | Rotate(angle: real, axis: Vec3)
    | Scale(factors: Vec3)

  /** A matrix as the product that built it: `Then(m, f)` is `m * F`, which
      is what `glm::translate(m, v)`, `glm::rotate(m, a, axis)` and
      `glm::scale(m, v)` return. Only the order of the factors is modelled,
      not their entries. */
  datatype Mat = Identity | Then(m: Mat, f: Factor)

  /** The factors of a product, left to right. */
  function Factors(m: Mat): seq<Factor> {
    match m
    case Identity => []
    case Then(rest, f) => Factors(rest) + [f]
  }

  /** The elementary transforms of a model matrix, in the order they are
      multiplied in. */
  function TransformOrder(position: Vec3, rotation: Vec3, scale: Vec3): seq<Factor> {
    [Translate(position),
     Rotate(Radians(rotation.x), XAxis),
     Rotate(Radians(rotation.y), YAxis),
     Rotate(Radians(rotation.z), ZAxis),
     Scale(scale)]
  }

  /** Model matrices are equal exactly when position, rotation and scale are. */
  lemma TransformOrderInjective(p1: Vec3, r1: Vec3, s1: Vec3, p2: Vec3, r2: Vec3, s2: Vec3)
    ensures TransformOrder(p1, r1, s1) == TransformOrder(p2, r2, s2) <==> p1 == p2 && r1 == r2 && s1 == s2
  {
    if TransformOrder(p1, r1, s1) == TransformOrder(p2, r2, s2) {
      assert TransformOrder(p1, r1, s1)[1] == TransformOrder(p2, r2, s2)[1];
      assert TransformOrder(p1, r1, s1)[2] == TransformOrder(p2, r2, s2)[2];
      assert TransformOrder(p1, r1, s1)[3] == TransformOrder(p2, r2, s2)[3];
      RadiansInjective(r1.x, r2.x);
      RadiansInjective(r1.y, r2.y);
      RadiansInjective(r1.z, r2.z);
    }
  }

  class Model {
    var filePath: string
    var position: Vec3
    var rotation: Vec3
    var scale: Vec3

    constructor (filePath: string, position: Vec3 := Origin, rotation: Vec3 := Origin, scale: Vec3 := Vec3(1.0, 1.0, 1.0))
      ensures this.filePath == filePath && this.position == position
      ensures this.rotation == rotation && this.scale == scale
    {
      this.filePath := filePath;
      this.position := position;
      this.rotation := rotation;
      this.scale := scale;
    }

    function GetFilePath(): string reads this { filePath }
    function GetPosition(): Vec3 reads this { position }
    function GetRotation(): Vec3 reads this { rotation }
    function GetScale(): Vec3 reads this { scale }

    method SetFilePath(filePath: string)
      modifies this
      ensures GetFilePath() == filePath
      ensures position == old(position) && rotation == old(rotation) && scale == old(scale)
      ensures ModelMatrix() == old(ModelMatrix())
    {
      this.filePath := filePath;
    }

    method SetPosition(position: Vec3)
      modifies this
      ensures GetPosition() == position
      ensures filePath == old(filePath) && rotation == old(rotation) && scale == old(scale)
    {
      this.position := position;
    }

    method SetRotation(rotation: Vec3)
      modifies this
      ensures GetRotation() == rotation
      ensures filePath == old(filePath) && position == old(position) && scale == old(scale)
    {
      this.rotation := rotation;
    }

    method SetScale(scale: Vec3)
      modifies this
      ensures GetScale() == scale
      ensures filePath == old(filePath) && position == old(position) && rotation == old(rotation)
    {
      this.scale := scale;
    }

    /** Starts from the identity and multiplies in translate, rotate about x,
        y and z, then scale; reads the fields and changes nothing. */
    function ModelMatrix(): (m: Mat)
      reads this
      ensures Factors(m) == TransformOrder(position, rotation, scale)
    {
      var order := TransformOrder(position, rotation, scale);
      var mat := Identity;
      var mat := Then(mat, Translate(position));
      assert Factors(mat) == order[..1];
      var mat := Then(mat, Rotate(Radians(rotation.x), XAxis));
      assert Factors(mat) == order[..2];
      var mat := Then(mat, Rotate(Radians(rotation.y), YAxis));
      assert Factors(mat) == order[..3];
      var mat := Then(mat, Rotate(Radians(rotation.z), ZAxis));
      assert Factors(mat) == order[..4];
      var mat := Then(mat, Scale(scale));
      mat
    }
  }

  /** Position (1,0,0), rotation (0,90,0), scale (2,2,2). */
  lemma ExampleModelMatrix(m: Model)
    requires m.position == Vec3(1.0, 0.0, 0.0) && m.rotation == Vec3(0.0, 90.0, 0.0) && m.scale == Vec3(2.0, 2.0, 2.0)
    ensures Factors(m.ModelMatrix())
         == [Translate(Vec3(1.0, 0.0, 0.0)), Rotate(0.0, XAxis), Rotate(90.0 * DegreesToRadians, YAxis),
             Rotate(0.0, ZAxis), Scale(Vec3(2.0, 2.0, 2.0))]
  {
  }
}
