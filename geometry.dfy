/** Unsigned 32-bit integers, as C#'s `uint`. */
module Numerics {
  const UInt32Modulus: int := 0x1_0000_0000

  newtype uint32 = x: int | 0 <= x < 0x1_0000_0000
}

/**
 * Vectors over the reals, standing in for Unity's Vector2/Vector3/Color.
 * The C# code computes in single precision; the model computes exactly.
 */
module Geometry {
  datatype Vec2 = Vec2(x: real, y: real)
  datatype Vec3 = Vec3(x: real, y: real, z: real)

  const Zero: Vec3 := Vec3(0.0, 0.0, 0.0)

  function Sub(a: Vec3, b: Vec3): Vec3 {
    Vec3(a.x - b.x, a.y - b.y, a.z - b.z)
  }

  function Scale(k: real, v: Vec3): Vec3 {
    Vec3(k * v.x, k * v.y, k * v.z)
  }

  /** Unity's Vector3.SqrMagnitude. */
  function SqrMagnitude(v: Vec3): real {
    v.x * v.x + v.y * v.y + v.z * v.z
  }

  function SqrMagnitude2(v: Vec2): real {
    v.x * v.x + v.y * v.y
  }

  function Scale2(k: real, v: Vec2): Vec2 {
    Vec2(k * v.x, k * v.y)
  }

  /** The ground-plane coordinates (x, z) of a point. */
  function Horizontal(v: Vec3): Vec2 {
    Vec2(v.x, v.z)
  }

  lemma MulNonneg(a: real, b: real)
    requires 0.0 <= a && 0.0 <= b
    ensures 0.0 <= a * b
  {
  }

  /** Scaling a point of the unit disk by `k` lands in the disk of radius `k`. */
  lemma ScaledDisk(k: real, v: Vec2)
    requires SqrMagnitude2(v) <= 1.0
    ensures SqrMagnitude2(Scale2(k, v)) <= k * k
  {
    var w := Scale2(k, v);
    assert w.x * w.x == (v.x * v.x) * (k * k);
    assert w.y * w.y == (v.y * v.y) * (k * k);
    assert SqrMagnitude2(w) == SqrMagnitude2(v) * (k * k);
    assert k * k >= 0.0;
  }

  predicate InUnitCube(v: Vec3) {
    0.0 <= v.x <= 1.0 && 0.0 <= v.y <= 1.0 && 0.0 <= v.z <= 1.0
  }

  lemma SqrDistanceSymmetric(a: Vec3, b: Vec3)
    ensures SqrMagnitude(Sub(a, b)) == SqrMagnitude(Sub(b, a))
  {
    var d, e := Sub(a, b), Sub(b, a);
    assert e.x * e.x == d.x * d.x && e.y * e.y == d.y * d.y && e.z * e.z == d.z * d.z;
  }
}
