/**
 * Engine vectors over exact reals. The engine stores single-precision
 * floats; rounding is not modelled.
 */
module Vectors {

  datatype Vector3 = Vector3(x: real, y: real, z: real)

  const Zero: Vector3 := Vector3(0.0, 0.0, 0.0)

  function Add(a: Vector3, b: Vector3): Vector3 {
    Vector3(a.x + b.x, a.y + b.y, a.z + b.z)
  }

  function Sub(a: Vector3, b: Vector3): Vector3 {
    Vector3(a.x - b.x, a.y - b.y, a.z - b.z)
  }

  /** `Vector3.sqrMagnitude`: the square of the Euclidean length. */
  function SqrMagnitude(v: Vector3): (m: real)
    ensures m >= 0.0
  {
    SquareZero(v.x);
    SquareZero(v.y);
    SquareZero(v.z);
    v.x * v.x + v.y * v.y + v.z * v.z
  }

  lemma SquareZero(a: real)
    ensures a * a >= 0.0
    ensures a != 0.0 ==> a * a > 0.0
  {
  }
}
