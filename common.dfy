/** Small value types shared by the modules of the model. */
module Common {

  /** A value that may be absent (JavaScript `undefined`/`null`). */
  datatype Option<+T> = None | Some(value: T)

  /** The outcome of an operation that may throw. */
  datatype Result<+T, +E> = Ok(value: T) | Err(error: E)

  /** A three.js `Vector3`, idealised over the reals. */
  datatype Vec3 = Vec3(x: real, y: real, z: real)

  function Add(a: Vec3, b: Vec3): Vec3
  {
    Vec3(a.x + b.x, a.y + b.y, a.z + b.z)
  }

  function Sub(a: Vec3, b: Vec3): Vec3
  {
    Vec3(a.x - b.x, a.y - b.y, a.z - b.z)
  }

  /** The squared Euclidean length; `distanceTo(p) < d` iff `SquaredLength(...) < d * d` for `d >= 0`. */
  function SquaredLength(v: Vec3): real
  {
    v.x * v.x + v.y * v.y + v.z * v.z
  }
}
