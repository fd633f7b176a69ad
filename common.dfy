/** Shared value types of the particle engine: optional values, the outcome of an
    operation that may throw, 3-D vectors over reals, easing-curve references and the
    opaque per-influencer data objects kept in a particle's slot store. */
module Common {

  datatype Option<T> = None | Some(value: T) {
    function GetOr(default: T): T {
      match this
      case Some(v) => v
      case None => default
    }
  }

  /** The exceptions the modelled Java code throws. */
  datatype Error =
    | IllegalArgument      // IllegalArgumentException from a configuration setter
    | IndexOutOfBounds     // an index checked by a list, an array access or an explicit check
    | NullPointer          // a missing array read back from a saved capsule

  /** The result of a Java `void` method that may throw instead of returning. */
  datatype Outcome = Pass | Fail(error: Error)

  /** The result of a Java method that returns a value or throws. */
  datatype Result<T> = Ok(value: T) | Err(error: Error)

  /** A jME `Vector3f`, with `float` components modelled as reals. */
  datatype Vec3 = Vec3(x: real, y: real, z: real) {
    function Add(o: Vec3): Vec3 { Vec3(x + o.x, y + o.y, z + o.z) }
    function Sub(o: Vec3): Vec3 { Vec3(x - o.x, y - o.y, z - o.z) }
    function Scale(k: real): Vec3 { Vec3(k * x, k * y, k * z) }
  }

  const Zero := Vec3(0.0, 0.0, 0.0)
  const One := Vec3(1.0, 1.0, 1.0)
  const Up := Vec3(0.0, 1.0, 0.0)

  /** A reference to an easing curve, identified by the id under which it is
      registered for saving and loading. What the curve computes is supplied to
      the operations that apply it, as a function `ease`. */
  datatype Interpolation = Interpolation(id: int)

  /** The linear curve, `Interpolation.LINEAR`. */
  const Linear := Interpolation(0)

  /** An influencer-private object stored in a particle's data slot. `owner` names
      the influencer that created it and `particle` the pool slot it was created for. */
  datatype DataObject = DataObject(owner: int, particle: int)

  function Max(a: int, b: int): int { if a < b then b else a }
  function Min(a: int, b: int): int { if a < b then a else b }

  /** Java's `(int)` cast of a float: truncation toward zero (saturation at the
      32-bit range is not modelled). */
  function TruncToInt(x: real): (r: int)
    ensures x >= 0.0 ==> r as real <= x < r as real + 1.0
    ensures x < 0.0 ==> r as real - 1.0 < x <= r as real
  {
    if x >= 0.0 then x.Floor else -((-x).Floor)
  }

  /** A real product, as a function so that facts about it can be stated once for
      any factors. */
  function Times(a: real, b: real): real {
    a * b
  }

  /** Scaling a positive value by a factor in [0, 1) keeps it in [0, value). */
  lemma ProductBelow(d: real, r: real)
    requires d > 0.0 && 0.0 <= r < 1.0
    ensures 0.0 <= Times(d, r) < d
  {
  }

  /** The product of two non-negative reals is non-negative (a step the solver's
      linear arithmetic does not take on its own). */
  lemma ProductNonNegative(a: real, b: real)
    requires a >= 0.0 && b >= 0.0
    ensures a * b >= 0.0
  {
  }
}
