/** The calls the tracker makes into the vision and rendering libraries and
    into the host's floating-point math. Their results are taken as given:
    each is a total function supplied by the caller, and nothing is assumed
    about it beyond what a lemma states in its own `requires`. */
module Externals {
  import opened Linear

  /** Euler angles in radians, as THREE.Euler holds them. */
  datatype Euler = Euler(x: real, y: real, z: real)

  datatype Library = Library(
    /** cv.Rodrigues: axis-angle vector to the rows of a rotation matrix */
    rodrigues: Vec3 -> Mat3,
    /** Matrix4.getInverse */
    inverse: Mat3 -> Mat3,
    /** Euler.setFromRotationMatrix with order 'XYZ' */
    eulerXYZ: Mat3 -> Euler,
    /** THREE.MathUtils.radToDeg */
    radToDeg: real -> real,
    /** THREE.MathUtils.degToRad */
    degToRad: real -> real,
    /** Math.cos and Math.sin inside makeRotationX / makeRotationY */
    cos: real -> real,
    sin: real -> real)

  /** The cosine and sine the library supplies lie on the unit circle. */
  ghost predicate TrigUnit(lib: Library)
  {
    forall t :: lib.cos(t) * lib.cos(t) + lib.sin(t) * lib.sin(t) == 1.0
  }
}
