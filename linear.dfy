/** Three-component vectors and 3x3 matrices over the reals: the part of the
    renderer's Vector3 / Matrix4 arithmetic that the tracker and the scene use.
    Every Matrix4 the program builds (a Rodrigues rotation, makeRotationX,
    makeRotationY and their products) has last row and column (0, 0, 0, 1),
    so only its upper-left 3x3 block is kept; applyMatrix4 then divides by a
    homogeneous weight of 1, which leaves the linear map `Apply`. */
module Linear {

  datatype Vec3 = Vec3(x: real, y: real, z: real)

  /** A row-major 3x3 matrix: `m12` is row 1, column 2 (Matrix4.set order). */
  datatype Mat3 = Mat3(m11: real, m12: real, m13: real,
                       m21: real, m22: real, m23: real,
                       m31: real, m32: real, m33: real)

  const Origin := Vec3(0.0, 0.0, 0.0)

  const Identity := Mat3(1.0, 0.0, 0.0,
                         0.0, 1.0, 0.0,
                         0.0, 0.0, 1.0)

  /** The matrix applied to a column vector (Vector3.applyMatrix4). */
  function Apply(m: Mat3, v: Vec3): Vec3
  {
    Vec3(m.m11 * v.x + m.m12 * v.y + m.m13 * v.z,
         m.m21 * v.x + m.m22 * v.y + m.m23 * v.z,
         m.m31 * v.x + m.m32 * v.y + m.m33 * v.z)
  }

  /** The matrix product a * b (Matrix4.multiplyMatrices(a, b), and
      a.multiply(b)). */
  function Mul(a: Mat3, b: Mat3): Mat3
  {
    Mat3(a.m11 * b.m11 + a.m12 * b.m21 + a.m13 * b.m31,
         a.m11 * b.m12 + a.m12 * b.m22 + a.m13 * b.m32,
         a.m11 * b.m13 + a.m12 * b.m23 + a.m13 * b.m33,
         a.m21 * b.m11 + a.m22 * b.m21 + a.m23 * b.m31,
         a.m21 * b.m12 + a.m22 * b.m22 + a.m23 * b.m32,
         a.m21 * b.m13 + a.m22 * b.m23 + a.m23 * b.m33,
         a.m31 * b.m11 + a.m32 * b.m21 + a.m33 * b.m31,
         a.m31 * b.m12 + a.m32 * b.m22 + a.m33 * b.m32,
         a.m31 * b.m13 + a.m32 * b.m23 + a.m33 * b.m33)
  }

  /** Squared Euclidean length. */
  function NormSq(v: Vec3): real
  {
    v.x * v.x + v.y * v.y + v.z * v.z
  }

  /** makeRotationX for an angle whose cosine is c and sine is s. */
  function RotationX(c: real, s: real): Mat3
  {
    Mat3(1.0, 0.0, 0.0,
         0.0, c, -s,
         0.0, s, c)
  }

  /** makeRotationY for an angle whose cosine is c and sine is s. */
  function RotationY(c: real, s: real): Mat3
  {
    Mat3(c, 0.0, s,
         0.0, 1.0, 0.0,
         -s, 0.0, c)
  }

  /** One row of a product applied to a vector, regrouped by the row's
      entries: the entry-by-entry distributivity behind `ApplyMul`. */
  lemma RowRegroup(a1: real, a2: real, a3: real,
                   b11: real, b12: real, b13: real,
                   b21: real, b22: real, b23: real,
                   b31: real, b32: real, b33: real,
                   x: real, y: real, z: real)
    ensures (a1 * b11 + a2 * b21 + a3 * b31) * x
            + (a1 * b12 + a2 * b22 + a3 * b32) * y
            + (a1 * b13 + a2 * b23 + a3 * b33) * z
            == a1 * (b11 * x + b12 * y + b13 * z)
               + a2 * (b21 * x + b22 * y + b23 * z)
               + a3 * (b31 * x + b32 * y + b33 * z)
  {
    assert (a1 * b11 + a2 * b21 + a3 * b31) * x == a1 * (b11 * x) + a2 * (b21 * x) + a3 * (b31 * x);
    assert (a1 * b12 + a2 * b22 + a3 * b32) * y == a1 * (b12 * y) + a2 * (b22 * y) + a3 * (b32 * y);
    assert (a1 * b13 + a2 * b23 + a3 * b33) * z == a1 * (b13 * z) + a2 * (b23 * z) + a3 * (b33 * z);
    assert a1 * (b11 * x + b12 * y + b13 * z) == a1 * (b11 * x) + a1 * (b12 * y) + a1 * (b13 * z);
    assert a2 * (b21 * x + b22 * y + b23 * z) == a2 * (b21 * x) + a2 * (b22 * y) + a2 * (b23 * z);
    assert a3 * (b31 * x + b32 * y + b33 * z) == a3 * (b31 * x) + a3 * (b32 * y) + a3 * (b33 * z);
  }

  /** Applying a product is applying its right factor first. */
  lemma ApplyMul(a: Mat3, b: Mat3, v: Vec3)
    ensures Apply(Mul(a, b), v) == Apply(a, Apply(b, v))
  {
    RowRegroup(a.m11, a.m12, a.m13, b.m11, b.m12, b.m13, b.m21, b.m22, b.m23, b.m31, b.m32, b.m33, v.x, v.y, v.z);
    RowRegroup(a.m21, a.m22, a.m23, b.m11, b.m12, b.m13, b.m21, b.m22, b.m23, b.m31, b.m32, b.m33, v.x, v.y, v.z);
    RowRegroup(a.m31, a.m32, a.m33, b.m11, b.m12, b.m13, b.m21, b.m22, b.m23, b.m31, b.m32, b.m33, v.x, v.y, v.z);
  }

  /** Every linear map fixes the origin. */
  lemma LinearFixesOrigin(m: Mat3)
    ensures Apply(m, Origin) == Origin
  {
  }

  /** Every rotation about Y fixes every point on the Y axis, whatever the
      angle. */
  lemma RotationYFixesYAxis(c: real, s: real, y: real)
    ensures Apply(RotationY(c, s), Vec3(0.0, y, 0.0)) == Vec3(0.0, y, 0.0)
  {
  }

  /** A rotation about Y keeps lengths when its entries are a cosine and a
      sine of one angle. */
  lemma RotationYPreservesNorm(c: real, s: real, v: Vec3)
    requires c * c + s * s == 1.0
    ensures NormSq(Apply(RotationY(c, s), v)) == NormSq(v)
  {
    var w := Apply(RotationY(c, s), v);
    calc {
      NormSq(w);
      (c * v.x + s * v.z) * (c * v.x + s * v.z) + v.y * v.y + (-s * v.x + c * v.z) * (-s * v.x + c * v.z);
      (c * c + s * s) * (v.x * v.x) + v.y * v.y + (c * c + s * s) * (v.z * v.z);
      NormSq(v);
    }
  }

  /** A rotation about X keeps lengths when its entries are a cosine and a
      sine of one angle. */
  lemma RotationXPreservesNorm(c: real, s: real, v: Vec3)
    requires c * c + s * s == 1.0
    ensures NormSq(Apply(RotationX(c, s), v)) == NormSq(v)
  {
    var w := Apply(RotationX(c, s), v);
    calc {
      NormSq(w);
      v.x * v.x + (c * v.y - s * v.z) * (c * v.y - s * v.z) + (s * v.y + c * v.z) * (s * v.y + c * v.z);
      v.x * v.x + (c * c + s * s) * (v.y * v.y) + (c * c + s * s) * (v.z * v.z);
      NormSq(v);
    }
  }
}
