/** 4×4 real matrices in the layout of gl-matrix's `mat4`: sixteen numbers in
    column-major order, so element k holds row k % 4, column k / 4. A matrix
    acts on a column vector from the left, and `mat4.mul(out, a, b)` stores
    the mathematical product a·b.
 */
module Matrix4 {

  type Mat4 = m: seq<real> | |m| == 16
    witness [0.0, 0.0, 0.0, 0.0, 0.0, 0.0, 0.0, 0.0, 0.0, 0.0, 0.0, 0.0, 0.0, 0.0, 0.0, 0.0]

  type Vec4 = v: seq<real> | |v| == 4
    witness [0.0, 0.0, 0.0, 0.0]

  /** The entry at row `i`, column `j`. */
  function At(m: Mat4, i: int, j: int): real
    requires 0 <= i < 4 && 0 <= j < 4
  {
    m[4 * j + i]
  }

  /** Row `i` of `a` times column `j` of `b`. */
  function RowCol(a: Mat4, b: Mat4, i: int, j: int): real
    requires 0 <= i < 4 && 0 <= j < 4
  {
    At(a, i, 0) * At(b, 0, j) + At(a, i, 1) * At(b, 1, j)
    + At(a, i, 2) * At(b, 2, j) + At(a, i, 3) * At(b, 3, j)
  }

  /** `mat4.mul(out, a, b)`: the product a·b, written back column-major, so
      that entry (i, j) of the stored product is row i of `a` times column j
      of `b`. */
  function Mul(a: Mat4, b: Mat4): (r: Mat4)
    ensures forall i, j :: 0 <= i < 4 && 0 <= j < 4 ==> At(r, i, j) == RowCol(a, b, i, j)
  {
    [RowCol(a, b, 0, 0), RowCol(a, b, 1, 0), RowCol(a, b, 2, 0), RowCol(a, b, 3, 0),
     RowCol(a, b, 0, 1), RowCol(a, b, 1, 1), RowCol(a, b, 2, 1), RowCol(a, b, 3, 1),
     RowCol(a, b, 0, 2), RowCol(a, b, 1, 2), RowCol(a, b, 2, 2), RowCol(a, b, 3, 2),
     RowCol(a, b, 0, 3), RowCol(a, b, 1, 3), RowCol(a, b, 2, 3), RowCol(a, b, 3, 3)]
  }

  /** Row `i` of `m` times the column vector `v`. */
  function RowVec(m: Mat4, i: int, v: Vec4): real
    requires 0 <= i < 4
  {
    At(m, i, 0) * v[0] + At(m, i, 1) * v[1] + At(m, i, 2) * v[2] + At(m, i, 3) * v[3]
  }

  /** The image of the column vector `v` under `m`. */
  function Apply(m: Mat4, v: Vec4): (r: Vec4)
    ensures forall i :: 0 <= i < 4 ==> r[i] == RowVec(m, i, v)
  {
    [RowVec(m, 0, v), RowVec(m, 1, v), RowVec(m, 2, v), RowVec(m, 3, v)]
  }

  /** `mat4.create()`: the identity. */
  function Identity(): (r: Mat4)
    ensures forall i, j :: 0 <= i < 4 && 0 <= j < 4 ==> At(r, i, j) == if i == j then 1.0 else 0.0
  {
    [1.0, 0.0, 0.0, 0.0,
     0.0, 1.0, 0.0, 0.0,
     0.0, 0.0, 1.0, 0.0,
     0.0, 0.0, 0.0, 1.0]
  }

  /** The regrouping behind one row of a product applied to a vector: when
      x is the row a times the 4×4 block B and w is B times v, then x·v and
      a·w are the same sum. */
  lemma Regroup(a0: real, a1: real, a2: real, a3: real,
                b00: real, b01: real, b02: real, b03: real,
                b10: real, b11: real, b12: real, b13: real,
                b20: real, b21: real, b22: real, b23: real,
                b30: real, b31: real, b32: real, b33: real,
                v0: real, v1: real, v2: real, v3: real,
                x0: real, x1: real, x2: real, x3: real,
                w0: real, w1: real, w2: real, w3: real)
    requires x0 == a0 * b00 + a1 * b10 + a2 * b20 + a3 * b30
    requires x1 == a0 * b01 + a1 * b11 + a2 * b21 + a3 * b31
    requires x2 == a0 * b02 + a1 * b12 + a2 * b22 + a3 * b32
    requires x3 == a0 * b03 + a1 * b13 + a2 * b23 + a3 * b33
    requires w0 == b00 * v0 + b01 * v1 + b02 * v2 + b03 * v3
    requires w1 == b10 * v0 + b11 * v1 + b12 * v2 + b13 * v3
    requires w2 == b20 * v0 + b21 * v1 + b22 * v2 + b23 * v3
    requires w3 == b30 * v0 + b31 * v1 + b32 * v2 + b33 * v3
    ensures x0 * v0 + x1 * v1 + x2 * v2 + x3 * v3 == a0 * w0 + a1 * w1 + a2 * w2 + a3 * w3
  {
  }

  /** One row of a product, applied to a vector, is that row of `a` applied
      to the image of the vector under `b`. The product is passed by its
      entries, so that this proof never unfolds `Mul`. */
  lemma ProductApplyRow(a: Mat4, b: Mat4, ab: Mat4, v: Vec4, i: int)
    requires 0 <= i < 4
    requires forall i, j :: 0 <= i < 4 && 0 <= j < 4 ==> At(ab, i, j) == RowCol(a, b, i, j)
    ensures Apply(ab, v)[i] == Apply(a, Apply(b, v))[i]
  {
    var w := Apply(b, v);
    assert At(ab, i, 0) == RowCol(a, b, i, 0) && At(ab, i, 1) == RowCol(a, b, i, 1);
    assert At(ab, i, 2) == RowCol(a, b, i, 2) && At(ab, i, 3) == RowCol(a, b, i, 3);
    assert w[0] == RowVec(b, 0, v) && w[1] == RowVec(b, 1, v);
    assert w[2] == RowVec(b, 2, v) && w[3] == RowVec(b, 3, v);
    Regroup(At(a, i, 0), At(a, i, 1), At(a, i, 2), At(a, i, 3),
            At(b, 0, 0), At(b, 0, 1), At(b, 0, 2), At(b, 0, 3),
            At(b, 1, 0), At(b, 1, 1), At(b, 1, 2), At(b, 1, 3),
            At(b, 2, 0), At(b, 2, 1), At(b, 2, 2), At(b, 2, 3),
            At(b, 3, 0), At(b, 3, 1), At(b, 3, 2), At(b, 3, 3),
            v[0], v[1], v[2], v[3],
            At(ab, i, 0), At(ab, i, 1), At(ab, i, 2), At(ab, i, 3),
            w[0], w[1], w[2], w[3]);
  }

  /** In a product a·b the right operand acts first: applying a·b to a vector
      is applying b, then a. */
  lemma MulApply(a: Mat4, b: Mat4)
    ensures forall v: Vec4 :: Apply(Mul(a, b), v) == Apply(a, Apply(b, v))
  {
    forall v: Vec4
      ensures Apply(Mul(a, b), v) == Apply(a, Apply(b, v))
    {
      ProductApplyRow(a, b, Mul(a, b), v, 0);
      ProductApplyRow(a, b, Mul(a, b), v, 1);
      ProductApplyRow(a, b, Mul(a, b), v, 2);
      ProductApplyRow(a, b, Mul(a, b), v, 3);
    }
  }
}
