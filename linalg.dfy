/** Exact 3x3 matrices and 3x1 vectors over the reals, standing in for the
    numpy arrays that hold rotations, translations and trajectory points.
    Floating-point rounding is abstracted away: all arithmetic is exact. */
module Linalg {

  type Vec3 = v: seq<real> | |v| == 3 witness [0.0, 0.0, 0.0]

  type Mat3 = m: seq<seq<real>> | |m| == 3 && |m[0]| == 3 && |m[1]| == 3 && |m[2]| == 3
    witness [[0.0, 0.0, 0.0], [0.0, 0.0, 0.0], [0.0, 0.0, 0.0]]

  /** `np.zeros([3, 1])` */
  function Zero(): Vec3 { [0.0, 0.0, 0.0] }

  /** `np.eye(3)` */
  function Identity(): Mat3 { [[1.0, 0.0, 0.0], [0.0, 1.0, 0.0], [0.0, 0.0, 1.0]] }

  function Dot(u: Vec3, v: Vec3): real { u[0] * v[0] + u[1] * v[1] + u[2] * v[2] }

  function Col(b: Mat3, j: int): Vec3
    requires 0 <= j < 3
  {
    [b[0][j], b[1][j], b[2][j]]
  }

  /** Vector addition, `u + v` on two 3x1 arrays. */
  function Add(u: Vec3, v: Vec3): Vec3 { [u[0] + v[0], u[1] + v[1], u[2] + v[2]] }

  /** Matrix-vector product, `a @ v` with `v` a 3x1 array. */
  function MatVec(a: Mat3, v: Vec3): Vec3 { [Dot(a[0], v), Dot(a[1], v), Dot(a[2], v)] }

  /** Matrix product, `a @ b`. */
  function MatMul(a: Mat3, b: Mat3): Mat3 {
    [[Dot(a[0], Col(b, 0)), Dot(a[0], Col(b, 1)), Dot(a[0], Col(b, 2))],
     [Dot(a[1], Col(b, 0)), Dot(a[1], Col(b, 1)), Dot(a[1], Col(b, 2))],
     [Dot(a[2], Col(b, 0)), Dot(a[2], Col(b, 1)), Dot(a[2], Col(b, 2))]]
  }

  lemma AddZero(v: Vec3)
    ensures Add(Zero(), v) == v && Add(v, Zero()) == v
  {
  }

  lemma AddAssoc(u: Vec3, v: Vec3, w: Vec3)
    ensures Add(Add(u, v), w) == Add(u, Add(v, w))
  {
  }

  /** A matrix maps the origin to the origin. */
  lemma MatVecZero(a: Mat3)
    ensures MatVec(a, Zero()) == Zero()
  {
  }

  lemma MatVecIdentity(v: Vec3)
    ensures MatVec(Identity(), v) == v
  {
  }

  lemma MatMulIdentity(a: Mat3)
    ensures MatMul(a, Identity()) == a && MatMul(Identity(), a) == a
  {
    MatEq(MatMul(a, Identity()), a);
    MatEq(MatMul(Identity(), a), a);
  }

  /** Two matrices are equal when they agree entry by entry. */
  lemma MatEq(x: Mat3, y: Mat3)
    requires forall i, j | 0 <= i < 3 && 0 <= j < 3 :: x[i][j] == y[i][j]
    ensures x == y
  {
    assert x[0] == y[0] && x[1] == y[1] && x[2] == y[2];
  }

  /** Matrix-vector products distribute over vector addition. */
  lemma MatVecAdd(a: Mat3, u: Vec3, v: Vec3)
    ensures MatVec(a, Add(u, v)) == Add(MatVec(a, u), MatVec(a, v))
  {
    DotAdd(a[0], u, v);
    DotAdd(a[1], u, v);
    DotAdd(a[2], u, v);
  }

  /** The dot product distributes over vector addition. */
  lemma DotAdd(r: Vec3, u: Vec3, v: Vec3)
    ensures Dot(r, Add(u, v)) == Dot(r, u) + Dot(r, v)
  {
  }

  /** One row of `(b @ a) @ x` equals the same row of `b @ (a @ x)`. */
  lemma DotMatMulRow(r: Vec3, a: Mat3, x: Vec3)
    ensures Dot([Dot(r, Col(a, 0)), Dot(r, Col(a, 1)), Dot(r, Col(a, 2))], x) == Dot(r, MatVec(a, x))
  {
  }

  /** Applying a product is applying its factors right to left: `(b @ a) @ x == b @ (a @ x)`. */
  lemma MatVecMatMul(b: Mat3, a: Mat3, x: Vec3)
    ensures MatVec(MatMul(b, a), x) == MatVec(b, MatVec(a, x))
  {
    DotMatMulRow(b[0], a, x);
    DotMatMulRow(b[1], a, x);
    DotMatMulRow(b[2], a, x);
  }

  /** Matrix product is associative. */
  lemma MatMulAssoc(c: Mat3, b: Mat3, a: Mat3)
    ensures MatMul(MatMul(c, b), a) == MatMul(c, MatMul(b, a))
  {
    forall j | 0 <= j < 3
      ensures Col(MatMul(b, a), j) == MatVec(b, Col(a, j))
    {
    }
    forall i, j | 0 <= i < 3 && 0 <= j < 3
      ensures MatMul(MatMul(c, b), a)[i][j] == MatMul(c, MatMul(b, a))[i][j]
    {
      DotMatMulRow(c[i], b, Col(a, j));
    }
    MatEq(MatMul(MatMul(c, b), a), MatMul(c, MatMul(b, a)));
  }
}
