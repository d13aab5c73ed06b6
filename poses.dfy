/** Rigid poses `(R, t)` as `recoverPose` returns them and as the running
    absolute pose stores them, with the composition rule used in
    src/FeatureBased.py: a new relative pose is composed on the LEFT. */
module Poses {
  import opened Linalg

  datatype Pose = Pose(R: Mat3, t: Vec3)

  /** The point `R @ x + t`. */
  function Apply(p: Pose, x: Vec3): Vec3 {
    Add(MatVec(p.R, x), p.t)
  }

  /** First `a`, then `b`: `(b.R @ a.R, b.R @ a.t + b.t)`, the rule of the
      absolute-pose accumulation. */
  function Then(a: Pose, b: Pose): (c: Pose)
    ensures forall x: Vec3 :: Apply(c, x) == Apply(b, Apply(a, x))
  {
    var c := Pose(MatMul(b.R, a.R), Add(MatVec(b.R, a.t), b.t));
    forall x: Vec3 ensures Apply(c, x) == Apply(b, Apply(a, x)) {
      ApplyThen(a, b, x);
    }
    c
  }

  function IdentityPose(): Pose { Pose(Identity(), Zero()) }

  lemma ApplyThen(a: Pose, b: Pose, x: Vec3)
    ensures Apply(Pose(MatMul(b.R, a.R), Add(MatVec(b.R, a.t), b.t)), x) == Apply(b, Apply(a, x))
  {
    calc {
      Apply(b, Apply(a, x));
      Add(MatVec(b.R, Add(MatVec(a.R, x), a.t)), b.t);
      { MatVecAdd(b.R, MatVec(a.R, x), a.t); }
      Add(Add(MatVec(b.R, MatVec(a.R, x)), MatVec(b.R, a.t)), b.t);
      { MatVecMatMul(b.R, a.R, x); }
      Add(Add(MatVec(MatMul(b.R, a.R), x), MatVec(b.R, a.t)), b.t);
      { AddAssoc(MatVec(MatMul(b.R, a.R), x), MatVec(b.R, a.t), b.t); }
      Apply(Pose(MatMul(b.R, a.R), Add(MatVec(b.R, a.t), b.t)), x);
    }
  }

  /** The identity pose is neutral on both sides of composition. */
  lemma ThenIdentity(p: Pose)
    ensures Then(IdentityPose(), p) == p && Then(p, IdentityPose()) == p
  {
    MatMulIdentity(p.R);
    MatVecZero(p.R);
    MatVecIdentity(p.t);
  }

  /** Composition is associative, so the chain of absolute poses does not
      depend on how the relative poses are grouped. */
  lemma ThenAssoc(a: Pose, b: Pose, c: Pose)
    ensures Then(Then(a, b), c) == Then(a, Then(b, c))
  {
    MatMulAssoc(c.R, b.R, a.R);
    calc {
      Then(Then(a, b), c).t;
      Add(MatVec(c.R, Add(MatVec(b.R, a.t), b.t)), c.t);
      { MatVecAdd(c.R, MatVec(b.R, a.t), b.t); }
      Add(Add(MatVec(c.R, MatVec(b.R, a.t)), MatVec(c.R, b.t)), c.t);
      { MatVecMatMul(c.R, b.R, a.t); AddAssoc(MatVec(MatMul(c.R, b.R), a.t), MatVec(c.R, b.t), c.t); }
      Then(a, Then(b, c)).t;
    }
  }
}
