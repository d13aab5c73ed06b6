/** The two accumulations of `calculateTrajectories`, stated as functions of
    the list of relative poses, one per processed image, in processing order:
    the trajectory points and the absolute poses `Rt`. Both are written
    exactly as the source's recurrences; the lemmas relate them to each other
    and to a plain composition of the relative poses. */
module Trajectory {
  import opened Linalg
  import opened Poses
  import opened Errors

  /** `trajectories` after the loop: it starts at the origin and every
      relative pose appends `R_rel @ trajectories[-1] + t_rel`. */
  function Points(rels: seq<Pose>): (ps: seq<Vec3>)
    ensures |ps| == |rels| + 1
    ensures ps[0] == Zero()
  {
    if rels == [] then [Zero()]
    else
      var prev := Points(rels[..|rels| - 1]);
      prev + [Apply(rels[|rels| - 1], prev[|prev| - 1])]
  }

  /** `Rt` after the loop: the first entry is the first relative pose itself;
      each later one is `(R_rel @ prevR, R_rel @ prev_t + t_rel)`. */
  function AbsolutePoses(rels: seq<Pose>): (ps: seq<Pose>)
    ensures |ps| == |rels|
    ensures |rels| > 0 ==> ps[0] == rels[0]
  {
    if rels == [] then []
    else
      var prev := AbsolutePoses(rels[..|rels| - 1]);
      var rel := rels[|rels| - 1];
      if prev == [] then [rel]
      else
        var last := prev[|prev| - 1];
        prev + [Pose(MatMul(rel.R, last.R), Add(MatVec(rel.R, last.t), rel.t))]
  }

  /** Reference definition: the relative poses composed in order, starting from the identity. */
  function Compose(rels: seq<Pose>): Pose {
    if rels == [] then IdentityPose() else Then(Compose(rels[..|rels| - 1]), rels[|rels| - 1])
  }

  /** Reference definition: apply each relative pose to a point, first to last. */
  function ApplyAll(rels: seq<Pose>, x: Vec3): Vec3 {
    if rels == [] then x else Apply(rels[|rels| - 1], ApplyAll(rels[..|rels| - 1], x))
  }

  lemma PointsSnoc(rels: seq<Pose>, p: Pose)
    ensures Points(rels + [p]) == Points(rels) + [Apply(p, Points(rels)[|rels|])]
  {
    assert (rels + [p])[..|rels|] == rels;
  }

  lemma AbsoluteSnoc(rels: seq<Pose>, p: Pose)
    ensures AbsolutePoses(rels + [p]) ==
      if rels == [] then [p]
      else
        var last := AbsolutePoses(rels)[|rels| - 1];
        AbsolutePoses(rels) + [Pose(MatMul(p.R, last.R), Add(MatVec(p.R, last.t), p.t))]
  {
    assert (rels + [p])[..|rels|] == rels;
  }

  /** The body of the `calculateTrajectories` loop for one relative pose:
      append `R_rel @ trajectories[-1] + t_rel` to the points, and to `Rt`
      the pose itself when it is empty or `(R_rel @ prevR, R_rel @ prev_t + t_rel)`
      otherwise. */
  method Extend(points: seq<Vec3>, poses: seq<Pose>, ghost rels: seq<Pose>, pose: Pose)
    returns (points': seq<Vec3>, poses': seq<Pose>)
    requires points == Points(rels) && poses == AbsolutePoses(rels)
    ensures points' == Points(rels + [pose]) && poses' == AbsolutePoses(rels + [pose])
  {
    PointsSnoc(rels, pose);
    AbsoluteSnoc(rels, pose);
    points' := points + [Apply(pose, points[|points| - 1])];
    if poses == [] {
      poses' := poses + [pose];
    } else {
      var previous := poses[|poses| - 1];
      poses' := poses + [Pose(MatMul(pose.R, previous.R), Add(MatVec(pose.R, previous.t), pose.t))];
    }
  }

  /** Each point is the previous point moved by the next relative pose. */
  lemma {:induction false} PointsStep(rels: seq<Pose>, k: nat)
    requires k < |rels|
    ensures Points(rels)[k + 1] == Apply(rels[k], Points(rels)[k])
  {
    if k + 1 < |rels| {
      var init := rels[..|rels| - 1];
      PointsStep(init, k);
      assert init[k] == rels[k];
    }
  }

  /** Appending is all a step does: the points computed for a prefix of the
      relative poses are never modified afterwards. */
  lemma {:induction false} PointsPrefix(rels: seq<Pose>, k: nat)
    requires k <= |rels|
    ensures Points(rels[..k]) == Points(rels)[..k + 1]
  {
    if k < |rels| {
      var init := rels[..|rels| - 1];
      PointsPrefix(init, k);
      assert init[..k] == rels[..k];
    } else {
      assert rels[..k] == rels;
    }
  }

  /** `Rt` is append-only in the same way. */
  lemma {:induction false} AbsolutePrefix(rels: seq<Pose>, k: nat)
    requires k <= |rels|
    ensures AbsolutePoses(rels[..k]) == AbsolutePoses(rels)[..k]
  {
    if k < |rels| {
      var init := rels[..|rels| - 1];
      AbsolutePrefix(init, k);
      assert init[..k] == rels[..k];
    } else {
      assert rels[..k] == rels;
    }
  }

  /** Each later absolute pose is the previous one followed by the new relative pose. */
  lemma {:induction false} AbsoluteStep(rels: seq<Pose>, k: nat)
    requires 0 < k < |rels|
    ensures AbsolutePoses(rels)[k] == Then(AbsolutePoses(rels)[k - 1], rels[k])
  {
    var init := rels[..|rels| - 1];
    if k + 1 < |rels| {
      AbsoluteStep(init, k);
      assert init[k] == rels[k];
    }
  }

  /** For two steps the absolute pose is `(R2 R1, R2 t1 + t2)`. */
  lemma TwoSteps(p1: Pose, p2: Pose)
    ensures AbsolutePoses([p1, p2]) == [p1, Pose(MatMul(p2.R, p1.R), Add(MatVec(p2.R, p1.t), p2.t))]
  {
    assert [p1, p2][..1] == [p1];
  }

  /** Entry k of `Rt` is the composition of the first k + 1 relative poses. */
  lemma {:induction false} AbsoluteIsComposition(rels: seq<Pose>, k: nat)
    requires k < |rels|
    ensures AbsolutePoses(rels)[k] == Compose(rels[..k + 1])
  {
    var pre := rels[..k + 1];
    assert pre[..k] == rels[..k];
    if k == 0 {
      assert pre[..0] == [];
      ThenIdentity(rels[0]);
    } else {
      AbsoluteIsComposition(rels, k - 1);
      AbsoluteStep(rels, k);
      assert pre[..|pre| - 1] == rels[..k];
    }
  }

  /** Composition does what its name says: applying the composed pose is
      applying the relative poses one after another. */
  lemma {:induction false} ComposeApply(rels: seq<Pose>, x: Vec3)
    ensures Apply(Compose(rels), x) == ApplyAll(rels, x)
  {
    if rels == [] {
      MatVecIdentity(x);
      AddZero(MatVec(Identity(), x));
    } else {
      ComposeApply(rels[..|rels| - 1], x);
    }
  }

  /** The translations of `Rt` are exactly the trajectory points after the
      origin: the two accumulations agree on positions, and only the point
      list records the origin. */
  lemma {:induction false} TranslationIsPoint(rels: seq<Pose>, k: nat)
    requires k < |rels|
    ensures AbsolutePoses(rels)[k].t == Points(rels)[k + 1]
  {
    PointsStep(rels, k);
    if k == 0 {
      MatVecZero(rels[0].R);
      AddZero(rels[0].t);
    } else {
      TranslationIsPoint(rels, k - 1);
      AbsoluteStep(rels, k);
    }
  }

  /** Every trajectory point is the absolute pose of its image applied to the
      origin, and equally the relative poses applied in turn to the origin. */
  lemma PointFromAbsolute(rels: seq<Pose>, k: nat)
    requires k < |rels|
    ensures Points(rels)[k + 1] == Apply(AbsolutePoses(rels)[k], Zero())
    ensures Points(rels)[k + 1] == ApplyAll(rels[..k + 1], Zero())
  {
    TranslationIsPoint(rels, k);
    MatVecZero(AbsolutePoses(rels)[k].R);
    AddZero(AbsolutePoses(rels)[k].t);
    AbsoluteIsComposition(rels, k);
    ComposeApply(rels[..k + 1], Zero());
  }

  /** `np.array(trajectories)` read in row-major order: the points' coordinates one after another. */
  function Flatten(ps: seq<Vec3>): (flat: seq<real>)
    ensures |flat| == 3 * |ps|
  {
    if ps == [] then [] else ps[0] + Flatten(ps[1..])
  }

  lemma RowBounds(n: nat, rows: nat, i: nat)
    requires 0 < rows && n % rows == 0 && i < rows
    ensures 0 <= i * (n / rows) <= (i + 1) * (n / rows) <= n
  {
    var w := n / rows;
    assert n == rows * w;
    assert (rows - (i + 1)) * w >= 0;
    assert rows * w - (i + 1) * w == (rows - (i + 1)) * w;
  }

  /** Row i of data cut into rows of width w. */
  function Row(flat: seq<real>, w: nat, i: nat): seq<real>
    requires 0 <= i * w <= (i + 1) * w <= |flat|
  {
    flat[i * w .. (i + 1) * w]
  }

  /** `.reshape(rows, -1)`: numpy accepts it only when the element count is a
      multiple of a positive row count, and then cuts the data into equal rows. */
  function Reshape(flat: seq<real>, rows: nat): (r: Result<seq<seq<real>>>)
    ensures r.Ok? <==> rows > 0 && |flat| % rows == 0
    ensures r.Ok? ==> |r.value| == rows
  {
    if rows == 0 || |flat| % rows != 0 then Err(ReshapeError)
    else
      var w := |flat| / rows;
      Ok(seq(rows, i requires 0 <= i < rows => RowBounds(|flat|, rows, i); Row(flat, w, i)))
  }

  /** Reshaping the flattened points to one row per point gives the points back. */
  lemma ReshapeFlatten(ps: seq<Vec3>)
    requires |ps| > 0
    ensures Reshape(Flatten(ps), |ps|) == Ok(ps)
  {
    var flat := Flatten(ps);
    ThreeRows(|ps|);
    assert Reshape(flat, |ps|).Ok?;
    var rows := Reshape(flat, |ps|).value;
    assert forall i | 0 <= i < |ps| :: rows[i] == Row(flat, 3, i);
    forall i | 0 <= i < |ps| ensures rows[i] == ps[i] {
      FlattenRow(ps, i);
    }
    assert rows == ps;
  }
  lemma ThreeRows(n: nat)
    requires n > 0
    ensures (3 * n) % n == 0 && (3 * n) / n == 3
  {
  }

  /** Row i of the flattened data is point i. */
  lemma {:induction false} FlattenRow(ps: seq<Vec3>, i: nat)
    requires i < |ps|
    ensures Flatten(ps)[3 * i .. 3 * i + 3] == ps[i]
  {
    if i > 0 {
      FlattenRow(ps[1..], i - 1);
      assert Flatten(ps) == ps[0] + Flatten(ps[1..]);
      assert Flatten(ps)[3 * i .. 3 * i + 3] == Flatten(ps[1..])[3 * (i - 1) .. 3 * (i - 1) + 3];
    } else {
      assert Flatten(ps)[..3] == ps[0];
    }
  }
}
