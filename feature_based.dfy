/** The feature-based pose estimator of src/FeatureBased.py: the relative
    pose of one image with respect to a reference (`_findRelativeRt`) and the
    left-to-right accumulation over the image list (`calculateTrajectories`).
    The OpenCV calls are parameters: `Collaborators` bundles them as total
    functions whose `None` results stand for the exceptions they raise. */
module FeatureBased {
  import opened Errors
  import opened Linalg
  import opened Poses
  import opened Matching
  import opened Trajectory

  /** The foreign calls the core makes.
      - `frame(name)`: `cv2.imread` of that file followed by SIFT
        `detectAndCompute`; `None` when no image could be read.
      - `knn(des1, des2)`: `BFMatcher(NORM_L2).knnMatch(des1, des2, k=2)`;
        `None` when it raises.
      - `estimate(dst, src, K)`: `findEssentialMat` (RANSAC, prob 0.999,
        threshold 1.0) followed by `recoverPose`; `None` when either raises.
        Its randomness is folded into the function. */
  datatype Collaborators = Collaborators(
    frame: string -> Option<Features>,
    knn: (seq<Descriptor>, seq<Descriptor>) -> Option<seq<seq<DMatch>>>,
    estimate: (seq<Point2>, seq<Point2>, Option<Mat3>) -> Option<Pose>)

  /** What `_findRelativeRt` returns: `(R, t)` and the new reference `(kp2, des2)`. */
  datatype Step = Step(pose: Pose, next: Features)

  /** `_readImage(imgName)`: an empty name is falsy, so the first image is read instead. */
  function Resolve(name: string, first: string): string {
    if name == "" then first else name
  }

  /** The pose part of `_findRelativeRt` once the current image's features
      `cur` are known: kNN matching, ratio test, the empty-result error,
      correspondence lookup and pose estimation with `calib`, the value of
      `self._calibMatrix`. */
  function PoseBetween(c: Collaborators, calib: Option<Mat3>, reference: Features, cur: Features): Result<Pose> {
    match c.knn(reference.des, cur.des)
    case None => Err(MatcherFailed)
    case Some(matched) =>
      match RatioFilter(matched, RATIO)
      case Err(e) => Err(e)
      case Ok(good) =>
        if good == [] then Err(NoGoodMatches)
        else
          match Correspond(reference.kps, cur.kps, good)
          case Err(e) => Err(e)
          case Ok(pts) =>
            match c.estimate(pts.dst, pts.src, calib)
            case None => Err(PoseEstimationFailed)
            case Some(pose) => Ok(pose)
  }

  /** `_findRelativeRt(referencePoints, img)` for the image stored under `img`. */
  function RelativeRt(c: Collaborators, calib: Option<Mat3>, reference: Features, img: string): Result<Step> {
    match c.frame(img)
    case None => Err(ImageUnreadable(img))
    case Some(cur) =>
      match PoseBetween(c, calib, reference, cur)
      case Err(e) => Err(e)
      case Ok(pose) => Ok(Step(pose, cur))
  }

  /** A successful step hands the current image's `(kp2, des2)` on as the next reference. */
  lemma RelativeRtNext(c: Collaborators, calib: Option<Mat3>, reference: Features, img: string)
    ensures RelativeRt(c, calib, reference, img).Ok? ==>
      c.frame(img) == Some(RelativeRt(c, calib, reference, img).value.next)
  {
  }

  /** A successful pose estimate consumed a non-empty set of ratio-test
      survivors and came from their correspondences and the shared
      intrinsics. When no match survives, `NoGoodMatches` is raised and no
      pose (hence no new reference) is produced. */
  lemma PoseBetweenSpec(c: Collaborators, calib: Option<Mat3>, reference: Features, cur: Features)
    ensures PoseBetween(c, calib, reference, cur).Ok? ==>
      && c.knn(reference.des, cur.des).Some?
      && var matched := c.knn(reference.des, cur.des).value;
      && RatioFilter(matched, RATIO).Ok?
      && var good := RatioFilter(matched, RATIO).value;
      && |good| > 0
      && Correspond(reference.kps, cur.kps, good).Ok?
      && var pts := Correspond(reference.kps, cur.kps, good).value;
      && |pts.src| == |good| && |pts.dst| == |good|
      && c.estimate(pts.dst, pts.src, calib) == Some(PoseBetween(c, calib, reference, cur).value)
    ensures c.knn(reference.des, cur.des).Some? && RatioFilter(c.knn(reference.des, cur.des).value, RATIO) == Ok([])
            ==> PoseBetween(c, calib, reference, cur) == Err(NoGoodMatches)
  {
    if PoseBetween(c, calib, reference, cur).Ok? {
      var good := RatioFilter(c.knn(reference.des, cur.des).value, RATIO).value;
      CorrespondSpec(reference.kps, cur.kps, good);
    }
  }

  /** The images the loop processes: every name except those equal to the first. */
  function Processed(names: seq<string>, first: string): (r: seq<string>)
    ensures |r| <= |names|
  {
    if names == [] then []
    else Processed(names[..|names| - 1], first) + (if names[|names| - 1] == first then [] else [names[|names| - 1]])
  }

  predicate Distinct(names: seq<string>) {
    forall i, j | 0 <= i < j < |names| :: names[i] != names[j]
  }

  lemma {:induction false} ProcessedAppend(a: seq<string>, b: seq<string>, first: string)
    ensures Processed(a + b, first) == Processed(a, first) + Processed(b, first)
  {
    if b == [] {
      assert a + b == a;
    } else {
      var b' := b[..|b| - 1];
      assert (a + b)[..|a + b| - 1] == a + b';
      ProcessedAppend(a, b', first);
    }
  }

  /** For distinct names only the first is skipped: N names, N - 1 iterations. */
  lemma {:induction false} ProcessedDistinct(names: seq<string>)
    requires |names| > 0 && Distinct(names)
    ensures Processed(names, names[0]) == names[1..]
  {
    if |names| > 1 {
      var init := names[..|names| - 1];
      ProcessedDistinct(init);
      assert init[1..] + [names[|names| - 1]] == names[1..];
    } else {
      assert names == [] + [names[0]];
    }
  }

  /** The state the loop threads: relative poses so far and the current reference. */
  datatype Progress = Progress(rels: seq<Pose>, reference: Features)

  /** The loop over the processed names, `referencePoints` threaded from each
      step to the next; the first step that raises ends it. */
  function Chain(c: Collaborators, calib: Option<Mat3>, first: string, ref0: Features, names: seq<string>): (r: Result<Progress>)
    ensures r.Ok? ==> |r.value.rels| == |names|
  {
    if names == [] then Ok(Progress([], ref0))
    else
      match Chain(c, calib, first, ref0, names[..|names| - 1])
      case Err(e) => Err(e)
      case Ok(p) =>
        match RelativeRt(c, calib, p.reference, Resolve(names[|names| - 1], first))
        case Err(e) => Err(e)
        case Ok(step) => Ok(Progress(p.rels + [step.pose], step.next))
  }

  /** The reference that step k of the chain consumes: the first image's
      features for k = 0, otherwise those of the image processed just before. */
  function ReferenceBefore(c: Collaborators, first: string, ref0: Features, names: seq<string>, k: nat): Option<Features>
    requires k <= |names|
  {
    if k == 0 then Some(ref0) else c.frame(Resolve(names[k - 1], first))
  }

  /** Step k of a chain: it compared image k with the reference the previous
      step returned and returned image k's features with pose `rels[k]`. */
  predicate StepAt(c: Collaborators, calib: Option<Mat3>, first: string, ref0: Features, names: seq<string>, rels: seq<Pose>, k: nat)
    requires k < |names| && k < |rels|
  {
    && ReferenceBefore(c, first, ref0, names, k).Some?
    && ReferenceBefore(c, first, ref0, names, k + 1).Some?
    && RelativeRt(c, calib, ReferenceBefore(c, first, ref0, names, k).value, Resolve(names[k], first))
         == Ok(Step(rels[k], ReferenceBefore(c, first, ref0, names, k + 1).value))
  }

  /** A completed chain is a sliding window of size one: every step k
      consumed the reference step k - 1 returned (the first image's features
      for k = 0), and the final reference is the last processed image's
      features. */
  lemma {:induction false} ChainSpec(c: Collaborators, calib: Option<Mat3>, first: string, ref0: Features, names: seq<string>)
    requires Chain(c, calib, first, ref0, names).Ok?
    ensures var p := Chain(c, calib, first, ref0, names).value;
      && ReferenceBefore(c, first, ref0, names, |names|) == Some(p.reference)
      && forall k | 0 <= k < |names| :: StepAt(c, calib, first, ref0, names, p.rels, k)
  {
    if names != [] {
      var init := names[..|names| - 1];
      ChainSpec(c, calib, first, ref0, init);
      var p0 := Chain(c, calib, first, ref0, init).value;
      var p := Chain(c, calib, first, ref0, names).value;
      RelativeRtNext(c, calib, p0.reference, Resolve(names[|names| - 1], first));
      forall k | 0 <= k <= |init| ensures ReferenceBefore(c, first, ref0, names, k) == ReferenceBefore(c, first, ref0, init, k) {
        assert k > 0 ==> init[k - 1] == names[k - 1];
      }
      forall k | 0 <= k < |names| ensures StepAt(c, calib, first, ref0, names, p.rels, k) {
        if k < |init| {
          assert names[k] == init[k] && p.rels[k] == p0.rels[k];
          assert StepAt(c, calib, first, ref0, init, p0.rels, k);
        }
      }
    }
  }

  /** One more name extends a successful chain by the step from its reference. */
  lemma ChainExtend(c: Collaborators, calib: Option<Mat3>, first: string, ref0: Features, names: seq<string>, x: string)
    requires Chain(c, calib, first, ref0, names).Ok?
    ensures var p := Chain(c, calib, first, ref0, names).value;
      var step := RelativeRt(c, calib, p.reference, Resolve(x, first));
      Chain(c, calib, first, ref0, names + [x]) ==
        if step.Ok? then Ok(Progress(p.rels + [step.value.pose], step.value.next)) else Err(step.error)
  {
    assert (names + [x])[..|names|] == names;
  }

  /** A step that raises is fatal: when step n fails, the whole chain reports
      that error and nothing after it is processed. */
  lemma {:induction false} ChainFails(c: Collaborators, calib: Option<Mat3>, first: string, ref0: Features, names: seq<string>, n: nat)
    requires n < |names| && Chain(c, calib, first, ref0, names[..n]).Ok?
    requires RelativeRt(c, calib, Chain(c, calib, first, ref0, names[..n]).value.reference, Resolve(names[n], first)).Err?
    ensures Chain(c, calib, first, ref0, names)
         == Err(RelativeRt(c, calib, Chain(c, calib, first, ref0, names[..n]).value.reference, Resolve(names[n], first)).error)
  {
    var init := names[..|names| - 1];
    if n + 1 < |names| {
      assert init[..n] == names[..n] && init[n] == names[n];
      ChainFails(c, calib, first, ref0, init, n);
    } else {
      assert init == names[..n];
    }
  }

  /** The relative poses of the whole run: the first image gives the initial
      reference, then every processed image is compared with its predecessor. */
  function RelativePoses(c: Collaborators, imgList: seq<string>, calib: Option<Mat3>): Result<seq<Pose>> {
    if imgList == [] then Err(IndexError)
    else
      match c.frame(imgList[0])
      case None => Err(ImageUnreadable(imgList[0]))
      case Some(ref0) =>
        match Chain(c, calib, imgList[0], ref0, Processed(imgList, imgList[0]))
        case Err(e) => Err(e)
        case Ok(p) => Ok(p.rels)
  }

  /** The two lists the loop of `calculateTrajectories` accumulates: the points and `Rt`. */
  datatype Track = Track(points: seq<Vec3>, poses: seq<Pose>)

  /** What `calculateTrajectories` returns: the reshaped trajectory array and `Rt`. */
  datatype Outcome = Outcome(points: seq<seq<real>>, poses: seq<Pose>)

  /** `calculateTrajectories` as a function of the image list and the intrinsics. */
  function Run(c: Collaborators, imgList: seq<string>, calib: Option<Mat3>): Result<Outcome> {
    match RelativePoses(c, imgList, calib)
    case Err(e) => Err(e)
    case Ok(rels) =>
      match Reshape(Flatten(Points(rels)), |imgList|)
      case Err(e) => Err(e)
      case Ok(arr) => Ok(Outcome(arr, AbsolutePoses(rels)))
  }

  /** For N distinct image names the run succeeds exactly when every one of
      the N - 1 steps does; it then returns N trajectory points, which are the
      accumulated points themselves (the reshape at the end cannot fail), and
      N - 1 absolute poses. */
  lemma RunDistinct(c: Collaborators, imgList: seq<string>, calib: Option<Mat3>)
    requires Distinct(imgList)
    ensures Run(c, imgList, calib).Ok? <==> RelativePoses(c, imgList, calib).Ok?
    ensures Run(c, imgList, calib).Ok? ==>
      var out, rels := Run(c, imgList, calib).value, RelativePoses(c, imgList, calib).value;
      && |rels| == |imgList| - 1
      && out.points == Points(rels)
      && |out.points| == |imgList|
      && out.poses == AbsolutePoses(rels)
      && |out.poses| == |imgList| - 1
  {
    if RelativePoses(c, imgList, calib).Ok? {
      ProcessedDistinct(imgList);
      var rels := RelativePoses(c, imgList, calib).value;
      ReshapeFlatten(Points(rels));
    }
  }

  /** One iteration of the image loop adds its name to the processed list
      unless it equals the first name. */
  lemma ProcessedStep(imgList: seq<string>, i: nat)
    requires i < |imgList|
    ensures var first, img := imgList[0], imgList[i];
      && (img == first ==> Processed(imgList[..i + 1], first) == Processed(imgList[..i], first))
      && (img != first ==> Processed(imgList[..i + 1], first) == Processed(imgList[..i], first) + [img])
  {
    var first, img := imgList[0], imgList[i];
    ProcessedAppend(imgList[..i], [img], first);
    assert imgList[..i + 1] == imgList[..i] + [img];
    if img != first {
      assert Processed([img], first) == [img];
    } else {
      assert Processed([img], first) == [];
    }
  }

  /** One iteration of the image loop: a name equal to the first is skipped;
      any other name extends the chain by its step when that step succeeds. */
  lemma ChainAdvance(c: Collaborators, calib: Option<Mat3>, imgList: seq<string>, i: nat, ref0: Features, p: Progress)
    requires i < |imgList|
    requires Chain(c, calib, imgList[0], ref0, Processed(imgList[..i], imgList[0])) == Ok(p)
    ensures var first, img := imgList[0], imgList[i];
      var next := Chain(c, calib, first, ref0, Processed(imgList[..i + 1], first));
      var step := RelativeRt(c, calib, p.reference, Resolve(img, first));
      && (img == first ==> next == Ok(p))
      && (img != first && step.Ok? ==> next == Ok(Progress(p.rels + [step.value.pose], step.value.next)))
  {
    ProcessedStep(imgList, i);
    if imgList[i] != imgList[0] {
      ChainExtend(c, calib, imgList[0], ref0, Processed(imgList[..i], imgList[0]), imgList[i]);
    }
  }

  /** When the step for image i raises, the chain over the whole list raises the same error. */
  lemma ChainStepFails(c: Collaborators, calib: Option<Mat3>, imgList: seq<string>, i: nat, ref0: Features, p: Progress)
    requires i < |imgList| && imgList[i] != imgList[0]
    requires Chain(c, calib, imgList[0], ref0, Processed(imgList[..i], imgList[0])) == Ok(p)
    requires RelativeRt(c, calib, p.reference, Resolve(imgList[i], imgList[0])).Err?
    ensures Chain(c, calib, imgList[0], ref0, Processed(imgList, imgList[0]))
         == Err(RelativeRt(c, calib, p.reference, Resolve(imgList[i], imgList[0])).error)
  {
    var first, img := imgList[0], imgList[i];
    var done := Processed(imgList[..i], first);
    ProcessedStep(imgList, i);
    var all := Processed(imgList, first);
    ProcessedAppend(imgList[..i + 1], imgList[i + 1..], first);
    assert imgList[..i + 1] + imgList[i + 1..] == imgList;
    assert all[..|done|] == done && all[|done|] == img;
    ChainFails(c, calib, first, ref0, all, |done|);
  }

  /** When the step for image i raises, the whole run raises the same error. */
  lemma RunStepFails(c: Collaborators, calib: Option<Mat3>, imgList: seq<string>, i: nat, ref0: Features, p: Progress)
    requires i < |imgList| && imgList[i] != imgList[0] && c.frame(imgList[0]) == Some(ref0)
    requires Chain(c, calib, imgList[0], ref0, Processed(imgList[..i], imgList[0])) == Ok(p)
    requires RelativeRt(c, calib, p.reference, Resolve(imgList[i], imgList[0])).Err?
    ensures Run(c, imgList, calib) == Err(RelativeRt(c, calib, p.reference, Resolve(imgList[i], imgList[0])).error)
  {
    ChainStepFails(c, calib, imgList, i, ref0, p);
  }

  /** The estimator object. `imgList` is the directory listing taken when it
      is built; the other fields start as `None`, as in the constructor. */
  class Estimator {
    const imgList: seq<string>
    var calibMatrix: Option<Mat3>
    var trajectories: Option<seq<seq<real>>>
    var rt: Option<seq<Pose>>
    var detectorCreated: bool

    constructor (imgList: seq<string>)
      ensures this.imgList == imgList
      ensures calibMatrix == None && trajectories == None && rt == None && !detectorCreated
    {
      this.imgList := imgList;
      calibMatrix := None;
      trajectories := None;
      rt := None;
      detectorCreated := false;
    }

    /** `calibrateCamera`: stores the refined intrinsic matrix, which the
        numeric optimisation (a parameter here) produced, and returns it. */
    method CalibrateCamera(refined: Mat3) returns (k: Mat3)
      modifies this`calibMatrix
      ensures calibMatrix == Some(refined) && k == refined
    {
      calibMatrix := Some(refined);
      k := refined;
    }

    /** `_findRelativeRt(reference, img)`: ratio test, empty-result error,
        correspondence lookup and pose estimation. It changes nothing. */
    method FindRelativeRt(c: Collaborators, reference: Features, img: string) returns (r: Result<Step>)
      ensures r == RelativeRt(c, calibMatrix, reference, img)
    {
      var cur := c.frame(img);
      if cur.None? {
        return Err(ImageUnreadable(img));
      }
      var kp2, des2 := cur.value.kps, cur.value.des;
      var knn := c.knn(reference.des, des2);
      if knn.None? {
        return Err(MatcherFailed);
      }
      var matched := knn.value;
      var good: seq<DMatch> := [];
      var i := 0;
      while i < |matched|
        invariant 0 <= i <= |matched|
        invariant RatioFilter(matched[..i], RATIO) == Ok(good)
      {
        assert matched[..i + 1][..i] == matched[..i];
        if |matched[i]| != 2 {
          RatioFilterErrPrefix(matched, RATIO, i + 1);
          return Err(UnpackError);
        }
        var m, n := matched[i][0], matched[i][1];
        if m.distance < RATIO * n.distance {
          good := good + [m];
        }
        i := i + 1;
      }
      assert matched[..i] == matched;
      if good == [] {
        return Err(NoGoodMatches);
      }
      var pts := Correspond(reference.kps, kp2, good);
      assert PoseBetween(c, calibMatrix, reference, cur.value) == (
        if pts.Err? then Err(pts.error)
        else match c.estimate(pts.value.dst, pts.value.src, calibMatrix)
          case None => Err(PoseEstimationFailed)
          case Some(pose) => Ok(pose));
      if pts.Err? {
        return Err(pts.error);
      }
      var pose := c.estimate(pts.value.dst, pts.value.src, calibMatrix);
      if pose.None? {
        return Err(PoseEstimationFailed);
      }
      return Ok(Step(pose.value, cur.value));
    }

    /** The loop of `calculateTrajectories`: reads the first image as the
        initial reference, skips every name equal to the first, and folds the
        relative pose of each other image, found against the previous
        reference, into the trajectory points and `Rt`. It changes nothing. */
    method Accumulate(c: Collaborators) returns (r: Result<Track>)
      ensures r.Err? <==> RelativePoses(c, imgList, calibMatrix).Err?
      ensures r.Err? ==> r.error == RelativePoses(c, imgList, calibMatrix).error
      ensures r.Ok? ==> var rels := RelativePoses(c, imgList, calibMatrix).value;
        r.value == Track(Points(rels), AbsolutePoses(rels))
    {
      if |imgList| == 0 {
        return Err(IndexError);
      }
      var first := imgList[0];
      var start := c.frame(first);
      if start.None? {
        return Err(ImageUnreadable(first));
      }
      ghost var ref0 := start.value;
      var reference := start.value;
      var points: seq<Vec3> := [Zero()];
      var poses: seq<Pose> := [];
      ghost var rels: seq<Pose> := [];
      var i := 0;
      while i < |imgList|
        invariant 0 <= i <= |imgList|
        invariant Chain(c, calibMatrix, first, ref0, Processed(imgList[..i], first)) == Ok(Progress(rels, reference))
        invariant points == Points(rels)
        invariant poses == AbsolutePoses(rels)
      {
        var img := imgList[i];
        if img == first {
          assert Chain(c, calibMatrix, first, ref0, Processed(imgList[..i + 1], first)) == Ok(Progress(rels, reference)) by {
            ChainAdvance(c, calibMatrix, imgList, i, ref0, Progress(rels, reference));
          }
          i := i + 1;
          continue;
        }
        var step := FindRelativeRt(c, reference, Resolve(img, first));
        if step.Err? {
          assert RelativePoses(c, imgList, calibMatrix) == Err(step.error) by {
            ChainStepFails(c, calibMatrix, imgList, i, ref0, Progress(rels, reference));
          }
          return Err(step.error);
        }
        var pose := step.value.pose;
        assert Chain(c, calibMatrix, first, ref0, Processed(imgList[..i + 1], first)) == Ok(Progress(rels + [pose], step.value.next)) by {
          ChainAdvance(c, calibMatrix, imgList, i, ref0, Progress(rels, reference));
        }
        reference := step.value.next;
        points, poses := Extend(points, poses, rels, pose);
        rels := rels + [pose];
        i := i + 1;
      }
      assert imgList[..i] == imgList;
      return Ok(Track(points, poses));
    }

    /** `calculateTrajectories`: the loop above, then the reshape of the
        points to one row per image name; both results are stored only when
        everything succeeded, so on an error the stored results keep their
        previous values. */
    method CalculateTrajectories(c: Collaborators) returns (r: Result<Outcome>)
      modifies this`trajectories, this`rt, this`detectorCreated
      ensures detectorCreated
      ensures r == Run(c, imgList, calibMatrix)
      ensures r.Ok? ==> trajectories == Some(r.value.points) && rt == Some(r.value.poses)
      ensures r.Err? ==> trajectories == old(trajectories) && rt == old(rt)
    {
      detectorCreated := true;
      var acc := Accumulate(c);
      if acc.Err? {
        return Err(acc.error);
      }
      var arr := Reshape(Flatten(acc.value.points), |imgList|);
      if arr.Err? {
        return Err(arr.error);
      }
      trajectories := Some(arr.value);
      rt := Some(acc.value.poses);
      return Ok(Outcome(arr.value, acc.value.poses));
    }
  }
}
