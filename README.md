# Feature-based camera pose estimation, modelled in Dafny

This project models the monocular visual-odometry core of the
CameraPoseEstimater repository, the `FeatureBased` estimator:

- `_findRelativeRt`. It matches the reference frame's SIFT descriptors against the
  current frame's with a k = 2 nearest-neighbour search. It keeps a best match
  only when `m.distance < 0.4 * n.distance` (Lowe's ratio test) and raises when
  nothing survives. It looks up the kept matches' keypoints on the reference
  (query) and current (train) side. It hands those point lists to the
  essential-matrix / `recoverPose` estimator, and returns the relative pose
  together with the current frame's `(kp, des)`, which becomes the next reference.
- `calculateTrajectories`. It reads the first image as the initial reference and
  skips every name equal to the first. It folds the relative poses of the other
  images, left to right, into two lists. The trajectory starts at the origin,
  and each step appends `R_rel @ prev + t_rel`. `Rt` starts with the first
  relative pose, and each later entry is `(R_rel @ prevR, R_rel @ prev_t + t_rel)`.
  At the end it reshapes the trajectory to one row per image name and stores
  both results on the object.

Layout:

- `errors.dfy` (`Errors`): the exceptions of the core, `Result` and `Option`.
- `linalg.dfy` (`Linalg`): 3-vectors and 3x3 matrices over exact `real`, with
  the algebra the proofs need (associativity, distributivity, identities).
- `poses.dfy` (`Poses`): a rigid pose `(R, t)`, its action `R x + t`, and
  composition with the source's rule (the new relative pose on the left).
- `matching.dfy` (`Matching`): the ratio-test loop as a function of the kNN
  result, and the index-to-point lookup with Python's negative indexing and
  `IndexError`.
- `trajectory.dfy` (`Trajectory`): the two recurrences as functions of the list
  of relative poses, the loop body that extends them, and the reshape.
- `feature_based.dfy` (`FeatureBased`): the estimator object (`class
  Estimator`). It holds the relative-pose method with its ratio-test loop, the
  image loop and `calculateTrajectories`, and the specification functions the
  methods are proved against (`RelativeRt`, `Chain`, `RelativePoses`, `Run`).

The OpenCV calls and the file reads are parameters, bundled in the
`Collaborators` datatype as total functions:

- `frame(name)`: `cv2.imread` followed by SIFT `detectAndCompute`.
- `knn(des1, des2)`: `BFMatcher(NORM_L2).knnMatch(des1, des2, k=2)`.
- `estimate(dst, src, K)`: `findEssentialMat` followed by `recoverPose`.

Each returns `None` where the real call raises. Every method is proved against a
specification function of those parameters, the image list and the stored
intrinsic matrix.

Three properties of the code are worth stating up front:

- `knnMatch(des1, des2)` queries the reference descriptors against the
  current ones. So `queryIdx` indexes `kp1`, the reference keypoints, and
  `trainIdx` indexes `kp2`, the current keypoints.
- The trajectory recurrence and the `Rt` recurrence are both modelled exactly
  as written, and they agree on positions. `Trajectory.TranslationIsPoint`
  proves that the translation of `Rt` entry k is trajectory point k + 1. The
  two lists differ only in that `Rt` also carries rotations and has no entry
  for the origin.
- What `knnMatch` returns for empty descriptor sets is up to OpenCV, which is
  the `knn` parameter here. An empty result gives an empty `good`, and that
  raises `NoGoodMatches`.

## Model

| member | source | states |
|---|---|---|
| Matching.RatioFilter | src/FeatureBased.py:33-36 | the ratio-test loop can only fail with the unpack error, and keeps at most one match per neighbour list |
| Matching.KeptIndicesSpec | src/FeatureBased.py:33-36 | the reference index list is strictly increasing, in range, and contains an index exactly when that list unpacks as `m, n` and `m.distance < 0.4 * n.distance` |
| Matching.RatioFilterKeeps | src/FeatureBased.py:33-36 | on success `good` is the best match of each kept list, in the original order: entry k is `knn[idx[k]][0]` for the k-th passing index, so every failing pair is dropped |
| Matching.RatioFilterFails | src/FeatureBased.py:34 | the loop raises if and only if some neighbour list does not hold exactly two matches |
| Matching.RatioFilterErrPrefix | src/FeatureBased.py:34 | once a prefix of the lists raises, the whole loop raises the same error (the first bad list ends it) |
| Matching.RatioMonotone | src/FeatureBased.py:35 | with non-negative distances, every match kept at a lower ratio is kept at a higher one, and fewer matches survive the stricter test |
| Matching.Wrap | src/FeatureBased.py:41-42 | a Python index in range reads a valid position and a non-negative index reads itself |
| Matching.Pick | src/FeatureBased.py:41-42 | the list comprehension `[kps[i].pt for i in idx]`, with Python's negative indexing; its behaviour is stated by `PickSpec` and `PickErr` |
| Matching.Correspond | src/FeatureBased.py:41-42 | `srcPoints` from the query indices on `kp1`, then `dstPoints` from the train indices on `kp2`; its behaviour is stated by `CorrespondSpec` |
| Matching.PickSpec | src/FeatureBased.py:41-42 | the keypoint lookup succeeds exactly when every index is in range; it then yields one point per index, entry k read at index k |
| Matching.PickErr | src/FeatureBased.py:41-42 | the lookup can only fail with `IndexError` |
| Matching.CorrespondSpec | src/FeatureBased.py:41-42 | `srcPoints` and `dstPoints` have exactly as many entries as `good`; entry k is `kp1[good[k].queryIdx].pt` and `kp2[good[k].trainIdx].pt`; failure happens iff an index is out of range, and is then `IndexError` |
| FeatureBased.PoseBetween | src/FeatureBased.py:28-48 | matching, ratio test, empty-result error, point lookup and pose estimation for two frames' features; its behaviour is stated by `PoseBetweenSpec`, and `Estimator.FindRelativeRt` is proved equal to it through `RelativeRt` |
| FeatureBased.RelativeRt | src/FeatureBased.py:24-49 | `_findRelativeRt` for one image name: read and detect, then `PoseBetween`, returning the pose and the image's `(kp2, des2)`; stated by `RelativeRtNext`, `ChainSpec` and `Estimator.FindRelativeRt` |
| FeatureBased.Resolve | src/utils.py:35-38 | `_readImage`: an empty (falsy) name reads the first image of the list, any other name reads itself; it is used by `RelativeRt` calls in `Chain`, and `ChainSpec` states which image each step reads |
| FeatureBased.RelativePoses | src/FeatureBased.py:58-66 | the first image's features as the initial reference, then the chain over the processed names; `Estimator.Accumulate` is proved against it, and `RunDistinct` and `ChainSpec` state its results |
| FeatureBased.Run | src/FeatureBased.py:57-82 | `calculateTrajectories` as a function: relative poses, points and `Rt`, then the reshape; `Estimator.CalculateTrajectories` is proved equal to it, and `RunDistinct` and `RunStepFails` state its success and failure cases |
| FeatureBased.PoseBetweenSpec | src/FeatureBased.py:30-48 | a pose is produced only from a non-empty set of ratio-test survivors, by the estimator applied to their destination and source points and the stored intrinsics; an empty survivor set raises `NoGoodMatches` |
| FeatureBased.RelativeRtNext | src/FeatureBased.py:25-49 | a successful step returns the current image's `(kp2, des2)` as the next reference |
| FeatureBased.Estimator.FindRelativeRt | src/FeatureBased.py:24-49 | the method, with its ratio-test loop, returns exactly the specified relative step (pose and next reference), or the specified error for an unreadable image, a failing matcher, a bad neighbour list, no good matches, a bad index or a failing estimator |
| FeatureBased.Processed | src/FeatureBased.py:63-65 | the names the loop processes are at most the names in the list |
| FeatureBased.ProcessedAppend | src/FeatureBased.py:63-65 | skipping the first name distributes over concatenation of the image list |
| FeatureBased.ProcessedStep | src/FeatureBased.py:63-65 | one loop iteration adds the current name to the processed names unless it equals the first name |
| FeatureBased.ProcessedDistinct | src/FeatureBased.py:63-65 | for distinct names only the first is skipped, so the loop processes the remaining N - 1 names |
| FeatureBased.Chain | src/FeatureBased.py:63-66 | a successful chain yields one relative pose per processed name |
| FeatureBased.ChainSpec | src/FeatureBased.py:58-66 | in a successful chain every step k compared image k with the reference step k - 1 returned (the first image's features for k = 0), and the final reference is the last processed image's features (a sliding window of size one) |
| FeatureBased.ChainExtend | src/FeatureBased.py:63-66 | one more processed name extends a successful chain by its step, or ends it with that step's error |
| FeatureBased.ChainAdvance | src/FeatureBased.py:63-66 | one loop iteration leaves the chain unchanged for a skipped name and extends it by the step's pose and new reference otherwise |
| FeatureBased.ChainFails | src/FeatureBased.py:66 | when step n raises, the whole chain reports that error and nothing after it is processed |
| FeatureBased.ChainStepFails | src/FeatureBased.py:63-66 | when the step for image i raises, the chain over the whole list raises the same error |
| FeatureBased.RunStepFails | src/FeatureBased.py:66-82 | when the step for image i raises, `calculateTrajectories` raises the same error |
| FeatureBased.RunDistinct | src/FeatureBased.py:63-77 | for N distinct names the run succeeds exactly when every step does; it then returns N trajectory rows, which are the accumulated points, and N - 1 absolute poses |
| FeatureBased.Estimator.Accumulate | src/FeatureBased.py:58-75 | the image loop fails exactly when the specified chain of relative poses fails, with the same error; on success it returns the trajectory points and `Rt` of that chain |
| FeatureBased.Estimator.CalculateTrajectories | src/FeatureBased.py:57-82 | the method creates the detector and returns the specified result; on success `_trajectories` and `_Rt` hold exactly the returned values; on any error both keep their previous values |
| FeatureBased.Estimator.constructor | src/utils.py:17-23 | the image list is the given listing and the intrinsics, trajectories and `Rt` start as `None` |
| FeatureBased.Estimator.CalibrateCamera | src/utils.py:106-116 | the refined intrinsic matrix is stored and returned |
| Trajectory.Points | src/FeatureBased.py:60-68 | the trajectory has one point per relative pose plus the origin, which is its first point |
| Trajectory.AbsolutePoses | src/FeatureBased.py:61-75 | `Rt` has one entry per relative pose, and its first entry is the first relative pose |
| Trajectory.Extend | src/FeatureBased.py:68-75 | one loop body appends to the points and to `Rt` exactly the entry the recurrences prescribe for the new relative pose |
| Trajectory.PointsStep | src/FeatureBased.py:68 | each point is `R_rel @ previous point + t_rel` for the relative pose of its step |
| Trajectory.PointsPrefix | src/FeatureBased.py:60-68 | points computed for a prefix of the steps are never modified by later steps |
| Trajectory.AbsolutePrefix | src/FeatureBased.py:69-75 | `Rt` entries computed for a prefix of the steps are never modified by later steps |
| Trajectory.AbsoluteStep | src/FeatureBased.py:72-75 | each later `Rt` entry is the previous entry followed by the new relative pose, `(R_rel @ prevR, R_rel @ prev_t + t_rel)` |
| Trajectory.TwoSteps | src/FeatureBased.py:69-75 | for two steps `Rt` is `[(R1, t1), (R2 R1, R2 t1 + t2)]` |
| Trajectory.AbsoluteIsComposition | src/FeatureBased.py:69-75 | entry k of `Rt` is the composition of the first k + 1 relative poses |
| Trajectory.ComposeApply | src/FeatureBased.py:72-75 | applying the composed pose is applying the relative poses one after another |
| Trajectory.TranslationIsPoint | src/FeatureBased.py:68-75 | the translation of `Rt` entry k is trajectory point k + 1 |
| Trajectory.PointFromAbsolute | src/FeatureBased.py:60-75 | trajectory point k + 1 is absolute pose k applied to the origin, and equally the first k + 1 relative poses applied in turn to the origin |
| Trajectory.Flatten | src/FeatureBased.py:77 | the array of points holds three coordinates per point |
| Trajectory.Reshape | src/FeatureBased.py:77 | `reshape(rows, -1)` succeeds exactly for a positive row count dividing the element count, and then gives that many rows |
| Trajectory.FlattenRow | src/FeatureBased.py:77 | row i of the flattened points is point i |
| Trajectory.ReshapeFlatten | src/FeatureBased.py:77 | reshaping N points to N rows gives the points back, so the reshape cannot fail when the list has N points |
| Poses.Apply | src/FeatureBased.py:68 | the point `R @ x + t`; `PointsStep` states that each trajectory point is the previous one moved this way, and `Poses.Then` that composition acts through it |
| Poses.Then | src/FeatureBased.py:72-75 | the composition rule `(R_rel @ prevR, R_rel @ prev_t + t_rel)` acts on every point as the previous pose followed by the relative pose |
| Poses.ThenIdentity | src/FeatureBased.py:69-75 | the identity pose is neutral on both sides of composition |
| Poses.ThenAssoc | src/FeatureBased.py:72-75 | composition is associative |
| Linalg.MatVecMatMul | src/FeatureBased.py:73-74 | `(B @ A) @ x == B @ (A @ x)` |
| Linalg.MatMulAssoc | src/FeatureBased.py:73 | matrix product is associative |

## Left out

- SIFT detection, brute-force kNN matching, `findEssentialMat` (RANSAC with prob 0.999, threshold 1.0, randomised) and `recoverPose` are OpenCV calls. They are the `Collaborators` parameters. Nothing is assumed about their results, such as orthonormality of R or cheirality.
- `cv2.imread` and `os.path.join` are folded into `frame`. The listing `os.listdir` is the constructor's argument, and `_readImage` with an empty name reads the first image (`Resolve`).
- FeatureBased.Estimator.CalibrateCamera: `cv2.calibrateCamera` with its flag set, `_loadNumpyPoints` (`np.load`) and the read of the first image are numeric optimisation and file I/O. The refined matrix is a parameter, so only storing and returning it is modelled.
- `saveResult`, `saveFigure`, `saveTrajectories` and the `saveRes` branch of `calculateTrajectories` (lines 80-81) write files and plots, so they are not modelled.
- `main.py` (argument parsing and the initial intrinsic guess) is configuration glue. The `FlowBased` estimator it imports is not part of this model.
- The detector object `self.detector` is recorded only as the flag `detectorCreated`. Its behaviour is the `frame` parameter.
- Floating point: distances, pixel positions and matrix entries are exact `real`. The `np.float32` conversion of the point lists and IEEE rounding are not modelled.
- Matching.KeyPoint: of an OpenCV keypoint only `pt` is kept, since the core reads nothing else.
- FeatureBased.Estimator.FindRelativeRt: the `reshape(-1, 1, 2)` of the point lists only changes the array's shape. The model passes plain point sequences.
- FeatureBased.Estimator.CalculateTrajectories: the returned `Rt` is the same Python list object as `self._Rt`. The model returns an equal value and does not model the aliasing.
- Python exceptions other than the ones listed in `Errors.Error` (for instance a `MemoryError`) are not modelled. An exception raised inside an OpenCV call is reported by its call site's error (`MatcherFailed`, `PoseEstimationFailed`, `ImageUnreadable`), not by OpenCV's own message.
- The 3x1 column vector `t` is a 3-vector, and the 3x3 `R` is a 3x3 `seq` of rows.
