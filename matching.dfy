/** The match filter of `_findRelativeRt`: Lowe's ratio test over the k = 2
    nearest-neighbour lists returned by `knnMatch`, and the lookup of the
    kept matches' keypoints on the reference (query) and current (train)
    side. The nearest-neighbour search itself is not modelled: its result
    is an input. */
module Matching {
  import opened Errors

  /** `KeyPoint.pt`, a pixel position. */
  datatype Point2 = Point2(x: real, y: real)

  /** An OpenCV keypoint; of its attributes the core reads only `pt`. */
  datatype KeyPoint = KeyPoint(pt: Point2)

  type Descriptor = seq<real>

  /** What `detectAndCompute` returns for one image: `(kp, des)`. */
  datatype Features = Features(kps: seq<KeyPoint>, des: seq<Descriptor>)

  /** An OpenCV `DMatch`: `queryIdx` indexes the reference descriptors,
      `trainIdx` the current ones. */
  datatype DMatch = DMatch(queryIdx: int, trainIdx: int, distance: real)

  /** The ratio used by the test, `0.4`. */
  const RATIO: real := 0.4

  /** The ratio test on one neighbour pair `(m, n)`. */
  predicate Passes(m: DMatch, n: DMatch, ratio: real) {
    m.distance < ratio * n.distance
  }

  /** The neighbour list at index i unpacks as `m, n` and `m` passes the test. */
  predicate KeptAt(knn: seq<seq<DMatch>>, ratio: real, i: int)
    requires 0 <= i < |knn|
  {
    |knn[i]| == 2 && Passes(knn[i][0], knn[i][1], ratio)
  }

  /** The list `good` after `for m, n in matchedPoints: if m.distance < ratio * n.distance:
      good.append(m)`. The unpacking raises on a neighbour list whose length is
      not 2, and the first such list ends the loop. */
  function RatioFilter(knn: seq<seq<DMatch>>, ratio: real): (r: Result<seq<DMatch>>)
    ensures r.Err? ==> r.error == UnpackError
    ensures r.Ok? ==> |r.value| <= |knn|
  {
    if knn == [] then Ok([])
    else
      match RatioFilter(knn[..|knn| - 1], ratio)
      case Err(e) => Err(e)
      case Ok(good) =>
        var e := knn[|knn| - 1];
        if |e| != 2 then Err(UnpackError)
        else if Passes(e[0], e[1], ratio) then Ok(good + [e[0]])
        else Ok(good)
  }

  /** Reference definition: the indices of the neighbour lists whose best
      match is kept, in increasing order. */
  function KeptIndices(knn: seq<seq<DMatch>>, ratio: real): seq<nat> {
    if knn == [] then []
    else KeptIndices(knn[..|knn| - 1], ratio) + (if KeptAt(knn, ratio, |knn| - 1) then [|knn| - 1] else [])
  }

  predicate StrictlyIncreasing(s: seq<nat>) {
    forall a, b | 0 <= a < b < |s| :: s[a] < s[b]
  }

  /** KeptIndices lists exactly the indices that pass, each once, in order. */
  lemma {:induction false} KeptIndicesSpec(knn: seq<seq<DMatch>>, ratio: real)
    ensures var idx := KeptIndices(knn, ratio);
      && StrictlyIncreasing(idx)
      && (forall k | 0 <= k < |idx| :: idx[k] < |knn|)
      && (forall i | 0 <= i < |knn| :: i in idx <==> KeptAt(knn, ratio, i))
  {
    if knn != [] {
      var init := knn[..|knn| - 1];
      KeptIndicesSpec(init, ratio);
      forall i | 0 <= i < |init| ensures KeptAt(init, ratio, i) == KeptAt(knn, ratio, i) {
        assert init[i] == knn[i];
      }
    }
  }

  /** The loop raises exactly when some neighbour list does not hold two matches. */
  lemma {:induction false} RatioFilterFails(knn: seq<seq<DMatch>>, ratio: real)
    ensures RatioFilter(knn, ratio).Err? <==> exists i | 0 <= i < |knn| :: |knn[i]| != 2
  {
    if knn != [] {
      var init := knn[..|knn| - 1];
      RatioFilterFails(init, ratio);
      if exists i | 0 <= i < |init| :: |init[i]| != 2 {
        var i :| 0 <= i < |init| && |init[i]| != 2;
        assert knn[i] == init[i];
      }
      if exists i | 0 <= i < |knn| :: |knn[i]| != 2 {
        var i :| 0 <= i < |knn| && |knn[i]| != 2;
        if i < |init| { assert init[i] == knn[i]; }
      }
    }
  }

  /** The kept list is the subsequence of best matches at KeptIndices: every
      kept match passed the test, every pair that failed it was dropped, and
      the original order is kept. */
  lemma {:induction false} RatioFilterKeeps(knn: seq<seq<DMatch>>, ratio: real)
    requires RatioFilter(knn, ratio).Ok?
    ensures var good, idx := RatioFilter(knn, ratio).value, KeptIndices(knn, ratio);
      && |good| == |idx|
      && forall k | 0 <= k < |good| :: idx[k] < |knn| && |knn[idx[k]]| == 2 && good[k] == knn[idx[k]][0]
  {
    KeptIndicesSpec(knn, ratio);
    if knn != [] {
      var init := knn[..|knn| - 1];
      RatioFilterKeeps(init, ratio);
      KeptIndicesSpec(init, ratio);
      var idx := KeptIndices(knn, ratio);
      var good := RatioFilter(knn, ratio).value;
      forall k | 0 <= k < |good|
        ensures idx[k] < |knn| && |knn[idx[k]]| == 2 && good[k] == knn[idx[k]][0]
      {
        if k < |KeptIndices(init, ratio)| {
          assert idx[k] == KeptIndices(init, ratio)[k];
          assert knn[idx[k]] == init[idx[k]];
        }
      }
    }
  }

  /** Once a prefix of the neighbour lists raises, the whole loop raises the same. */
  lemma {:induction false} RatioFilterErrPrefix(knn: seq<seq<DMatch>>, ratio: real, n: nat)
    requires n <= |knn| && RatioFilter(knn[..n], ratio).Err?
    ensures RatioFilter(knn, ratio) == RatioFilter(knn[..n], ratio)
  {
    if n < |knn| {
      var init := knn[..|knn| - 1];
      assert init[..n] == knn[..n];
      RatioFilterErrPrefix(init, ratio, n);
    } else {
      assert knn[..n] == knn;
    }
  }

  /** With non-negative distances, lowering the ratio can only drop matches:
      every index kept at the lower ratio is kept at the higher one, so fewer
      matches survive a stricter test. */
  lemma {:induction false} RatioMonotone(knn: seq<seq<DMatch>>, r1: real, r2: real)
    requires r1 <= r2
    requires forall i, j | 0 <= i < |knn| && 0 <= j < |knn[i]| :: knn[i][j].distance >= 0.0
    ensures forall i | 0 <= i < |knn| :: KeptAt(knn, r1, i) ==> KeptAt(knn, r2, i)
    ensures RatioFilter(knn, r1).Ok? ==> RatioFilter(knn, r2).Ok? && |RatioFilter(knn, r1).value| <= |RatioFilter(knn, r2).value|
  {
    forall i | 0 <= i < |knn| && KeptAt(knn, r1, i) ensures KeptAt(knn, r2, i) {
      var d := knn[i][1].distance;
      assert d >= 0.0;
      assert r1 * d <= r2 * d;
    }
    if knn != [] {
      var init: seq<seq<DMatch>> := knn[..|knn| - 1];
      forall i: int, j: int | 0 <= i < |init| && 0 <= j < |init[i]| ensures init[i][j].distance >= 0.0 {
        assert init[i] == knn[i];
      }
      RatioMonotone(init, r1, r2);
    }
  }

  /** Python's `s[i]` is defined for `-len(s) <= i < len(s)`. */
  predicate InRange(n: nat, i: int) { -(n as int) <= i < n }

  /** The position Python's `s[i]` reads, negative indices counting from the end. */
  function Wrap(n: nat, i: int): (p: nat)
    requires InRange(n, i)
    ensures p < n && (i >= 0 ==> p == i)
  {
    if i < 0 then n + i else i
  }

  /** `[kps[i].pt for i in idx]`; an index out of range raises `IndexError`. */
  function Pick(kps: seq<KeyPoint>, idx: seq<int>): (r: Result<seq<Point2>>) {
    if idx == [] then Ok([])
    else if !InRange(|kps|, idx[0]) then Err(IndexError)
    else
      match Pick(kps, idx[1..])
      case Err(e) => Err(e)
      case Ok(rest) => Ok([kps[Wrap(|kps|, idx[0])].pt] + rest)
  }

  /** The comprehension succeeds exactly when every index is in range, and
      then yields one point per index, entry k read at index k. */
  lemma {:induction false} PickSpec(kps: seq<KeyPoint>, idx: seq<int>)
    ensures Pick(kps, idx).Ok? <==> forall k | 0 <= k < |idx| :: InRange(|kps|, idx[k])
    ensures Pick(kps, idx).Ok? ==> var pts := Pick(kps, idx).value;
      |pts| == |idx| && forall k | 0 <= k < |idx| :: pts[k] == kps[Wrap(|kps|, idx[k])].pt
  {
    if idx != [] {
      PickSpec(kps, idx[1..]);
      assert forall k | 1 <= k < |idx| :: idx[1..][k - 1] == idx[k];
      if Pick(kps, idx).Ok? {
        var pts := Pick(kps, idx).value;
        assert forall k | 1 <= k < |idx| :: pts[k] == Pick(kps, idx[1..]).value[k - 1];
      }
    }
  }

  function QueryIndices(good: seq<DMatch>): (idx: seq<int>)
    ensures |idx| == |good| && forall k | 0 <= k < |good| :: idx[k] == good[k].queryIdx
  {
    seq(|good|, k requires 0 <= k < |good| => good[k].queryIdx)
  }

  function TrainIndices(good: seq<DMatch>): (idx: seq<int>)
    ensures |idx| == |good| && forall k | 0 <= k < |good| :: idx[k] == good[k].trainIdx
  {
    seq(|good|, k requires 0 <= k < |good| => good[k].trainIdx)
  }

  /** `srcPoints` (reference side) and `dstPoints` (current side). */
  datatype Correspondences = Correspondences(src: seq<Point2>, dst: seq<Point2>)

  /** `srcPoints = [kp1[m.queryIdx].pt for m in good]`, then
      `dstPoints = [kp2[m.trainIdx].pt for m in good]`. */
  function Correspond(kp1: seq<KeyPoint>, kp2: seq<KeyPoint>, good: seq<DMatch>): (r: Result<Correspondences>)
  {
    match Pick(kp1, QueryIndices(good))
    case Err(e) => Err(e)
    case Ok(src) =>
      match Pick(kp2, TrainIndices(good))
      case Err(e) => Err(e)
      case Ok(dst) => Ok(Correspondences(src, dst))
  }

  /** Both point lists have one entry per kept match; entry k is the query
      keypoint's position on the source side and the train keypoint's on the
      destination side; the lookup fails only on an index out of range. */
  lemma CorrespondSpec(kp1: seq<KeyPoint>, kp2: seq<KeyPoint>, good: seq<DMatch>)
    ensures Correspond(kp1, kp2, good).Ok? <==>
      forall k | 0 <= k < |good| :: InRange(|kp1|, good[k].queryIdx) && InRange(|kp2|, good[k].trainIdx)
    ensures Correspond(kp1, kp2, good).Err? ==> Correspond(kp1, kp2, good).error == IndexError
    ensures Correspond(kp1, kp2, good).Ok? ==> var c := Correspond(kp1, kp2, good).value;
      && |c.src| == |good| && |c.dst| == |good|
      && forall k | 0 <= k < |good| ::
           c.src[k] == kp1[Wrap(|kp1|, good[k].queryIdx)].pt && c.dst[k] == kp2[Wrap(|kp2|, good[k].trainIdx)].pt
  {
    PickSpec(kp1, QueryIndices(good));
    PickSpec(kp2, TrainIndices(good));
    PickErr(kp1, QueryIndices(good));
    PickErr(kp2, TrainIndices(good));
  }

  lemma {:induction false} PickErr(kps: seq<KeyPoint>, idx: seq<int>)
    ensures Pick(kps, idx).Err? ==> Pick(kps, idx).error == IndexError
  {
    if idx != [] {
      PickErr(kps, idx[1..]);
    }
  }
}
