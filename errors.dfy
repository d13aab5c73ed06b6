/** The exceptions the visual-odometry core can raise, and a result type that
    carries either a value or the exception that ended the computation. */
module Errors {

  datatype Error =
    | IndexError              // `self._imgList[0]` on an empty list, or `kp[idx]` out of range
    | ImageUnreadable(name: string) // `cv2.imread` gave no image, so `detectAndCompute` raised
    | MatcherFailed           // `knnMatch` raised (for instance on a missing descriptor set)
    | UnpackError             // `for m, n in matchedPoints` met a neighbour list whose length is not 2
    | NoGoodMatches           // `ValueError("No good matches for matching algorithm!")`
    | PoseEstimationFailed    // `findEssentialMat` / `recoverPose` raised
    | ReshapeError            // `np.array(trajectories).reshape(len(imgList), -1)` raised

  datatype Result<+T> = Ok(value: T) | Err(error: Error)

  /** A value that may be missing, as Python's `None`. */
  datatype Option<+T> = None | Some(value: T)
}
