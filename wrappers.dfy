/** Failure-carrying return values shared by the three strategies. */
module Wrappers {

  datatype Option<+T> = None | Some(value: T)

  datatype Result<+T, +E> = Success(value: T) | Failure(error: E)

  /** The ways a single-label learner's `train` can fail. */
  datatype TrainError =
    | NoLabels                      // `labels.max()` on an empty label array raises
    | EmptyPair(i: nat, j: nat)     // a one-against-one pair (i, j) has no training instance
}
