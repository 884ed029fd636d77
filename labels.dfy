/**
 * What the single-label learners take from `normaliselabels`: labels already
 * mapped to dense indices, and the table of original values (`names`).
 */
module Labels {
  import opened ArrayOps

  /** Every normalised label indexes the name table. */
  ghost predicate Normalised<L>(labels: seq<nat>, names: seq<L>)
  {
    forall k :: 0 <= k < |labels| ==> labels[k] < |names|
  }

  /** Every index below `n` is the label of some instance. */
  ghost predicate Dense(labels: seq<nat>, n: nat)
  {
    forall c :: 0 <= c < n ==> c in labels
  }

  /**
   * The number of classes the learners derive, `labels.max() + 1`, never
   * exceeds the name table, and equals it when every name is used.
   */
  lemma ClassCount<L>(labels: seq<nat>, names: seq<L>)
    requires |labels| > 0 && Normalised(labels, names)
    ensures 1 <= Max(labels) + 1 <= |names|
    ensures Dense(labels, |names|) ==> Max(labels) + 1 == |names|
  {
    if Dense(labels, |names|) {
      // the last name is used by some instance, so the maximum reaches it
      assert labels[0] < |names|;
      var last: nat := |names| - 1;
      assert last in labels;
    }
  }
}
