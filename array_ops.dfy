/**
 * The few numpy operations the strategies rely on, as functions over sequences:
 * `a.max()`, `a.argmax()`, `np.where(mask)`, boolean-mask indexing `a[mask]`
 * and the elementwise comparison `labels == i`.
 */
module ArrayOps {

  /** `s.max()`: the largest element of a non-empty array. */
  function Max(s: seq<nat>): (m: nat)
    requires |s| > 0
    ensures m in s
    ensures forall k :: 0 <= k < |s| ==> s[k] <= m
  {
    if |s| == 1 then s[0]
    else
      var m' := Max(s[..|s| - 1]);
      if s[|s| - 1] > m' then s[|s| - 1] else m'
  }

  /**
   * `s.argmax()`: the index of a largest element; on ties the lowest such
   * index, because a later element replaces the candidate only when it is
   * strictly larger.
   */
  function ArgMax(s: seq<nat>): (k: nat)
    requires |s| > 0
    ensures k < |s|
    ensures forall j :: 0 <= j < |s| ==> s[j] <= s[k]
    ensures forall j :: 0 <= j < k ==> s[j] < s[k]
  {
    if |s| == 1 then 0
    else
      var k' := ArgMax(s[..|s| - 1]);
      if s[|s| - 1] > s[k'] then |s| - 1 else k'
  }

  /** Strictly increasing indices, each below `n`. */
  ghost predicate IncreasingIndices(idxs: seq<nat>, n: nat)
  {
    (forall p :: 0 <= p < |idxs| ==> idxs[p] < n) &&
    (forall p, q :: 0 <= p < q < |idxs| ==> idxs[p] < idxs[q])
  }

  /** `np.where(mask)`: the positions where `mask` holds, in ascending order. */
  function Where(mask: seq<bool>): (idxs: seq<nat>)
    ensures IncreasingIndices(idxs, |mask|)
    ensures forall p :: 0 <= p < |idxs| ==> mask[idxs[p]]
    ensures forall k :: 0 <= k < |mask| && mask[k] ==> k in idxs
  {
    if |mask| == 0 then []
    else
      var front := Where(mask[..|mask| - 1]);
      if mask[|mask| - 1] then front + [|mask| - 1] else front
  }

  /** `xs[idxs]`: the elements of `xs` at the given positions, in that order. */
  function Gather<T>(xs: seq<T>, idxs: seq<nat>): (r: seq<T>)
    requires forall p :: 0 <= p < |idxs| ==> idxs[p] < |xs|
    ensures |r| == |idxs|
    ensures forall p :: 0 <= p < |idxs| ==> r[p] == xs[idxs[p]]
  {
    seq(|idxs|, p requires 0 <= p < |idxs| => xs[idxs[p]])
  }

  /** `labels == c`: the elementwise indicator of class `c`. */
  function Indicator(labels: seq<nat>, c: nat): (r: seq<bool>)
    ensures |r| == |labels|
    ensures forall k :: 0 <= k < |labels| ==> (r[k] <==> labels[k] == c)
  {
    seq(|labels|, k requires 0 <= k < |labels| => labels[k] == c)
  }

  /** The total of a sequence of counts; used to total the one-against-one vote tally. */
  function Sum(s: seq<nat>): nat
  {
    if |s| == 0 then 0 else Sum(s[..|s| - 1]) + s[|s| - 1]
  }
}
