/**
 * One-against-one: one binary sub-model per pair of classes i < j, trained
 * only on the instances of those two classes ("is it i?"); a prediction is a
 * round-robin vote in which every pair gives one vote, to i when its
 * sub-model fires and to j otherwise, and the first class with the most votes
 * wins.
 */
module OneAgainstOne {
  import opened Wrappers
  import opened ArrayOps
  import opened Labels

  /** The triangular table: `models[i][j]` is the sub-model of the pair (i, j). */
  type Table<M> = seq<seq<Option<M>>>

  /** `one_against_one_model`: the pairwise table and the name table. */
  datatype Model<M, L> = Model(models: Table<M>, names: seq<L>)
  {
    /** `nclasses` rows of `nclasses` entries, a sub-model for each pair i < j. */
    ghost predicate Valid()
    {
      1 <= |models| <= |names| &&
      (forall i :: 0 <= i < |models| ==> |models[i]| == |models|) &&
      (forall i, j :: 0 <= i < j < |models| ==> models[i][j].Some?)
    }
  }

  // ---------------------------------------------------------------- training

  /** `(labels == i) | (labels == j)`: the instances of the pair (i, j). */
  function PairMask(labels: seq<nat>, i: nat, j: nat): (mask: seq<bool>)
    ensures |mask| == |labels|
    ensures forall k :: 0 <= k < |labels| ==> (mask[k] <==> labels[k] == i || labels[k] == j)
  {
    seq(|labels|, k requires 0 <= k < |labels| => labels[k] == i || labels[k] == j)
  }

  /** Some training instance is labelled `i` or `j`. */
  ghost predicate PairHasData(labels: seq<nat>, i: nat, j: nat)
  {
    exists k :: 0 <= k < |labels| && (labels[k] == i || labels[k] == j)
  }

  /**
   * `idxs.sum() > 0` holds exactly when the pair has data, and the selected
   * positions are exactly the instances labelled `i` or `j`.
   */
  lemma PairSelection(labels: seq<nat>, i: nat, j: nat)
    requires i < j
    ensures |Where(PairMask(labels, i, j))| > 0 <==> PairHasData(labels, i, j)
    ensures forall k :: k in Where(PairMask(labels, i, j)) <==>
                          0 <= k < |labels| && (labels[k] == i || labels[k] == j)
    ensures var idxs := Where(PairMask(labels, i, j));
            var ind := Gather(Indicator(labels, i), idxs);
            forall p :: 0 <= p < |idxs| ==> (ind[p] <==> labels[idxs[p]] == i) && (!ind[p] <==> labels[idxs[p]] == j)
  {
    var idxs := Where(PairMask(labels, i, j));
    if |idxs| > 0 {
      assert labels[idxs[0]] == i || labels[idxs[0]] == j;
    }
  }

  /** The pair (a, b) comes before the pair (i, j) in the training loops. */
  ghost predicate PairBefore(a: nat, b: nat, i: nat, j: nat)
  {
    a < i || (a == i && b < j)
  }

  /**
   * The sub-model of the pair (i, j): the base classifier trained on
   * `features[idxs]` against `labels[idxs] == i`, where `idxs` selects the
   * instances labelled `i` or `j`.
   */
  function PairModel<F, M>(train: (seq<F>, seq<bool>) -> M, features: seq<F>,
                           labels: seq<nat>, i: nat, j: nat): M
    requires |features| == |labels|
  {
    var idxs := Where(PairMask(labels, i, j));
    train(Gather(features, idxs), Gather(Indicator(labels, i), idxs))
  }

  /**
   * The model `train` returns for these labels: with `nclasses =
   * labels.max() + 1`, entry (i, j) holds the pair's sub-model when i < j and
   * nothing otherwise.
   */
  ghost predicate IsTrained<F, M, L>(model: Model<M, L>, train: (seq<F>, seq<bool>) -> M,
                                     features: seq<F>, labels: seq<nat>, names: seq<L>)
    requires |features| == |labels|
  {
    var nc := |model.models|;
    |labels| > 0 && nc == Max(labels) + 1 && model.names == names &&
    (forall i :: 0 <= i < nc ==> |model.models[i]| == nc) &&
    (forall i, j :: 0 <= i < nc && 0 <= j < nc ==>
       model.models[i][j] == if i < j then Some(PairModel(train, features, labels, i, j)) else None)
  }

  /**
   * `one_against_one.train`: fills the pairs in ascending (i, j) order and
   * fails at the first pair without data, the `assert idxs.sum() > 0`.
   */
  method Train<F, M, L>(train: (seq<F>, seq<bool>) -> M, features: seq<F>,
                        labels: seq<nat>, names: seq<L>)
    returns (r: Result<Model<M, L>, TrainError>)
    requires Normalised(labels, names)
    requires |features| == |labels|
    ensures labels == [] ==> r == Failure(NoLabels)
    ensures labels != [] ==>
              (r.Success? <==> forall i, j :: 0 <= i < j <= Max(labels) ==> PairHasData(labels, i, j))
    ensures r.Success? ==> IsTrained(r.value, train, features, labels, names) && r.value.Valid()
    ensures r.Failure? && labels != [] ==>
              r.error.EmptyPair? && r.error.i < r.error.j <= Max(labels) &&
              !PairHasData(labels, r.error.i, r.error.j) &&
              (forall a, b :: 0 <= a < b <= Max(labels) && PairBefore(a, b, r.error.i, r.error.j) ==>
                                PairHasData(labels, a, b))
  {
    if |labels| == 0 {
      return Failure(NoLabels);
    }
    var nclasses := Max(labels) + 1;
    var models: Table<M> := seq(nclasses, _ => seq(nclasses, _ => None));
    for i := 0 to nclasses
      invariant |models| == nclasses
      invariant forall a :: 0 <= a < nclasses ==> |models[a]| == nclasses
      invariant forall a, b :: 0 <= a < nclasses && 0 <= b < nclasses ==>
                  models[a][b] == if a < b && a < i then Some(PairModel(train, features, labels, a, b)) else None
      invariant forall a, b :: 0 <= a < b < nclasses && a < i ==> PairHasData(labels, a, b)
    {
      for j := i + 1 to nclasses
        invariant |models| == nclasses
        invariant forall a :: 0 <= a < nclasses ==> |models[a]| == nclasses
        invariant forall a, b :: 0 <= a < nclasses && 0 <= b < nclasses ==>
                    models[a][b] == if a < b && PairBefore(a, b, i, j)
                                    then Some(PairModel(train, features, labels, a, b)) else None
        invariant forall a, b :: 0 <= a < b < nclasses && PairBefore(a, b, i, j) ==> PairHasData(labels, a, b)
      {
        var idxs := Where(PairMask(labels, i, j));
        PairSelection(labels, i, j);
        if |idxs| == 0 {
          return Failure(EmptyPair(i, j));
        }
        var model := train(Gather(features, idxs), Gather(Indicator(labels, i), idxs));
        models := models[i := models[i][j := Some(model)]];
      }
    }
    r := Success(Model(models, names));
    ClassCount(labels, names);
  }

  /** When every class below `labels.max() + 1` has an instance, no pair lacks data, so `train` succeeds. */
  lemma DenseLabelsTrain(labels: seq<nat>)
    requires |labels| > 0 && Dense(labels, Max(labels) + 1)
    ensures forall i, j :: 0 <= i < j <= Max(labels) ==> PairHasData(labels, i, j)
  {
    forall i, j | 0 <= i < j <= Max(labels) ensures PairHasData(labels, i, j) {
      assert i in labels;
    }
  }

  /**
   * Labels 0 and 3 with no instance of classes 1 and 2: the pairs (0, 1),
   * (0, 2) and (0, 3) have data, and training stops at the pair (1, 2).
   */
  method EmptyPairExample() returns (r: Result<Model<nat, string>, TrainError>)
    ensures r == Failure(EmptyPair(1, 2))
  {
    var train := (fs: seq<nat>, ind: seq<bool>) => |fs|;
    var labels: seq<nat> := [0, 3];
    assert Max(labels) == 3;
    assert !PairHasData(labels, 1, 2);
    r := Train(train, [7, 9], labels, ["a", "b", "c", "d"]);
    assert r.error.i != 0 && r.error.i != 3 && r.error.j != 0 && r.error.j != 3 by {
      assert labels[0] == 0 && labels[1] == 3;
    }
  }

  /** How many entries of a row hold a sub-model. */
  function RowCount<M>(row: seq<Option<M>>): nat
  {
    if |row| == 0 then 0 else RowCount(row[..|row| - 1]) + (if row[|row| - 1].Some? then 1 else 0)
  }

  /** How many entries of a table hold a sub-model. */
  function TableCount<M>(t: Table<M>): nat
  {
    if |t| == 0 then 0 else TableCount(t[..|t| - 1]) + RowCount(t[|t| - 1])
  }

  /** Row `i` of a triangular table holds the sub-models of the pairs (i, j), j > i. */
  lemma {:induction false} RowOfTriangle<M>(row: seq<Option<M>>, i: nat)
    requires forall j :: 0 <= j < |row| ==> (row[j].Some? <==> i < j)
    ensures RowCount(row) == if i < |row| then |row| - 1 - i else 0
  {
    if |row| > 0 {
      RowOfTriangle(row[..|row| - 1], i);
    }
  }

  /** The first `m` rows of a triangular table hold `(nc - 1) + ... + (nc - m)` sub-models. */
  lemma {:induction false} TrianglePrefix<M>(t: Table<M>, nc: nat, m: nat)
    requires m <= |t| == nc
    requires forall i :: 0 <= i < nc ==> |t[i]| == nc
    requires forall i, j :: 0 <= i < nc && 0 <= j < nc ==> (t[i][j].Some? <==> i < j)
    ensures TableCount(t[..m]) * 2 == m * (2 * nc - 1 - m)
  {
    if m > 0 {
      TrianglePrefix(t, nc, m - 1);
      assert t[..m][..m - 1] == t[..m - 1];
      RowOfTriangle(t[m - 1], m - 1);
      assert m * (2 * nc - 1 - m) == (m - 1) * (2 * nc - 1 - (m - 1)) + 2 * (nc - m);
    }
  }

  /**
   * A trained table holds exactly `nclasses * (nclasses - 1) / 2`
   * sub-models, one per pair i < j.
   */
  lemma TrainedPairCount<F, M, L>(model: Model<M, L>, train: (seq<F>, seq<bool>) -> M,
                                  features: seq<F>, labels: seq<nat>, names: seq<L>)
    requires |features| == |labels| && IsTrained(model, train, features, labels, names)
    ensures var nc := |model.models|; TableCount(model.models) == nc * (nc - 1) / 2
  {
    var nc := |model.models|;
    TrianglePrefix(model.models, nc, nc);
    assert model.models[..nc] == model.models;
  }

  // ---------------------------------------------------------------- voting

  /** Whether the sub-model of the pair (i, j) fires on `feats` (false off the table). */
  function Decision<F, M, L>(model: Model<M, L>, fires: (M, F) -> bool, feats: F): (nat, nat) -> bool
  {
    (i: nat, j: nat) =>
      i < |model.models| && j < |model.models[i]| &&
      model.models[i][j].Some? && fires(model.models[i][j].value, feats)
  }

  /**
   * Whether the vote of the pair {c, k} goes to `c`, given the pairwise
   * outcomes `out`: the lower class of a pair wins when its sub-model fires,
   * the higher one when it does not.
   */
  function VotesFor(out: (nat, nat) -> bool, c: nat, k: nat): bool
  {
    if c < k then out(c, k) else if k < c then !out(k, c) else false
  }

  /** The number of opponents `k < n` whose pair with `c` votes for `c`. */
  function Score(out: (nat, nat) -> bool, c: nat, n: nat): nat
  {
    if n == 0 then 0 else Score(out, c, n - 1) + (if VotesFor(out, c, n - 1) then 1 else 0)
  }

  /** The round-robin tally of `nc` classes: each class's score against all others. */
  function Tally(out: (nat, nat) -> bool, nc: nat): (votes: seq<nat>)
    ensures |votes| == nc
  {
    seq(nc, c requires 0 <= c < nc => Score(out, c, nc))
  }

  /**
   * The pairs of row `c` and of column `c` that the loops of `apply` have
   * visited once they are at pair (i, j): the opponents of `c` counted so far
   * are exactly those below the returned bound.
   */
  ghost function Visited(i: nat, j: nat, c: nat, nc: nat): nat
  {
    if c < i then nc else if c == i then j else if c < j then i + 1 else i
  }

  /** Entering row `i` adds no opponent: a class never votes against itself. */
  lemma RowStart(out: (nat, nat) -> bool, i: nat, c: nat, nc: nat)
    requires i < nc
    ensures Score(out, c, Visited(i, i, c, nc)) == Score(out, c, Visited(i, i + 1, c, nc))
  {
  }

  /** Visiting the pair (i, j) adds one vote, to `i` if it fires and to `j` if not. */
  lemma PairStep(out: (nat, nat) -> bool, i: nat, j: nat, c: nat, nc: nat)
    requires i < j < nc && c < nc
    ensures Score(out, c, Visited(i, j + 1, c, nc)) ==
            Score(out, c, Visited(i, j, c, nc)) +
            (if (c == i && out(i, j)) || (c == j && !out(i, j)) then 1 else 0)
  {
  }

  /** The inner loop of `apply`: the votes of the pairs (i, j), j > i. */
  method VoteRow<F, M, L>(votes: array<nat>, model: Model<M, L>, fires: (M, F) -> bool, feats: F, i: nat)
    requires model.Valid() && votes.Length == |model.models| && i < |model.models|
    requires forall c :: 0 <= c < votes.Length ==>
               votes[c] == Score(Decision(model, fires, feats), c, Visited(i, i, c, votes.Length))
    modifies votes
    ensures forall c :: 0 <= c < votes.Length ==>
              votes[c] == Score(Decision(model, fires, feats), c, Visited(i + 1, i + 1, c, votes.Length))
  {
    ghost var out := Decision(model, fires, feats);
    var nc := votes.Length;
    forall c | 0 <= c < nc ensures Score(out, c, Visited(i, i, c, nc)) == Score(out, c, Visited(i, i + 1, c, nc)) {
      RowStart(out, i, c, nc);
    }
    for j := i + 1 to nc
      invariant forall c :: 0 <= c < nc ==> votes[c] == Score(out, c, Visited(i, j, c, nc))
    {
      var won := fires(model.models[i][j].value, feats);
      assert won == out(i, j);
      if won {
        votes[i] := votes[i] + 1;
      } else {
        votes[j] := votes[j] + 1;
      }
      forall k | 0 <= k < nc
        ensures votes[k] == Score(out, k, Visited(i, j + 1, k, nc))
      {
        PairStep(out, i, j, k, nc);
      }
    }
  }

  /**
   * `one_against_one_model.apply`: tallies the votes in a zeroed array and
   * returns the name of `votes.argmax()`.
   */
  method Apply<F, M, L>(model: Model<M, L>, fires: (M, F) -> bool, feats: F) returns (r: L)
    requires model.Valid()
    ensures r == model.names[ArgMax(Tally(Decision(model, fires, feats), |model.models|))]
  {
    ghost var out := Decision(model, fires, feats);
    var nc := |model.models|;
    var votes := new nat[nc](_ => 0);
    for i := 0 to nc
      invariant forall c :: 0 <= c < nc ==> votes[c] == Score(out, c, Visited(i, i, c, nc))
    {
      VoteRow(votes, model, fires, feats, i);
    }
    assert votes[..] == Tally(out, nc);
    r := model.names[ArgMax(votes[..])];
  }

  // ------------------------------------------------- properties of the vote

  /** A class gets at most one vote from each of the other classes. */
  lemma {:induction false} ScoreBound(out: (nat, nat) -> bool, c: nat, n: nat)
    ensures Score(out, c, n) <= if c < n then n - 1 else n
  {
    if n > 0 {
      ScoreBound(out, c, n - 1);
    }
  }

  /** The scores of the classes below `m`, each counted against the first `n` classes. */
  function SumScores(out: (nat, nat) -> bool, m: nat, n: nat): nat
  {
    if m == 0 then 0 else SumScores(out, m - 1, n) + Score(out, m - 1, n)
  }

  /** How many classes below `m` win their pair with class `n`. */
  function Gains(out: (nat, nat) -> bool, m: nat, n: nat): nat
  {
    if m == 0 then 0 else Gains(out, m - 1, n) + (if VotesFor(out, m - 1, n) then 1 else 0)
  }

  /** Summing the first `m` entries of the tally sums the scores of the classes below `m`. */
  lemma {:induction false} SumOfTallyPrefix(out: (nat, nat) -> bool, m: nat, n: nat)
    requires m <= n
    ensures Sum(Tally(out, n)[..m]) == SumScores(out, m, n)
  {
    if m > 0 {
      SumOfTallyPrefix(out, m - 1, n);
      assert Tally(out, n)[..m][..m - 1] == Tally(out, n)[..m - 1];
    }
  }

  /** Adding class `n` as an opponent gives each class below `m` its vote from that pair. */
  lemma {:induction false} SumScoresGrow(out: (nat, nat) -> bool, m: nat, n: nat)
    ensures SumScores(out, m, n + 1) == SumScores(out, m, n) + Gains(out, m, n)
  {
    if m > 0 {
      SumScoresGrow(out, m - 1, n);
    }
  }

  /** Every pair between class `n` and a class below it gives its vote to exactly one of the two. */
  lemma {:induction false} PairVotesOnce(out: (nat, nat) -> bool, m: nat, n: nat)
    requires m <= n
    ensures Score(out, n, m) + Gains(out, m, n) == m
  {
    if m > 0 {
      PairVotesOnce(out, m - 1, n);
    }
  }

  /** The scores of `n` classes against each other add up to one vote per pair. */
  lemma {:induction false} SumScoresTotal(out: (nat, nat) -> bool, n: nat)
    ensures SumScores(out, n, n) * 2 == n * (n - 1)
  {
    if n > 0 {
      var k := n - 1;
      SumScoresTotal(out, k);
      SumScoresGrow(out, k, k);
      PairVotesOnce(out, k, k);
      assert SumScores(out, n, n) == SumScores(out, k, k) + Gains(out, k, k) + Score(out, k, n);
      assert Score(out, k, n) == Score(out, k, k);
      assert n * (n - 1) == k * (k - 1) + 2 * k;
    }
  }

  /**
   * Every pair gives exactly one vote, so the tally of `nc` classes sums to
   * `nc * (nc - 1) / 2`, and no class gets more than `nc - 1` votes.
   */
  lemma VoteTotals(out: (nat, nat) -> bool, nc: nat)
    ensures Sum(Tally(out, nc)) == nc * (nc - 1) / 2
    ensures forall c :: 0 <= c < nc ==> Tally(out, nc)[c] <= nc - 1
  {
    SumOfTallyPrefix(out, nc, nc);
    assert Tally(out, nc)[..nc] == Tally(out, nc);
    SumScoresTotal(out, nc);
    forall c | 0 <= c < nc ensures Tally(out, nc)[c] <= nc - 1 {
      ScoreBound(out, c, nc);
    }
  }

  /** A class that loses its pair with `c` gets at most `n - 2` votes. */
  lemma {:induction false} LoserBound(out: (nat, nat) -> bool, d: nat, c: nat, n: nat)
    requires c != d && !VotesFor(out, d, c)
    ensures Score(out, d, n) <= n - (if d < n then 1 else 0) - (if c < n then 1 else 0)
  {
    if n > 0 {
      LoserBound(out, d, c, n - 1);
    }
  }

  /** A class that beats all opponents below `n` gets all their votes. */
  lemma {:induction false} WinnerScore(out: (nat, nat) -> bool, c: nat, n: nat)
    requires forall k :: 0 <= k < n && k != c ==> VotesFor(out, c, k)
    ensures Score(out, c, n) == n - (if c < n then 1 else 0)
  {
    if n > 0 {
      WinnerScore(out, c, n - 1);
    }
  }

  /** A class that wins every one of its pairs is the argmax of the tally. */
  lemma ConsensusWins(out: (nat, nat) -> bool, nc: nat, c: nat)
    requires c < nc
    requires forall k :: 0 <= k < nc && k != c ==> VotesFor(out, c, k)
    ensures ArgMax(Tally(out, nc)) == c
  {
    var votes := Tally(out, nc);
    WinnerScore(out, c, nc);
    forall d | 0 <= d < nc && d != c ensures votes[d] < votes[c] {
      assert VotesFor(out, c, d);
      LoserBound(out, d, c, nc);
    }
  }

  /**
   * Training followed by prediction: when, on the features of training
   * instance `k`, every pair containing its class reproduces its training
   * indicator (fires iff the instance is the pair's lower class), the vote
   * returns that instance's original label value, `names[labels[k]]`.
   */
  lemma RecallRoundTrip<F, M, L>(model: Model<M, L>, train: (seq<F>, seq<bool>) -> M,
                                 fires: (M, F) -> bool, features: seq<F>,
                                 labels: seq<nat>, names: seq<L>, k: nat)
    requires Normalised(labels, names) && |features| == |labels|
    requires IsTrained(model, train, features, labels, names)
    requires k < |labels|
    requires forall i, j :: 0 <= i < j < |model.models| && (labels[k] == i || labels[k] == j) ==>
               (fires(model.models[i][j].value, features[k]) <==> labels[k] == i)
    ensures model.Valid()
    ensures model.names[ArgMax(Tally(Decision(model, fires, features[k]), |model.models|))] == names[labels[k]]
  {
    ClassCount(labels, names);
    var nc := |model.models|;
    var c := labels[k];
    var out := Decision(model, fires, features[k]);
    forall o | 0 <= o < nc && o != c ensures VotesFor(out, c, o) {
      if c < o {
        assert out(c, o) == fires(model.models[c][o].value, features[k]);
      } else {
        assert out(o, c) == fires(model.models[o][c].value, features[k]);
      }
    }
    ConsensusWins(out, nc, c);
  }
}
