# Multi-class strategies of milk, in Dafny

A model of `milk/supervised/multi.py`. The module builds multi-class and
multi-label classifiers out of a binary one, in three ways. Each way has a
learner (`train`) and a model (`apply`):

- **one-against-rest** (`OneAgainstRest`). Training makes one sub-model per
  class index `c`, trained on the indicator `labels == c`. Prediction returns
  the name of the lowest-indexed sub-model that fires, or `names[0]` when none
  fires.
- **one-against-one** (`OneAgainstOne`). Training fills a triangular table
  with one sub-model per pair `i < j`. Each is trained only on the instances
  labelled `i` or `j`, against "is it `i`". Training fails at the first pair
  with no instance. Prediction is a round-robin vote: each pair gives one vote,
  to `i` if its sub-model fires and to `j` otherwise. The first class with the
  most votes wins (`argmax`).
- **one-against-rest, multi-label** (`OneAgainstRestMulti`). Training takes
  the union of the instances' label sets and trains one sub-model per label,
  on "does the instance carry it". Prediction returns the labels whose
  sub-model fires.

The base classifier is a pair of function parameters. `train(features,
indicator)` returns a sub-model, and `fires(model, feats)` is that sub-model's
`apply`. `ArrayOps` holds the numpy operations the code relies on (`max`,
`argmax`, `where`, boolean-mask indexing, `sum`). `Labels` states what the
single-label learners take from `normaliselabels`: labels are dense indices,
and each indexes the name table. Training loops and the vote are methods with
loop invariants, proved against specification functions (`IsTrained`,
`Tally`). The properties of those functions are proved as lemmas.

Modelling choices:
- The `normalisedlabels` flag of `one_against_rest.train` is ignored. The
  labels are always renormalised (multi.py:55-56).
- An empty label sequence fails at `labels.max()` (multi.py:57, 124). It is
  modelled as `Failure(NoLabels)`.
- The multi-label `apply` returns a list in dict order (multi.py:166). It is
  modelled as a set.
- `normaliselabels` is not part of this model. If it yields dense labels,
  where every class below `nclasses` has an instance, the one-against-one
  assertion (multi.py:131) can never fail (`DenseLabelsTrain`). The model
  assumes only that every label indexes the name table. Under that assumption
  the failure path is reachable, and it is modelled.

## Model

| member | source | states |
|---|---|---|
| ArrayOps.Max | milk/supervised/multi.py:57 | `labels.max()` is an element of the labels and no label exceeds it |
| ArrayOps.ArgMax | milk/supervised/multi.py:159 | `votes.argmax()` is an index holding the maximum, and every earlier index holds strictly less (ties go to the lowest index) |
| ArrayOps.Where | milk/supervised/multi.py:74 | `np.where(vals)` lists exactly the positions where the mask holds, in strictly increasing order |
| Labels.ClassCount | milk/supervised/multi.py:56-57 | `nclasses = labels.max() + 1` is between 1 and the size of the name table, and equals it when every name is used |
| OneAgainstRest.Train | milk/supervised/multi.py:55-64 | fails exactly on empty labels; otherwise returns `labels.max() + 1` sub-models, the `c`-th trained on all features against `labels == c`, in ascending `c`, with the name table unchanged; the model is valid for `apply` |
| OneAgainstRest.Choose | milk/supervised/multi.py:74-80 | the picked index is the first firing one when any fires, 0 when none fires, and always within range |
| OneAgainstRest.Apply | milk/supervised/multi.py:72-81 | returns `names[k]` for the lowest firing sub-model `k`, `names[0]` when none fires, and always a name of one of the `nclasses` classes |
| OneAgainstRest.UniqueFiring | milk/supervised/multi.py:75-76 | when exactly one sub-model fires, its class's name is returned |
| OneAgainstRest.RecallRoundTrip | milk/supervised/multi.py:55-81 | after training, if on instance `k`'s features exactly its own class's sub-model fires, `apply` returns `names[labels[k]]` |
| OneAgainstOne.PairSelection | milk/supervised/multi.py:130-133 | the pair's training set is exactly the instances labelled `i` or `j`; it is non-empty iff the pair has data; its indicator is true iff the label is `i` and false iff it is `j` |
| OneAgainstOne.Train | milk/supervised/multi.py:118-135 | fails with `NoLabels` on empty labels; otherwise succeeds iff every pair `i < j < nclasses` has data; on success entry `(i, j)` holds the pair's sub-model when `i < j` and nothing otherwise; on failure it names the first pair, in loop order, without data |
| OneAgainstOne.EmptyPairExample | milk/supervised/multi.py:131 | with labels 0 and 3 only, training fails at the pair (1, 2) |
| OneAgainstOne.DenseLabelsTrain | milk/supervised/multi.py:124-131 | when every class below `nclasses` has an instance, every pair has data, so training cannot fail |
| OneAgainstOne.TrainedPairCount | milk/supervised/multi.py:125-134 | a trained table holds exactly `nclasses * (nclasses - 1) / 2` sub-models |
| OneAgainstOne.VoteRow | milk/supervised/multi.py:153-158 | after row `i`, each class's count equals its score over the pairs visited so far |
| OneAgainstOne.Apply | milk/supervised/multi.py:144-159 | returns the name of the argmax of the round-robin tally, where each class scores one vote per pair it wins |
| OneAgainstOne.ScoreBound | milk/supervised/multi.py:152-158 | a class gets at most one vote from each other class, so at most `nc - 1` |
| OneAgainstOne.PairVotesOnce | milk/supervised/multi.py:155-158 | each pair between class `n` and a lower class gives its vote to exactly one of the two |
| OneAgainstOne.VoteTotals | milk/supervised/multi.py:150-158 | the votes sum to `nc * (nc - 1) / 2`, and each class has at most `nc - 1` |
| OneAgainstOne.ConsensusWins | milk/supervised/multi.py:150-159 | a class that wins all of its pairs is the one `argmax` picks |
| OneAgainstOne.RecallRoundTrip | milk/supervised/multi.py:118-159 | after training, if every pair holding instance `k`'s class fires iff that class is the pair's lower one, the vote returns `names[labels[k]]` |
| OneAgainstRestMulti.UniverseMembers | milk/supervised/multi.py:187-189 | a label is in the union of the label sets iff some instance carries it |
| OneAgainstRestMulti.Train | milk/supervised/multi.py:183-193 | the model has a sub-model for exactly the labels in the union, and label `L`'s is trained on the indicator `[L in ls for ls in labels]` |
| OneAgainstRestMulti.Apply | milk/supervised/multi.py:165-166 | the prediction holds only labels that have a sub-model, and holds each exactly when its sub-model fires |
| OneAgainstRestMulti.PredictionsSeenInTraining | milk/supervised/multi.py:166-192 | a label that no training instance carries is never predicted |
| OneAgainstRestMulti.RecallRoundTrip | milk/supervised/multi.py:165-192 | after training, if every sub-model reproduces its training indicator on instance `k`'s features, the prediction is exactly that instance's label set |

## Left out

- `normaliselabels` (multi.py:8) is not part of this model. The learners take its result: dense labels and the name table (`Labels.Normalised`).
- `set_option`, the learners' option dictionaries and their propagation onto the shared base classifier (multi.py:52-53, 60-61, 115-116, 128-129, 180-181) are left out. They are side effects on an opaque external object.
- The base classifier's training and `apply` are function parameters. They are assumed deterministic, and their own failures are not modelled.
- The `normalisedlabels=True` keyword passed to the base classifier (multi.py:62, 133) is not modelled. The 0/1 integer indicators (`.astype(int)`) are modelled as booleans.
- The vote counts of `one_against_one_model.apply` are floats in the source (`np.zeros(nc)`, multi.py:151); the model counts in naturals. Nothing is lost: each count is at most `nc - 1` and exact in a double.
- `_asanyarray` and numpy dtype handling (multi.py:17-21) are left out. Features are a sequence, and boolean-mask indexing is `Gather` at `Where(mask)`.
- OneAgainstOne.Train: requires features and labels of equal length, which numpy boolean indexing (multi.py:133) demands.
- OneAgainstRestMulti.Train: the order in which Python iterates over the label set (multi.py:191) is modelled as an arbitrary choice. The resulting map does not depend on it.
- OneAgainstRestMulti.Apply: returns a set, not a list in dict order (multi.py:166).
- The learners are not modelled as objects. Their only mutable state is the options dictionary, which is left out above.
