/**
 * One-against-rest for multi-label problems: each instance carries a set of
 * raw label values; one sub-model per label seen in training, trained on
 * "does the instance carry this label"; a prediction is the set of labels
 * whose sub-model fires.
 */
module OneAgainstRestMulti {

  /** `one_against_rest_multi_model`: the sub-model of each label. */
  datatype Model<L(==), M> = Model(models: map<L, M>)

  /** The union of the label sets of the instances, in instance order. */
  function Universe<L>(labels: seq<set<L>>): set<L>
  {
    if |labels| == 0 then {} else Universe(labels[..|labels| - 1]) + labels[|labels| - 1]
  }

  /** A label is in the universe exactly when some instance carries it. */
  lemma {:induction false} UniverseMembers<L>(labels: seq<set<L>>, l: L)
    ensures l in Universe(labels) <==> exists k :: 0 <= k < |labels| && l in labels[k]
  {
    if |labels| > 0 {
      var front := labels[..|labels| - 1];
      UniverseMembers(front, l);
      if l in Universe(front) {
        var k :| 0 <= k < |front| && l in front[k];
        assert l in labels[k];
      }
    }
  }

  /** `[(l in ls) for ls in labels]`: the training indicator of label `l`. */
  function Membership<L>(labels: seq<set<L>>, l: L): (r: seq<bool>)
    ensures |r| == |labels|
    ensures forall k :: 0 <= k < |labels| ==> (r[k] <==> l in labels[k])
  {
    seq(|labels|, k requires 0 <= k < |labels| => l in labels[k])
  }

  /** The model `train` returns: a sub-model for exactly the labels seen, each trained on its indicator. */
  ghost predicate IsTrained<F, M, L>(model: Model<L, M>, train: (seq<F>, seq<bool>) -> M,
                                     features: seq<F>, labels: seq<set<L>>)
  {
    model.models.Keys == Universe(labels) &&
    forall l :: l in model.models ==> model.models[l] == train(features, Membership(labels, l))
  }

  /**
   * `one_against_rest_multi.train`: collects the union of the label sets, then
   * trains one sub-model per label, visiting the labels in an arbitrary order.
   */
  method Train<F, M, L>(train: (seq<F>, seq<bool>) -> M, features: seq<F>, labels: seq<set<L>>)
    returns (model: Model<L, M>)
    ensures IsTrained(model, train, features, labels)
  {
    var allLabels: set<L> := {};
    for k := 0 to |labels|
      invariant allLabels == Universe(labels[..k])
    {
      assert labels[..k + 1][..k] == labels[..k];
      allLabels := allLabels + labels[k];
    }
    assert labels[..|labels|] == labels;
    var models: map<L, M> := map[];
    var rest := allLabels;
    while rest != {}
      invariant rest <= allLabels
      invariant models.Keys == allLabels - rest
      invariant forall l :: l in models ==> models[l] == train(features, Membership(labels, l))
      decreases rest
    {
      var l :| l in rest;
      models := models[l := train(features, Membership(labels, l))];
      rest := rest - {l};
    }
    model := Model(models);
  }

  /** `one_against_rest_multi_model.apply`: the labels whose sub-model fires. */
  function Apply<F, M, L>(model: Model<L, M>, fires: (M, F) -> bool, feats: F): (r: set<L>)
    ensures r <= model.models.Keys
    ensures forall l :: l in model.models ==> (l in r <==> fires(model.models[l], feats))
  {
    set l | l in model.models && fires(model.models[l], feats)
  }

  /** A label that no training instance carries is never predicted. */
  lemma PredictionsSeenInTraining<F, M, L>(model: Model<L, M>, train: (seq<F>, seq<bool>) -> M,
                                           fires: (M, F) -> bool, features: seq<F>,
                                           labels: seq<set<L>>, feats: F, l: L)
    requires IsTrained(model, train, features, labels)
    requires forall k :: 0 <= k < |labels| ==> l !in labels[k]
    ensures l !in Apply(model, fires, feats)
  {
    UniverseMembers(labels, l);
  }

  /**
   * Training followed by prediction: when every sub-model reproduces its
   * training indicator on the features of instance `k`, the prediction for
   * those features is exactly that instance's label set.
   */
  lemma RecallRoundTrip<F, M, L>(model: Model<L, M>, train: (seq<F>, seq<bool>) -> M,
                                 fires: (M, F) -> bool, features: seq<F>,
                                 labels: seq<set<L>>, k: nat)
    requires IsTrained(model, train, features, labels)
    requires k < |labels| && k < |features|
    requires forall l :: l in model.models ==> (fires(model.models[l], features[k]) <==> Membership(labels, l)[k])
    ensures Apply(model, fires, features[k]) == labels[k]
  {
    var r := Apply(model, fires, features[k]);
    forall l | l in labels[k] ensures l in r {
      UniverseMembers(labels, l);
    }
  }
}
