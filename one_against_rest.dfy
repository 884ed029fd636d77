/**
 * One-against-rest: one binary sub-model per class, trained on "is this
 * class"; a prediction is the name of the lowest-indexed sub-model that fires,
 * or the name of class 0 when none fires.
 *
 * The base classifier is given as two functions: `train(features, indicator)`
 * returns a sub-model, and `fires(model, feats)` is that sub-model's `apply`.
 */
module OneAgainstRest {
  import opened Wrappers
  import opened ArrayOps
  import opened Labels

  /** `one_against_rest_model`: the sub-models by class index, and the name table. */
  datatype Model<M, L> = Model(models: seq<M>, names: seq<L>)
  {
    /** Every class index `apply` can pick names an entry of the table. */
    ghost predicate Valid()
    {
      1 <= |models| <= |names|
    }
  }

  /**
   * The model `train` returns for these labels: `labels.max() + 1` sub-models,
   * the `c`-th trained on all features against the indicator `labels == c`.
   */
  ghost predicate IsTrained<F, M, L>(model: Model<M, L>, train: (seq<F>, seq<bool>) -> M,
                                     features: seq<F>, labels: seq<nat>, names: seq<L>)
  {
    |labels| > 0 &&
    |model.models| == Max(labels) + 1 &&
    model.names == names &&
    forall c :: 0 <= c < |model.models| ==> model.models[c] == train(features, Indicator(labels, c))
  }

  /** `one_against_rest.train`: one sub-model per class, in ascending class order. */
  method Train<F, M, L>(train: (seq<F>, seq<bool>) -> M, features: seq<F>,
                        labels: seq<nat>, names: seq<L>)
    returns (r: Result<Model<M, L>, TrainError>)
    requires Normalised(labels, names)
    ensures r.Failure? <==> labels == []
    ensures r.Failure? ==> r.error == NoLabels
    ensures r.Success? ==> IsTrained(r.value, train, features, labels, names) && r.value.Valid()
  {
    if |labels| == 0 {
      return Failure(NoLabels);
    }
    var nclasses := Max(labels) + 1;
    var models: seq<M> := [];
    for i := 0 to nclasses
      invariant |models| == i
      invariant forall c :: 0 <= c < i ==> models[c] == train(features, Indicator(labels, c))
    {
      var model := train(features, Indicator(labels, i));
      models := models + [model];
    }
    r := Success(Model(models, names));
  }

  /**
   * The class index picked from the sub-models' outputs `vals`: the single
   * firing index, else 0 when none fires, else the first firing index.
   */
  function Choose(vals: seq<bool>): (c: nat)
    ensures forall k :: 0 <= k < |vals| && vals[k] ==> c <= k && vals[c]
    ensures (forall k :: 0 <= k < |vals| ==> !vals[k]) ==> c == 0
    ensures |vals| > 0 ==> c < |vals|
  {
    var idxs := Where(vals);
    if |idxs| == 1 then idxs[0]
    else if |idxs| == 0 then 0
    else idxs[0]
  }

  /** `one_against_rest_model.apply`. */
  function Apply<F, M, L>(model: Model<M, L>, fires: (M, F) -> bool, feats: F): (r: L)
    requires model.Valid()
    ensures r in model.names[..|model.models|]
    ensures forall k :: 0 <= k < |model.models| && fires(model.models[k], feats) &&
                        (forall j :: 0 <= j < k ==> !fires(model.models[j], feats))
                        ==> r == model.names[k]
    ensures (forall k :: 0 <= k < |model.models| ==> !fires(model.models[k], feats)) ==> r == model.names[0]
  {
    var vals := seq(|model.models|, i requires 0 <= i < |model.models| => fires(model.models[i], feats));
    assert forall k :: 0 <= k < |vals| ==> vals[k] == fires(model.models[k], feats);
    model.names[Choose(vals)]
  }

  /** When exactly one sub-model fires, its class's name is the prediction. */
  lemma UniqueFiring<F, M, L>(model: Model<M, L>, fires: (M, F) -> bool, feats: F, k: nat)
    requires model.Valid() && k < |model.models|
    requires forall j :: 0 <= j < |model.models| ==> (fires(model.models[j], feats) <==> j == k)
    ensures Apply(model, fires, feats) == model.names[k]
  {
  }

  /**
   * Training followed by prediction: when, on the features of training
   * instance `k`, exactly the sub-model of its own class fires (each sub-model
   * reproduces its training indicator there), the prediction is the original
   * label value of that instance, `names[labels[k]]`.
   */
  lemma RecallRoundTrip<F, M, L>(model: Model<M, L>, train: (seq<F>, seq<bool>) -> M,
                                 fires: (M, F) -> bool, features: seq<F>,
                                 labels: seq<nat>, names: seq<L>, k: nat)
    requires Normalised(labels, names) && IsTrained(model, train, features, labels, names)
    requires k < |labels| && k < |features|
    requires forall c :: 0 <= c < |model.models| ==>
               (fires(model.models[c], features[k]) <==> Indicator(labels, c)[k])
    ensures model.Valid()
    ensures Apply(model, fires, features[k]) == names[labels[k]]
  {
    // labels[k] <= labels.max() < nclasses, and only sub-model labels[k] fires
  }
}
