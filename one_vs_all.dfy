/**
 * The one-vs-all strategy of dense_features.py: `one_vs_all` turns the class
 * labels into 0/1 indicators for one class, and the scoring loop of
 * `run_model_one_vs_all` predicts, for every test row, the first class whose
 * model gives the highest output, and counts the correct predictions.
 */
module OneVsAll {
  import opened Lists

  /** `int(label == num_class)` for every label, in order. */
  function Indicators(labels: seq<int>, numClass: int): (r: seq<int>)
    ensures |r| == |labels|
  {
    if labels == [] then []
    else Indicators(labels[..|labels| - 1], numClass) + [if labels[|labels| - 1] == numClass then 1 else 0]
  }

  /** Entry `k` is 1 exactly when label `k` is the class, and 0 otherwise. */
  lemma {:induction false} IndicatorsAt(labels: seq<int>, numClass: int)
    ensures forall k :: 0 <= k < |labels| ==> (Indicators(labels, numClass)[k] == 1 <==> labels[k] == numClass)
    ensures forall k :: 0 <= k < |labels| ==> (Indicators(labels, numClass)[k] == 0 <==> labels[k] != numClass)
  {
    if labels != [] {
      IndicatorsAt(labels[..|labels| - 1], numClass);
    }
  }

  function Sum(s: seq<int>): int
  {
    if s == [] then 0 else Sum(s[..|s| - 1]) + s[|s| - 1]
  }

  /** The indicators add up to the number of labels equal to the class. */
  lemma {:induction false} IndicatorsCount(labels: seq<int>, numClass: int)
    ensures Sum(Indicators(labels, numClass)) == multiset(labels)[numClass]
  {
    if labels != [] {
      var init := labels[..|labels| - 1];
      IndicatorsCount(init, numClass);
      assert labels == init + [labels[|labels| - 1]];
      assert Indicators(labels, numClass)[..|labels| - 1] == Indicators(init, numClass);
    }
  }

  /** The loop `for k in range(len(ys)): out.append(int(ys[k] == num_class))`. */
  method IndicatorLoop(ys: seq<int>, numClass: int) returns (out: seq<int>)
    ensures out == Indicators(ys, numClass)
  {
    out := [];
    for k := 0 to |ys|
      invariant out == Indicators(ys[..k], numClass)
    {
      assert ys[..k + 1][..k] == ys[..k];
      out := out + [if ys[k] == numClass then 1 else 0];
    }
    assert ys[..|ys|] == ys;
  }

  /** `one_vs_all(y_train, y_test, num_class)`: the indicators of both label lists. */
  method OneVsAll(yTrain: seq<int>, yTest: seq<int>, numClass: int) returns (ytr: seq<int>, yte: seq<int>)
    ensures ytr == Indicators(yTrain, numClass)
    ensures yte == Indicators(yTest, numClass)
  {
    ytr := IndicatorLoop(yTrain, numClass);
    yte := IndicatorLoop(yTest, numClass);
  }

  /** `max(pred)`. */
  function Max(pred: seq<real>): (m: real)
    requires |pred| > 0
  {
    if |pred| == 1 then pred[0]
    else
      var rest := Max(pred[..|pred| - 1]);
      if pred[|pred| - 1] > rest then pred[|pred| - 1] else rest
  }

  /** The maximum is one of the outputs and no output exceeds it. */
  lemma {:induction false} MaxIsMaximum(pred: seq<real>)
    requires |pred| > 0
    ensures Max(pred) in pred
    ensures forall k :: 0 <= k < |pred| ==> pred[k] <= Max(pred)
  {
    if |pred| > 1 {
      MaxIsMaximum(pred[..|pred| - 1]);
    }
  }

  /** `pred.index(max(pred))`: the predicted class of one test row. */
  function Prediction(pred: seq<real>): nat
    requires |pred| > 0
  {
    MaxIsMaximum(pred);
    FirstIndex(pred, Max(pred))
  }

  /** The prediction is the first class whose output is maximal: no class gives more, every earlier class gives less. */
  lemma PredictionIsFirstArgMax(pred: seq<real>)
    requires |pred| > 0
    ensures Prediction(pred) < |pred|
    ensures forall k :: 0 <= k < |pred| ==> pred[k] <= pred[Prediction(pred)]
    ensures forall k :: 0 <= k < Prediction(pred) ==> pred[k] < pred[Prediction(pred)]
  {
    MaxIsMaximum(pred);
  }

  /** The outputs of the first `k` class models on test row `j`. */
  function Outputs(predict: (nat, nat) -> real, j: nat, k: nat): (pred: seq<real>)
    ensures |pred| == k
  {
    if k == 0 then [] else Outputs(predict, j, k - 1) + [predict(k - 1, j)]
  }

  /** Whether the prediction for test row `j` is its label. */
  predicate Correct(predict: (nat, nat) -> real, classes: nat, yTest: seq<int>, j: nat)
    requires classes > 0 && j < |yTest|
  {
    Prediction(Outputs(predict, j, classes)) == yTest[j]
  }

  /** Whether each of the first `i` test rows is predicted correctly. */
  function Hits(predict: (nat, nat) -> real, classes: nat, yTest: seq<int>, i: nat): (hits: seq<bool>)
    requires classes > 0 && i <= |yTest|
    ensures |hits| == i
    ensures forall j :: 0 <= j < i ==> (hits[j] <==> Correct(predict, classes, yTest, j))
  {
    if i == 0 then []
    else Hits(predict, classes, yTest, i - 1) + [Correct(predict, classes, yTest, i - 1)]
  }

  /** The number of `true` entries. */
  function Count(bs: seq<bool>): nat
  {
    if bs == [] then 0 else Count(bs[..|bs| - 1]) + (if bs[|bs| - 1] then 1 else 0)
  }

  /** The count is the number of positions holding `true`, so it never exceeds the length. */
  lemma {:induction false} CountIsCardinality(bs: seq<bool>)
    ensures Count(bs) == |set j | 0 <= j < |bs| && bs[j]|
    ensures Count(bs) <= |bs|
  {
    if bs != [] {
      var init := bs[..|bs| - 1];
      CountIsCardinality(init);
      var before := set j | 0 <= j < |init| && init[j];
      var now := set j | 0 <= j < |bs| && bs[j];
      if bs[|bs| - 1] {
        assert now == before + {|init|};
      } else {
        assert now == before;
      }
    }
  }

  /** The final score counts exactly the test rows whose prediction is their label, at most `len(y_test)` of them. */
  lemma ScoreCounts(predict: (nat, nat) -> real, classes: nat, yTest: seq<int>)
    requires classes > 0
    ensures Count(Hits(predict, classes, yTest, |yTest|)) == |set j | 0 <= j < |yTest| && Hits(predict, classes, yTest, |yTest|)[j]|
    ensures Count(Hits(predict, classes, yTest, |yTest|)) <= |yTest|
  {
    CountIsCardinality(Hits(predict, classes, yTest, |yTest|));
  }

  /** `pred` for test row `j`: the outputs of the `classes` models, one per class in order. */
  method RowOutputs(predict: (nat, nat) -> real, classes: nat, j: nat) returns (pred: seq<real>)
    ensures pred == Outputs(predict, j, classes)
  {
    pred := [];
    for k := 0 to classes
      invariant pred == Outputs(predict, j, k)
    {
      pred := pred + [predict(k, j)];
    }
  }

  /**
   * The scoring loop: for each test row, the outputs of the `classes` models
   * (`a[k].predict(X_test[j:j+1])`, given here as `predict(k, j)`), the first
   * class of maximal output, and one point when it is the row's label.
   */
  method Score(predict: (nat, nat) -> real, classes: nat, yTest: seq<int>) returns (score: nat)
    requires classes > 0
    ensures score == Count(Hits(predict, classes, yTest, |yTest|))
  {
    score := 0;
    for j := 0 to |yTest|
      invariant score == Count(Hits(predict, classes, yTest, j))
    {
      var pred := RowOutputs(predict, classes, j);
      var prediction := Prediction(pred);
      ghost var hits := Hits(predict, classes, yTest, j + 1);
      assert hits[..j] == Hits(predict, classes, yTest, j);
      score := score + if prediction == yTest[j] then 1 else 0;
    }
  }
}
