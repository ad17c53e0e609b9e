/** The evaluation pass that both scripts run once per epoch over the test
    loader (`train_model.py` lines 75-99, `original_dataset/test_orig.py`
    lines 116-135): predict the argmax class of every score row, count the
    samples and the correct predictions, collect the (label, prediction)
    pairs, and average. The network is not modelled: each batch arrives with
    its score rows and its loss already computed. Scores are integers, an
    abstract total order standing in for the network's outputs. */
module Evaluation {
  import opened Common

  /** One test batch: the labels, one row of class scores per sample, and the
      loss the criterion returned for the batch. */
  datatype Batch = Batch(labels: seq<nat>, scores: seq<seq<int>>, loss: real)

  /** A batch the network could have produced for `k` classes: one score row
      of length `k` per sample, and every label a valid class. */
  ghost predicate WellFormed(b: Batch, k: nat) {
    |b.labels| == |b.scores| &&
    (forall i :: 0 <= i < |b.scores| ==> |b.scores[i]| == k) &&
    forall l :: l in b.labels ==> l < k
  }

  /** `torch.max(row, 0)[1]`: the index of a largest score, the lowest such
      index on a tie. */
  function Argmax(row: seq<int>): (r: nat)
    requires |row| > 0
    ensures r < |row|
    ensures forall j :: 0 <= j < |row| ==> row[j] <= row[r]
    ensures forall j :: 0 <= j < r ==> row[j] < row[r]
  {
    if |row| == 1 then 0
    else
      var n := |row| - 1;
      var best := Argmax(row[..n]);
      if row[best] < row[n] then n else best
  }

  /** `torch.max(outputs.data, 1)[1]`: the predicted class of every row. */
  function Predict(rows: seq<seq<int>>): (preds: seq<nat>)
    requires forall i :: 0 <= i < |rows| ==> |rows[i]| > 0
    ensures |preds| == |rows|
    ensures forall i :: 0 <= i < |rows| ==> preds[i] < |rows[i]|
    ensures forall i :: 0 <= i < |rows| ==>
      forall j :: 0 <= j < |rows[i]| ==> rows[i][j] <= rows[i][preds[i]]
  {
    seq(|rows|, i requires 0 <= i < |rows| => Argmax(rows[i]))
  }

  lemma PredictConcat(a: seq<seq<int>>, b: seq<seq<int>>)
    requires forall i :: 0 <= i < |a| ==> |a[i]| > 0
    requires forall i :: 0 <= i < |b| ==> |b[i]| > 0
    ensures forall i :: 0 <= i < |a + b| ==> |(a + b)[i]| > 0
    ensures Predict(a + b) == Predict(a) + Predict(b)
  {
    assert forall i :: 0 <= i < |a + b| ==> (a + b)[i] == if i < |a| then a[i] else b[i - |a|];
  }

  /** `(predicted == labels).sum()`: the number of positions at which the
      prediction equals the label. */
  function Agreements(labels: seq<nat>, preds: seq<nat>): (n: nat)
    requires |labels| == |preds|
    ensures n <= |labels|
    ensures n == |labels| <==> labels == preds
  {
    if labels == [] then 0
    else
      var last := |labels| - 1;
      Agreements(labels[..last], preds[..last]) + (if labels[last] == preds[last] then 1 else 0)
  }

  /** Counting the agreements batch by batch counts them over all samples. */
  lemma {:induction false} AgreementsConcat(l1: seq<nat>, p1: seq<nat>, l2: seq<nat>, p2: seq<nat>)
    requires |l1| == |p1| && |l2| == |p2|
    ensures Agreements(l1 + l2, p1 + p2) == Agreements(l1, p1) + Agreements(l2, p2)
  {
    if l2 != [] {
      var last := |l2| - 1;
      AgreementsConcat(l1, p1, l2[..last], p2[..last]);
      assert (l1 + l2)[..|l1| + last] == l1 + l2[..last];
      assert (p1 + p2)[..|p1| + last] == p1 + p2[..last];
    } else {
      assert l1 + l2 == l1 && p1 + p2 == p1;
    }
  }

  /** `all_labels` after the pass: every batch's labels, in loader order. */
  function AllLabels(batches: seq<Batch>): seq<nat>
  {
    if batches == [] then [] else AllLabels(batches[..|batches| - 1]) + batches[|batches| - 1].labels
  }

  /** The score rows of every batch, in loader order. */
  function AllScores(batches: seq<Batch>): seq<seq<int>>
  {
    if batches == [] then [] else AllScores(batches[..|batches| - 1]) + batches[|batches| - 1].scores
  }

  /** The loss of every batch, in loader order. */
  function Losses(batches: seq<Batch>): (losses: seq<real>)
    ensures |losses| == |batches|
  {
    seq(|batches|, i requires 0 <= i < |batches| => batches[i].loss)
  }

  /** The sum of the batch losses, in loader order. */
  function SumLoss(batches: seq<Batch>): real
  {
    SumReals(Losses(batches))
  }

  /** Over well-formed batches, labels and score rows line up one to one,
      every row has `k` scores and every label is a class. */
  lemma {:induction false} AllWellFormed(batches: seq<Batch>, k: nat)
    requires forall b :: b in batches ==> WellFormed(b, k)
    ensures |AllLabels(batches)| == |AllScores(batches)|
    ensures forall i :: 0 <= i < |AllScores(batches)| ==> |AllScores(batches)[i]| == k
    ensures forall l :: l in AllLabels(batches) ==> l < k
  {
    if batches != [] {
      var n := |batches| - 1;
      assert forall b :: b in batches[..n] ==> b in batches;
      AllWellFormed(batches[..n], k);
      assert batches[n] in batches;
      var rows, more := AllScores(batches[..n]), batches[n].scores;
      assert forall i :: 0 <= i < |rows + more| ==> (rows + more)[i] == if i < |rows| then rows[i] else more[i - |rows|];
    }
  }

  /** What one evaluation pass leaves in its local variables. */
  datatype PassResult = PassResult(
    testLoss: real,
    correct: nat,
    total: nat,
    allLabels: seq<nat>,
    allPredictions: seq<nat>)

  /** The accumulators after the batches `done`: the labels and predictions
      of every sample so far, their count, their agreements and the summed
      loss. */
  ghost predicate Accumulates(done: seq<Batch>, k: nat, acc: PassResult) {
    (forall i :: 0 <= i < |AllScores(done)| ==> |AllScores(done)[i]| == k) &&
    0 < k &&
    acc.allLabels == AllLabels(done) &&
    acc.allPredictions == Predict(AllScores(done)) &&
    acc.total == |acc.allLabels| == |acc.allPredictions| &&
    acc.correct == Agreements(acc.allLabels, acc.allPredictions) &&
    acc.testLoss == SumLoss(done)
  }

  /** One more well-formed batch, with the predictions of its rows, keeps the
      accumulators in step. */
  lemma AccumulateStep(done: seq<Batch>, b: Batch, k: nat, acc: PassResult, predicted: seq<nat>)
    requires Accumulates(done, k, acc) && WellFormed(b, k)
    requires forall i :: 0 <= i < |b.scores| ==> |b.scores[i]| > 0
    requires predicted == Predict(b.scores)
    ensures Accumulates(done + [b], k, PassResult(
      acc.testLoss + b.loss,
      acc.correct + Agreements(b.labels, predicted),
      acc.total + |b.labels|,
      acc.allLabels + b.labels,
      acc.allPredictions + predicted))
  {
    PassStep(done, b, k);
    AgreementsConcat(acc.allLabels, acc.allPredictions, b.labels, predicted);
  }

  /** One more batch extends the labels, score rows and loss sum by that
      batch's, and the predictions by the predictions of its rows. */
  lemma PassStep(done: seq<Batch>, b: Batch, k: nat)
    requires 0 < k && WellFormed(b, k)
    requires forall i :: 0 <= i < |AllScores(done)| ==> |AllScores(done)[i]| == k
    ensures AllLabels(done + [b]) == AllLabels(done) + b.labels
    ensures AllScores(done + [b]) == AllScores(done) + b.scores
    ensures SumLoss(done + [b]) == SumLoss(done) + b.loss
    ensures forall i :: 0 <= i < |AllScores(done + [b])| ==> |AllScores(done + [b])[i]| == k
    ensures Predict(AllScores(done + [b])) == Predict(AllScores(done)) + Predict(b.scores)
  {
    assert (done + [b])[..|done|] == done;
    assert Losses(done + [b])[..|done|] == Losses(done);
    var rows := AllScores(done);
    assert forall i :: 0 <= i < |rows + b.scores| ==>
      (rows + b.scores)[i] == if i < |rows| then rows[i] else b.scores[i - |rows|];
    PredictConcat(rows, b.scores);
  }

  /** The loop `for images, labels in test_loader` with its accumulators
      reset at the start of the pass: after it, `total` is the number of test
      samples, `all_labels` and `all_predictions` hold one entry per sample,
      each prediction is a class whose score is largest in its row, and
      `correct` counts the agreements, so it never exceeds `total`. */
  method EvaluatePass(batches: seq<Batch>, k: nat) returns (r: PassResult)
    requires 0 < k
    requires forall b :: b in batches ==> WellFormed(b, k)
    ensures forall i :: 0 <= i < |AllScores(batches)| ==> |AllScores(batches)[i]| == k
    ensures r.allLabels == AllLabels(batches)
    ensures |r.allPredictions| == r.total == |r.allLabels|
    ensures r.allPredictions == Predict(AllScores(batches))
    ensures forall p :: p in r.allPredictions ==> p < k
    ensures r.correct == Agreements(r.allLabels, r.allPredictions) <= r.total
    ensures r.testLoss == SumLoss(batches)
  {
    r := PassResult(0.0, 0, 0, [], []);
    for n := 0 to |batches|
      invariant Accumulates(batches[..n], k, r)
    {
      var batch := batches[n];
      assert batch in batches;
      var predicted := Predict(batch.scores);
      AccumulateStep(batches[..n], batch, k, r, predicted);
      assert batches[..n + 1] == batches[..n] + [batch];
      r := PassResult(r.testLoss + batch.loss,
                      r.correct + Agreements(batch.labels, predicted),
                      r.total + |batch.labels|,
                      r.allLabels + batch.labels,
                      r.allPredictions + predicted);
    }
    assert batches[..|batches|] == batches;
  }

  /** `sum / count` in Python, which raises `ZeroDivisionError` on a zero
      count: the average loss over the batches of a loader. */
  function Mean(sum: real, count: nat): (r: Result<real>)
    ensures r.Err? <==> count == 0
    ensures r.Err? ==> r.error == ZeroDivisionError
    ensures r.Ok? ==> r.value * (count as real) == sum
  {
    if count == 0 then Err(ZeroDivisionError) else Ok(sum / (count as real))
  }

  /** `100 * correct / total`: a percentage between 0 and 100 whenever
      `correct <= total`; an empty test set raises `ZeroDivisionError`. */
  function Accuracy(correct: nat, total: nat): (r: Result<real>)
    ensures r.Err? <==> total == 0
    ensures r.Err? ==> r.error == ZeroDivisionError
    ensures r.Ok? && correct <= total ==> 0.0 <= r.value <= 100.0
    ensures r.Ok? ==> (r.value == 100.0 <==> correct == total)
  {
    if total == 0 then Err(ZeroDivisionError)
    else
      var pct := 100.0 * (correct as real) / (total as real);
      assert pct * (total as real) == 100.0 * (correct as real);
      Ok(pct)
  }
}
