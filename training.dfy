/** The epoch loop of `train_model.py` (lines 49-103; the loop of
    `original_dataset/test_orig.py` lines 92-135 is the same without the
    confusion-matrix history) and the plain size split of `train_model.py`
    lines 26-28. The network, the optimiser and the loss are not modelled:
    every training batch contributes the loss value the criterion returned,
    and every test batch arrives with its scores and loss. */
module Training {
  import opened Common
  import opened Evaluation
  import opened Confusion

  // ---------------------------------------------------------------------
  // The size split and `random_split`
  // ---------------------------------------------------------------------

  /** `random_split(dataset, [train_size, test_size])` with `train_size =
      int(ratio * len(dataset))` and `test_size = len(dataset) - train_size`:
      a random permutation of all `n` indices, cut after `train_size`. Every
      index ends up on exactly one side. */
  method RandomSplit(n: nat, num: nat, den: nat, draw: nat -> nat) returns (train: seq<nat>, test: seq<nat>)
    requires 0 < den && num <= den
    ensures |train| == SplitSizes(n, num, den).0 && |test| == SplitSizes(n, num, den).1
    ensures multiset(train + test) == multiset(Range(n))
    ensures forall i :: 0 <= i < n ==> i in train || i in test
    ensures forall x :: x in train ==> x !in test
  {
    var a := new nat[n](i => i);
    assert a[..] == Range(n);
    NoDuplicatesIffDistinct(Range(n));
    ShuffleInPlace(a, draw);
    var shuffled := a[..];
    SubMultisetNoDuplicates(shuffled, Range(n));
    var sizes := SplitSizes(n, num, den);
    var parts := SplitAt(shuffled, sizes.0);
    SplitAtDisjoint(shuffled, sizes.0);
    train, test := parts.0, parts.1;
    forall i | 0 <= i < n ensures i in train || i in test {
      assert Range(n)[i] == i;
      assert i in multiset(Range(n));
      assert i in multiset(shuffled);
    }
  }

  // ---------------------------------------------------------------------
  // What one epoch computes
  // ---------------------------------------------------------------------

  /** The training loop over `train_loader`, reduced to what is modelled of
      it: `train_loss += loss.item()` for every batch, starting from 0. */
  method TrainPass(losses: seq<real>) returns (trainLoss: real)
    ensures trainLoss == SumReals(losses)
  {
    trainLoss := 0.0;
    for i := 0 to |losses|
      invariant trainLoss == SumReals(losses[..i])
    {
      assert losses[..i + 1][..i] == losses[..i];
      trainLoss := trainLoss + losses[i];
    }
    assert losses[..|losses|] == losses;
  }

  /** `train_loss / len(train_loader)`: the mean batch loss, or
      `ZeroDivisionError` for an empty train loader. */
  function TrainLoss(losses: seq<real>): (r: Result<real>)
    ensures r.Err? <==> losses == []
    ensures r.Err? ==> r.error == ZeroDivisionError
    ensures r.Ok? ==> r.value * (|losses| as real) == SumReals(losses)
  {
    Mean(SumReals(losses), |losses|)
  }

  /** `test_loss / len(test_loader)`: the mean batch loss, or
      `ZeroDivisionError` for an empty test loader. */
  function TestLoss(batches: seq<Batch>): (r: Result<real>)
    ensures r.Err? <==> batches == []
    ensures r.Err? ==> r.error == ZeroDivisionError
    ensures r.Ok? ==> r.value * (|batches| as real) == SumLoss(batches)
  {
    Mean(SumLoss(batches), |batches|)
  }

  ghost predicate AllWellFormedFor(batches: seq<Batch>, k: nat) {
    0 < k && forall b :: b in batches ==> WellFormed(b, k)
  }

  /** The number of correct predictions of a pass. */
  function Correct(batches: seq<Batch>, k: nat): nat
    requires AllWellFormedFor(batches, k)
  {
    AllWellFormed(batches, k);
    Agreements(AllLabels(batches), Predict(AllScores(batches)))
  }

  /** `100 * correct / total` of a pass: `ZeroDivisionError` when the test
      set has no samples, otherwise a percentage that is 100 exactly when
      every prediction is right. */
  function TestAccuracy(batches: seq<Batch>, k: nat): (r: Result<real>)
    requires AllWellFormedFor(batches, k)
    ensures r.Err? <==> AllLabels(batches) == []
    ensures r.Err? ==> r.error == ZeroDivisionError
    ensures r.Ok? ==> 0.0 <= r.value <= 100.0
    ensures forall i :: 0 <= i < |AllScores(batches)| ==> |AllScores(batches)[i]| > 0
    ensures r.Ok? ==> (r.value == 100.0 <==> AllLabels(batches) == Predict(AllScores(batches)))
  {
    AllWellFormed(batches, k);
    Accuracy(Correct(batches, k), |AllLabels(batches)|)
  }

  /** Every label of a pass and every prediction is one of the `k` classes,
      one prediction per label. */
  lemma PassLabelled(batches: seq<Batch>, k: nat)
    requires AllWellFormedFor(batches, k)
    ensures forall i :: 0 <= i < |AllScores(batches)| ==> |AllScores(batches)[i]| == k
    ensures Labelled(AllLabels(batches), Predict(AllScores(batches)), k)
  {
    AllWellFormed(batches, k);
    var labels := AllLabels(batches);
    forall n | 0 <= n < |labels| ensures labels[n] < k { assert labels[n] in labels; }
  }

  /** `confusion_matrix(all_labels, all_predictions)` of a pass. */
  function EpochMatrix(batches: seq<Batch>, k: nat): (m: Matrix)
    requires AllWellFormedFor(batches, k)
    ensures IsSquare(m, k)
  {
    PassLabelled(batches, k);
    ConfusionMatrix(AllLabels(batches), Predict(AllScores(batches)), k)
  }

  /** An epoch runs to its end when neither average divides by zero. */
  ghost predicate EpochSucceeds(losses: seq<real>, batches: seq<Batch>, k: nat)
    requires AllWellFormedFor(batches, k)
  {
    TrainLoss(losses).Ok? && TestLoss(batches).Ok? && TestAccuracy(batches, k).Ok?
  }

  /** An epoch fails exactly when the train loader or the test loader is
      empty or the test set has no samples; when it succeeds, the accuracy is
      a percentage and the epoch's confusion matrix agrees with the counters:
      its entries sum to `total`, and its trace is `correct`. */
  lemma EpochFacts(losses: seq<real>, batches: seq<Batch>, k: nat)
    requires AllWellFormedFor(batches, k)
    ensures EpochSucceeds(losses, batches, k) <==> |losses| > 0 && |batches| > 0 && |AllLabels(batches)| > 0
    ensures Total(EpochMatrix(batches, k)) == |AllLabels(batches)|
    ensures Trace(EpochMatrix(batches, k), k) == Correct(batches, k)
    ensures TestAccuracy(batches, k) == Accuracy(Trace(EpochMatrix(batches, k), k), Total(EpochMatrix(batches, k)))
    ensures TestAccuracy(batches, k).Ok? ==> 0.0 <= TestAccuracy(batches, k).value <= 100.0
  {
    PassLabelled(batches, k);
    var labels, preds := AllLabels(batches), Predict(AllScores(batches));
    TotalCounts(labels, preds, k);
    TraceCountsAgreements(labels, preds, k);
  }

  // ---------------------------------------------------------------------
  // The state the loop updates
  // ---------------------------------------------------------------------

  /** The metric arrays `train_loss_data`, `test_loss_data` and
      `test_accuracy_data` (each `np.zeros(num_epochs)`) and the list
      `confusion_matrices`, for a network with `numClasses` outputs. */
  class TrainingRun {
    const numEpochs: nat
    const numClasses: nat
    const trainLossData: array<real>
    const testLossData: array<real>
    const testAccuracyData: array<real>
    var confusionMatrices: seq<Matrix>

    ghost predicate Valid()
    {
      0 < numClasses &&
      trainLossData.Length == numEpochs &&
      testLossData.Length == numEpochs &&
      testAccuracyData.Length == numEpochs &&
      trainLossData != testLossData &&
      trainLossData != testAccuracyData &&
      testLossData != testAccuracyData
    }

    constructor (numEpochs: nat, numClasses: nat)
      requires 0 < numClasses
      ensures Valid()
      ensures this.numEpochs == numEpochs && this.numClasses == numClasses
      ensures fresh(trainLossData) && fresh(testLossData) && fresh(testAccuracyData)
      ensures forall e :: 0 <= e < numEpochs ==>
        trainLossData[e] == 0.0 && testLossData[e] == 0.0 && testAccuracyData[e] == 0.0
      ensures confusionMatrices == []
    {
      this.numEpochs := numEpochs;
      this.numClasses := numClasses;
      trainLossData := new real[numEpochs](_ => 0.0);
      testLossData := new real[numEpochs](_ => 0.0);
      testAccuracyData := new real[numEpochs](_ => 0.0);
      confusionMatrices := [];
    }

    /** One iteration of `for epoch in range(num_epochs)`: the training pass
        (only its loss sum is modelled), then the evaluation pass. Slot
        `epoch` of each metric array is written in the source's order, a
        division by zero stops the epoch where Python would raise, and a
        finished epoch appends its confusion matrix. No other slot changes. */
    method RunEpoch(epoch: nat, trainLosses: seq<real>, testBatches: seq<Batch>) returns (outcome: Outcome)
      requires Valid() && epoch < numEpochs
      requires AllWellFormedFor(testBatches, numClasses)
      modifies trainLossData, testLossData, testAccuracyData, this`confusionMatrices
      ensures Valid()
      ensures outcome.Pass? <==> EpochSucceeds(trainLosses, testBatches, numClasses)
      ensures outcome.Fail? ==> outcome.error == ZeroDivisionError
      ensures forall e :: 0 <= e < numEpochs && e != epoch ==>
        trainLossData[e] == old(trainLossData[e]) &&
        testLossData[e] == old(testLossData[e]) &&
        testAccuracyData[e] == old(testAccuracyData[e])
      ensures trainLossData[epoch] ==
        if TrainLoss(trainLosses).Ok? then TrainLoss(trainLosses).value else old(trainLossData[epoch])
      ensures testLossData[epoch] ==
        if TrainLoss(trainLosses).Ok? && TestLoss(testBatches).Ok? then TestLoss(testBatches).value
        else old(testLossData[epoch])
      ensures testAccuracyData[epoch] ==
        if outcome.Pass? then TestAccuracy(testBatches, numClasses).value else old(testAccuracyData[epoch])
      ensures confusionMatrices ==
        if outcome.Pass? then old(confusionMatrices) + [EpochMatrix(testBatches, numClasses)]
        else old(confusionMatrices)
    {
      var trainLoss := TrainPass(trainLosses);
      var trainMean := Mean(trainLoss, |trainLosses|);
      if trainMean.Err? {
        return Fail(trainMean.error);
      }
      trainLossData[epoch] := trainMean.value;

      var pass := EvaluatePass(testBatches, numClasses);
      assert pass.correct == Correct(testBatches, numClasses);
      var testMean := Mean(pass.testLoss, |testBatches|);
      if testMean.Err? {
        return Fail(testMean.error);
      }
      testLossData[epoch] := testMean.value;
      var accuracy := Accuracy(pass.correct, pass.total);
      if accuracy.Err? {
        return Fail(accuracy.error);
      }
      testAccuracyData[epoch] := accuracy.value;
      PassLabelled(testBatches, numClasses);
      var cm := ConfusionMatrix(pass.allLabels, pass.allPredictions, numClasses);
      assert cm == EpochMatrix(testBatches, numClasses);
      confusionMatrices := confusionMatrices + [cm];
      outcome := Pass;
    }

    /** The whole loop `for epoch in range(num_epochs)`. It stops at the
        first epoch that raises, and reports how many epochs completed:
        every completed epoch has its three metric slots and its confusion
        matrix, appended in epoch order; slots after the failing epoch keep
        their values. */
    method Run(trainLosses: seq<seq<real>>, testBatches: seq<seq<Batch>>) returns (outcome: Outcome, completed: nat)
      requires Valid()
      requires |trainLosses| == numEpochs && |testBatches| == numEpochs
      requires forall e :: 0 <= e < numEpochs ==> AllWellFormedFor(testBatches[e], numClasses)
      modifies trainLossData, testLossData, testAccuracyData, this`confusionMatrices
      ensures Valid()
      ensures completed <= numEpochs
      ensures outcome.Pass? <==> completed == numEpochs
      ensures outcome.Fail? ==>
        outcome.error == ZeroDivisionError &&
        !EpochSucceeds(trainLosses[completed], testBatches[completed], numClasses)
      ensures |confusionMatrices| == |old(confusionMatrices)| + completed
      ensures forall e :: 0 <= e < completed ==>
        EpochSucceeds(trainLosses[e], testBatches[e], numClasses) &&
        trainLossData[e] == TrainLoss(trainLosses[e]).value &&
        testLossData[e] == TestLoss(testBatches[e]).value &&
        testAccuracyData[e] == TestAccuracy(testBatches[e], numClasses).value &&
        confusionMatrices[|old(confusionMatrices)| + e] == EpochMatrix(testBatches[e], numClasses)
      ensures confusionMatrices[..|old(confusionMatrices)|] == old(confusionMatrices)
      ensures outcome.Fail? ==>
        trainLossData[completed] ==
          (if TrainLoss(trainLosses[completed]).Ok? then TrainLoss(trainLosses[completed]).value
           else old(trainLossData[completed])) &&
        testLossData[completed] ==
          (if TrainLoss(trainLosses[completed]).Ok? && TestLoss(testBatches[completed]).Ok?
           then TestLoss(testBatches[completed]).value else old(testLossData[completed])) &&
        testAccuracyData[completed] == old(testAccuracyData[completed])
      ensures forall e :: completed < e < numEpochs ==>
        trainLossData[e] == old(trainLossData[e]) &&
        testLossData[e] == old(testLossData[e]) &&
        testAccuracyData[e] == old(testAccuracyData[e])
      ensures outcome.Pass? && 0 < numEpochs ==>
        confusionMatrices[|confusionMatrices| - 1] == EpochMatrix(testBatches[numEpochs - 1], numClasses)
    {
      ghost var before := confusionMatrices;
      var epoch := 0;
      outcome := Pass;
      while epoch < numEpochs
        invariant Valid()
        invariant epoch <= numEpochs
        invariant |confusionMatrices| == |before| + epoch
        invariant confusionMatrices[..|before|] == before
        invariant forall e :: 0 <= e < epoch ==>
          EpochSucceeds(trainLosses[e], testBatches[e], numClasses) &&
          trainLossData[e] == TrainLoss(trainLosses[e]).value &&
          testLossData[e] == TestLoss(testBatches[e]).value &&
          testAccuracyData[e] == TestAccuracy(testBatches[e], numClasses).value &&
          confusionMatrices[|before| + e] == EpochMatrix(testBatches[e], numClasses)
        invariant forall e :: epoch <= e < numEpochs ==>
          trainLossData[e] == old(trainLossData[e]) &&
          testLossData[e] == old(testLossData[e]) &&
          testAccuracyData[e] == old(testAccuracyData[e])
      {
        var result := RunEpoch(epoch, trainLosses[epoch], testBatches[epoch]);
        if result.Fail? {
          return result, epoch;
        }
        epoch := epoch + 1;
      }
      completed := epoch;
    }
  }
}
