/** `confusion_matrix(all_labels, all_predictions)` of `train_model.py` line
    102: a `k` by `k` count matrix whose row is the actual class and whose
    column is the predicted class, built fresh from one evaluation pass by
    tallying the (label, prediction) pairs in order. */
module Confusion {
  import opened Evaluation

  type Matrix = seq<seq<nat>>

  ghost predicate IsSquare(m: Matrix, k: nat) {
    |m| == k && forall i :: 0 <= i < k ==> |m[i]| == k
  }

  /** The all-zero `k` by `k` matrix. */
  function Zeros(k: nat): (m: Matrix)
    ensures IsSquare(m, k)
    ensures forall i, j :: 0 <= i < k && 0 <= j < k ==> m[i][j] == 0
  {
    seq(k, _ => seq(k, _ => 0))
  }

  /** One more sample of actual class `a` predicted as `p`. */
  function Tally(m: Matrix, k: nat, a: nat, p: nat): (m': Matrix)
    requires IsSquare(m, k) && a < k && p < k
    ensures IsSquare(m', k)
  {
    m[a := m[a][p := m[a][p] + 1]]
  }

  /** Every sample has a prediction, and every label and prediction is one
      of the `k` classes. */
  ghost predicate Labelled(actual: seq<nat>, predicted: seq<nat>, k: nat) {
    |actual| == |predicted| &&
    forall n :: 0 <= n < |actual| ==> actual[n] < k && predicted[n] < k
  }

  lemma LabelledPrefix(actual: seq<nat>, predicted: seq<nat>, k: nat)
    requires Labelled(actual, predicted, k) && actual != []
    ensures Labelled(actual[..|actual| - 1], predicted[..|actual| - 1], k)
  {}

  /** The confusion matrix of the pairs `(actual[n], predicted[n])`, every
      label and prediction below `k`. */
  function ConfusionMatrix(actual: seq<nat>, predicted: seq<nat>, k: nat): (m: Matrix)
    requires Labelled(actual, predicted, k)
    ensures IsSquare(m, k)
  {
    if actual == [] then Zeros(k)
    else
      var last := |actual| - 1;
      LabelledPrefix(actual, predicted, k);
      Tally(ConfusionMatrix(actual[..last], predicted[..last], k), k, actual[last], predicted[last])
  }

  /** The (label, prediction) pairs of a pass. */
  function Pairs(actual: seq<nat>, predicted: seq<nat>): seq<(nat, nat)>
    requires |actual| == |predicted|
  {
    seq(|actual|, n requires 0 <= n < |actual| => (actual[n], predicted[n]))
  }

  /** Entry (i, j) counts the samples of actual class `i` predicted as `j`. */
  lemma {:induction false} EntryCounts(actual: seq<nat>, predicted: seq<nat>, k: nat, i: nat, j: nat)
    requires Labelled(actual, predicted, k) && i < k && j < k
    ensures ConfusionMatrix(actual, predicted, k)[i][j] == multiset(Pairs(actual, predicted))[(i, j)]
  {
    if actual != [] {
      var last := |actual| - 1;
      LabelledPrefix(actual, predicted, k);
      EntryCounts(actual[..last], predicted[..last], k, i, j);
      assert Pairs(actual, predicted) ==
        Pairs(actual[..last], predicted[..last]) + [(actual[last], predicted[last])];
    }
  }

  /** A class that never occurs among the labels has an all-zero row. */
  lemma AbsentClassRow(actual: seq<nat>, predicted: seq<nat>, k: nat, i: nat)
    requires Labelled(actual, predicted, k) && i < k && i !in actual
    ensures forall j :: 0 <= j < k ==> ConfusionMatrix(actual, predicted, k)[i][j] == 0
  {
    forall j | 0 <= j < k ensures ConfusionMatrix(actual, predicted, k)[i][j] == 0 {
      EntryCounts(actual, predicted, k, i, j);
      assert (i, j) !in Pairs(actual, predicted) by {
        forall n | 0 <= n < |actual| ensures Pairs(actual, predicted)[n] != (i, j) {
          assert actual[n] in actual;
        }
      }
    }
  }

  // ---------------------------------------------------------------------
  // Sums
  // ---------------------------------------------------------------------

  function Sum(s: seq<nat>): nat
  {
    if s == [] then 0 else Sum(s[..|s| - 1]) + s[|s| - 1]
  }

  /** Adding one to an entry adds one to the sum. */
  lemma {:induction false} SumIncrement(s: seq<nat>, j: nat)
    requires j < |s|
    ensures Sum(s[j := s[j] + 1]) == Sum(s) + 1
  {
    var last := |s| - 1;
    var t := s[j := s[j] + 1];
    assert t[..last] == if j < last then s[..last][j := s[j] + 1] else s[..last];
    if j < last {
      SumIncrement(s[..last], j);
    }
  }

  lemma {:induction false} SumZeros(k: nat)
    ensures Sum(seq(k, _ => 0)) == 0
  {
    if k > 0 {
      assert seq(k, _ => 0)[..k - 1] == seq(k - 1, _ => 0);
      SumZeros(k - 1);
    }
  }

  /** Column `j`: how often each class was predicted as `j`. */
  function Column(m: Matrix, k: nat, j: nat): seq<nat>
    requires IsSquare(m, k) && j < k
  {
    seq(k, i requires 0 <= i < k => m[i][j])
  }

  /** The row sums, one per actual class. */
  function RowSums(m: Matrix): seq<nat>
  {
    seq(|m|, i requires 0 <= i < |m| => Sum(m[i]))
  }

  /** The sum of all entries. */
  function Total(m: Matrix): nat
  {
    Sum(RowSums(m))
  }

  /** The diagonal: the correctly classified samples of each class. */
  function Diagonal(m: Matrix, k: nat): seq<nat>
    requires IsSquare(m, k)
  {
    seq(k, i requires 0 <= i < k => m[i][i])
  }

  function Trace(m: Matrix, k: nat): nat
    requires IsSquare(m, k)
  {
    Sum(Diagonal(m, k))
  }

  /** How one tally moves the row sums, the column sums and the diagonal. */
  lemma TallyEffect(m: Matrix, k: nat, a: nat, p: nat)
    requires IsSquare(m, k) && a < k && p < k
    ensures RowSums(Tally(m, k, a, p)) == RowSums(m)[a := RowSums(m)[a] + 1]
    ensures Diagonal(Tally(m, k, a, p), k) == if a == p then Diagonal(m, k)[a := m[a][a] + 1] else Diagonal(m, k)
  {
    SumIncrement(m[a], p);
  }

  lemma RowTally(m: Matrix, k: nat, a: nat, p: nat, i: nat)
    requires IsSquare(m, k) && a < k && p < k && i < k
    ensures Sum(Tally(m, k, a, p)[i]) == Sum(m[i]) + if i == a then 1 else 0
  {
    if i == a {
      SumIncrement(m[a], p);
    }
  }

  lemma ColumnTally(m: Matrix, k: nat, a: nat, p: nat, j: nat)
    requires IsSquare(m, k) && a < k && p < k && j < k
    ensures Sum(Column(Tally(m, k, a, p), k, j)) == Sum(Column(m, k, j)) + if j == p then 1 else 0
  {
    if j == p {
      assert Column(Tally(m, k, a, p), k, j) == Column(m, k, j)[a := m[a][p] + 1];
      SumIncrement(Column(m, k, j), a);
    } else {
      assert Column(Tally(m, k, a, p), k, j) == Column(m, k, j);
    }
  }

  /** Row `i` sums to the number of samples whose actual class is `i`. */
  lemma {:induction false} RowSumCounts(actual: seq<nat>, predicted: seq<nat>, k: nat)
    requires Labelled(actual, predicted, k)
    ensures forall i :: 0 <= i < k ==> Sum(ConfusionMatrix(actual, predicted, k)[i]) == multiset(actual)[i]
  {
    if actual == [] {
      SumZeros(k);
      assert forall i :: 0 <= i < k ==> Zeros(k)[i] == seq(k, _ => 0);
    } else {
      var last := |actual| - 1;
      LabelledPrefix(actual, predicted, k);
      RowSumCounts(actual[..last], predicted[..last], k);
      var before := ConfusionMatrix(actual[..last], predicted[..last], k);
      RowSumsStep(before, k, actual[..last], actual[last], predicted[last]);
      assert actual == actual[..last] + [actual[last]];
    }
  }

  lemma RowSumsStep(m: Matrix, k: nat, actual: seq<nat>, a: nat, p: nat)
    requires IsSquare(m, k) && a < k && p < k
    requires forall i :: 0 <= i < k ==> Sum(m[i]) == multiset(actual)[i]
    ensures forall i :: 0 <= i < k ==> Sum(Tally(m, k, a, p)[i]) == multiset(actual + [a])[i]
  {
    assert multiset(actual + [a]) == multiset(actual) + multiset{a};
    forall i | 0 <= i < k ensures Sum(Tally(m, k, a, p)[i]) == multiset(actual + [a])[i] {
      RowTally(m, k, a, p, i);
    }
  }

  /** Column `j` sums to the number of samples predicted as `j`. */
  lemma {:induction false} ColumnSumCounts(actual: seq<nat>, predicted: seq<nat>, k: nat)
    requires Labelled(actual, predicted, k)
    ensures forall j :: 0 <= j < k ==>
      Sum(Column(ConfusionMatrix(actual, predicted, k), k, j)) == multiset(predicted)[j]
  {
    if actual == [] {
      SumZeros(k);
      assert forall j :: 0 <= j < k ==> Column(Zeros(k), k, j) == seq(k, _ => 0);
    } else {
      var last := |actual| - 1;
      LabelledPrefix(actual, predicted, k);
      ColumnSumCounts(actual[..last], predicted[..last], k);
      var before := ConfusionMatrix(actual[..last], predicted[..last], k);
      ColumnSumsStep(before, k, predicted[..last], actual[last], predicted[last]);
      assert predicted == predicted[..last] + [predicted[last]];
    }
  }

  lemma ColumnSumsStep(m: Matrix, k: nat, predicted: seq<nat>, a: nat, p: nat)
    requires IsSquare(m, k) && a < k && p < k
    requires forall j :: 0 <= j < k ==> Sum(Column(m, k, j)) == multiset(predicted)[j]
    ensures forall j :: 0 <= j < k ==> Sum(Column(Tally(m, k, a, p), k, j)) == multiset(predicted + [p])[j]
  {
    assert multiset(predicted + [p]) == multiset(predicted) + multiset{p};
    forall j | 0 <= j < k ensures Sum(Column(Tally(m, k, a, p), k, j)) == multiset(predicted + [p])[j] {
      ColumnTally(m, k, a, p, j);
    }
  }

  /** The entries sum to the number of samples of the pass. */
  lemma {:induction false} TotalCounts(actual: seq<nat>, predicted: seq<nat>, k: nat)
    requires Labelled(actual, predicted, k)
    ensures Total(ConfusionMatrix(actual, predicted, k)) == |actual|
  {
    if actual == [] {
      SumZeros(k);
      assert RowSums(Zeros(k)) == seq(k, _ => 0) by {
        forall i | 0 <= i < k ensures RowSums(Zeros(k))[i] == 0 {
          assert Zeros(k)[i] == seq(k, _ => 0);
        }
      }
    } else {
      var last := |actual| - 1;
      LabelledPrefix(actual, predicted, k);
      TotalCounts(actual[..last], predicted[..last], k);
      var before := ConfusionMatrix(actual[..last], predicted[..last], k);
      TallyEffect(before, k, actual[last], predicted[last]);
      SumIncrement(RowSums(before), actual[last]);
    }
  }

  /** The trace of the matrix equals the number of correct predictions. */
  lemma {:induction false} TraceCountsAgreements(actual: seq<nat>, predicted: seq<nat>, k: nat)
    requires Labelled(actual, predicted, k)
    ensures Trace(ConfusionMatrix(actual, predicted, k), k) == Agreements(actual, predicted)
  {
    if actual == [] {
      SumZeros(k);
      assert Diagonal(Zeros(k), k) == seq(k, _ => 0);
    } else {
      var last := |actual| - 1;
      LabelledPrefix(actual, predicted, k);
      TraceCountsAgreements(actual[..last], predicted[..last], k);
      var before := ConfusionMatrix(actual[..last], predicted[..last], k);
      TallyEffect(before, k, actual[last], predicted[last]);
      if actual[last] == predicted[last] {
        SumIncrement(Diagonal(before, k), actual[last]);
      }
    }
  }
}
