# Road-sign classifier: index bookkeeping of the training scripts

The repository trains a small CNN on a road-sign image dataset with two
scripts. `original_dataset/test_orig.py` first builds a class-balanced
train/test split:

- it groups the dataset's indices by label;
- it takes the size of the smallest class, `min_class_count`;
- it draws that many indices from every class without replacement;
- it shuffles the pooled indices in place;
- it cuts them at `int(0.8 * len)` into a train prefix and a test suffix;
- it prints each side's class distribution.

`train_model.py` splits the whole dataset at random instead. Both scripts
then run the same epoch loop:

- a training pass sums the batch losses;
- an evaluation pass predicts the highest-scoring class of each sample and
  counts `total` and `correct`;
- the average losses and the accuracy `100 * correct / total` go into slot
  `epoch` of three arrays of length `num_epochs`.

In `train_model.py` the evaluation pass also collects every (label,
prediction) pair. Its confusion matrix is appended to `confusion_matrices`.

This project models that bookkeeping and proves what it guarantees. The
network is not modelled: every training batch contributes the loss value
the criterion returned, and every test batch arrives with its labels, its
rows of class scores and its loss.

The modules follow the structure of the scripts:

- `Common` (`common.dfy`): the two exceptions the code can raise, sequences
  without duplicates, numpy's in-place Fisher-Yates shuffle, the ratio split
  sizes, and the prefix/suffix cut.
- `BalancedSplit` (`balanced_split.dfy`): the grouping loop, `min()` over
  the groups, sampling without replacement, the whole balanced split, and
  `np.bincount`.
- `Evaluation` (`evaluation.dfy`): argmax prediction, agreement counting,
  the evaluation pass, and the two averages.
- `Confusion` (`confusion.dfy`): the confusion matrix as a fold of tallies,
  with its row sums, column sums, total and trace.
- `Training` (`training.dfy`): `random_split`, the training pass, and the
  epoch loop. The loop is a class whose metric arrays are Dafny arrays
  written by index and whose `confusion_matrices` list is a sequence field.

Randomness is injected as total functions. The shuffle calls
`draw(i) % (i + 1)` at step `i`. The draws from group number `k` use
`sampleDraw(k)`. `np.random.choice(..., replace=False)` is modelled as
shuffling a copy of the group and taking a prefix, which yields the same
kind of result: `size` distinct items of the group.

## Model

| member | source | states |
|---|---|---|
| BalancedSplit.GroupByLabel | original_dataset/test_orig.py:37-39 | The loop's dictionary is `Groups(targets)`, and its key order (first occurrence of each label) is `Classes(targets)`. |
| BalancedSplit.GroupStep | original_dataset/test_orig.py:38-39 | Appending one labelled index extends only that label's group, and adds a new key exactly when the label is unseen. |
| BalancedSplit.IndicesOfMembers | original_dataset/test_orig.py:37-39 | An index is in the group of `c` if and only if it is a valid index whose label is `c`. |
| BalancedSplit.IndicesOfIncreasing | original_dataset/test_orig.py:38-39 | Each group lists its indices in strictly increasing order. |
| BalancedSplit.IndicesOfLength | original_dataset/test_orig.py:37-39 | A group's length equals the number of occurrences of its label. |
| BalancedSplit.ClassesMembers | original_dataset/test_orig.py:37-39 | The dictionary has a key exactly for the labels that occur, each listed once. |
| BalancedSplit.GroupsPartition | original_dataset/test_orig.py:37-39 | Every index lies in the group of its own label, every group member has that group's label, and no group is empty. |
| BalancedSplit.MinGroupSize | original_dataset/test_orig.py:42 | `min()` raises `ValueError` exactly when there are no groups; otherwise the result is at most every group's size and equal to some group's size. |
| BalancedSplit.MinClassCount | original_dataset/test_orig.py:42 | `min_class_count` raises only `ValueError`, and is otherwise the number of occurrences of the rarest label: at most every label's count and equal to one of them. |
| BalancedSplit.MinClassCountBounds | original_dataset/test_orig.py:42 | Only an empty dataset makes `min()` raise; otherwise `1 <= min_class_count <= len(targets)`. |
| BalancedSplit.ClassCountPermutation | original_dataset/test_orig.py:50 | Reordering the selected indices (as the shuffle does) changes no class's count. |
| BalancedSplit.ClassCountConcat | original_dataset/test_orig.py:47 | Class counts of a concatenation add up. |
| BalancedSplit.DrawWithoutReplacement | original_dataset/test_orig.py:47 | `replace=False` yields exactly `size` items, a sub-multiset of the group. |
| BalancedSplit.DrawnFromGroup | original_dataset/test_orig.py:47 | Items drawn from the group of `c` are distinct, valid indices, each labelled `c`. |
| BalancedSplit.SampleBalanced | original_dataset/test_orig.py:45-47 | `balanced_indices` has `(number of classes) * min_class_count` distinct, valid indices, and exactly `min_class_count` of each occurring class. |
| BalancedSplit.SampleStep | original_dataset/test_orig.py:46-47 | Extending by the draw from the next group keeps the sampling invariant. |
| BalancedSplit.BalanceAndSplit | original_dataset/test_orig.py:37-56 | An empty dataset raises `ValueError`. Otherwise the split: has train size `floor(ratio * pool)`; has parts that together hold the pool with no duplicates and no overlap; and gives each class train count plus test count `== min_class_count`. |
| BalancedSplit.Bincount | original_dataset/test_orig.py:65-66 | Bin `c` counts the occurrences of `c`, every label has a bin, and the last bin is non-empty, so there are `max + 1` bins. |
| BalancedSplit.Labels | original_dataset/test_orig.py:63-64 | One label per selected index, the label of that dataset item, so every label is one of the dataset's. |
| BalancedSplit.DistributionsAddUp | original_dataset/test_orig.py:63-66 | The two printed distributions add up, class by class, to `min_class_count` (zero for absent classes). |
| BalancedSplit.SidesNotBalanced | original_dataset/test_orig.py:54-66 | For any two-item dataset with two different labels, the split with index 0 in train and index 1 in test meets everything a balanced split promises for the ratio 4/5. Yet the first class is only in train and the second only in test: the balance holds for the pool, not for each side. |
| Common.NoDuplicatesIffDistinct | original_dataset/test_orig.py:47 | "No element occurs twice" is the same as "different positions hold different elements". |
| Common.NoDuplicatesConcat | original_dataset/test_orig.py:55-56 | A concatenation has no duplicates if and only if both parts have none and they share no element. |
| Common.ShuffleInPlace | original_dataset/test_orig.py:50 | `np.random.shuffle` permutes the array in place: the multiset of elements is unchanged. |
| Common.SplitSizes | train_model.py:26-27 | `train_size + test_size == n`, and `train_size` is the floor of `ratio * n`. |
| Common.SplitAt | original_dataset/test_orig.py:55-56 | `train_indices ++ test_indices == balanced_indices`, and `len(train_indices) == train_size`. |
| Common.SplitAtDisjoint | original_dataset/test_orig.py:55-56 | Cutting a sequence without duplicates gives disjoint parts without duplicates. |
| Training.RandomSplit | train_model.py:26-28 | `random_split` yields sides of the computed sizes that together are a permutation of all indices; every index is on exactly one side. |
| Evaluation.Argmax | train_model.py:91 | The chosen index is valid, its score is at least every score in the row, and every earlier index scores strictly less. |
| Evaluation.Predict | train_model.py:91 | One prediction per row, each a valid class whose score is maximal in its row. |
| Evaluation.PredictConcat | train_model.py:95-96 | Predicting batch by batch gives the predictions over all rows. |
| Evaluation.Agreements | train_model.py:93 | `correct <= total`, with equality exactly when every prediction equals its label. |
| Evaluation.AgreementsConcat | train_model.py:93 | Counting agreements batch by batch counts them over all samples. |
| Evaluation.AllWellFormed | train_model.py:95-96 | Over well-formed batches, labels and score rows line up one to one, and every label is a class. |
| Evaluation.AccumulateStep | train_model.py:89-96 | One more batch keeps the accumulators equal to their values over all batches so far. |
| Evaluation.PassStep | train_model.py:89-96 | One more batch extends the labels, rows and loss sum by its own, and the predictions by its predictions. |
| Evaluation.EvaluatePass | train_model.py:75-96 | The accumulators restart each pass. Afterwards: `all_labels` is every label in loader order; `all_predictions` is the argmax of every row; both have length `total`; predictions are classes; `correct` counts agreements and is `<= total`; `test_loss` is the loss sum. |
| Evaluation.Mean | train_model.py:98 | Division by the number of batches raises `ZeroDivisionError` exactly when there are none; otherwise `mean * count == sum`. |
| Evaluation.Accuracy | train_model.py:99 | `100 * correct / total` raises exactly when `total == 0`; otherwise it lies in [0, 100] and is 100 exactly when every prediction is right. |
| Confusion.Zeros | train_model.py:102 | The empty tally is a `k` by `k` matrix of zeros. |
| Confusion.ConfusionMatrix | train_model.py:102 | The matrix is `k` by `k`. |
| Confusion.EntryCounts | train_model.py:102 | Entry `(i, j)` counts the samples of actual class `i` predicted as `j`. |
| Confusion.AbsentClassRow | train_model.py:102 | A class absent from the labels has an all-zero row. |
| Confusion.RowSumCounts | train_model.py:102 | Row `i` sums to the number of occurrences of `i` in `all_labels`. |
| Confusion.ColumnSumCounts | train_model.py:102 | Column `j` sums to the number of occurrences of `j` in `all_predictions`. |
| Confusion.TotalCounts | train_model.py:102 | The entries sum to the number of samples, `total`. |
| Confusion.TraceCountsAgreements | train_model.py:93-102 | The trace equals the number of correct predictions. |
| Confusion.SumIncrement | train_model.py:102 | One more tally adds one to the sum of the row or column it lands in. |
| Training.TrainPass | train_model.py:59-70 | `train_loss` restarts at 0 and ends as the sum of the batch losses. |
| Training.TrainLoss | train_model.py:72 | `train_loss / len(train_loader)` raises `ZeroDivisionError` exactly for an empty train loader; otherwise the mean times the number of batches is the loss sum. |
| Training.TestLoss | train_model.py:98 | `test_loss / len(test_loader)` raises `ZeroDivisionError` exactly for an empty test loader; otherwise the mean times the number of batches is the loss sum. |
| Training.TestAccuracy | train_model.py:99 | The pass's accuracy raises exactly when the test set has no samples; otherwise it lies in [0, 100] and is 100 exactly when the predictions equal the labels. |
| Training.PassLabelled | train_model.py:95-102 | `all_labels` and `all_predictions` have equal length and hold only classes of the network, as the confusion matrix needs. |
| Training.EpochMatrix | train_model.py:102 | The epoch's confusion matrix is `num_classes` by `num_classes`. |
| Training.EpochFacts | train_model.py:72-102 | An epoch completes exactly when both loaders and the test set are non-empty. Its matrix totals `total`, its trace is `correct`, and the accuracy equals trace over total and lies in [0, 100]. |
| Training.TrainingRun.constructor | train_model.py:49-54 | Three fresh zero arrays of length `num_epochs` and an empty history. |
| Training.TrainingRun.RunEpoch | train_model.py:56-103 | Slot `epoch` of each array is written in source order up to the first division by zero, and no other slot changes. The epoch's matrix is appended exactly when the epoch completes. |
| Training.TrainingRun.Run | train_model.py:56-103 | The loop stops at the first epoch that raises. Every completed epoch has its three metrics and its matrix, in epoch order. On a raise, the failing epoch's slots hold what it wrote before the raise, and later slots keep their values. A full run appends `num_epochs` matrices, the last for the final epoch. |

## Left out

- The network, the optimiser, `backward`/`step` and the criterion: each batch's loss is an input, and scores are integers standing in for the network's totally ordered outputs. NaN scores and float loss arithmetic are not modelled (sums and means are exact reals).
- Image loading and the transforms (`RoadSignDataset`, `transforms.Compose`): the dataset is its label sequence `targets`. `RoadSignDataset.showClassStats` is not part of this model.
- The float split ratio: `int(0.8 * n)` is modelled as the exact floor of `4n / 5`, or of `num * n / den` in general. The float `0.8` is slightly above 4/5, so the float product never rounds below an integer the exact product reaches. The two can differ only when the float error pushes a product past the next integer, which needs lengths far beyond any dataset.
- The random generators: `np.random.choice`, `np.random.shuffle`, `random_split` and the draws are injected functions, not numpy's or torch's distributions. `choice(replace=False)` is modelled as shuffling the group and taking a prefix. The contracts hold for every draw.
- `BalancedSplit.DrawWithoutReplacement`: states only what `replace=False` promises (size and membership), not which subset numpy picks.
- DataLoader batching and its `shuffle=True` for the train loader: batches are given as inputs to each epoch, already cut and ordered.
- sklearn's `confusion_matrix` sizes the matrix from the labels and predictions it sees. The model instead uses the network's number of classes `k` and requires every label to be below it. The two agree whenever every class occurs in that pass.
- `torch.max` on a tie: the model picks the lowest index, which the scripts do not rely on.
- The loop of `original_dataset/test_orig.py` (lines 98-135) is the same as `train_model.py`'s without `all_labels`, `all_predictions` and the confusion history. It is modelled by `Training.TrainingRun` alone; that script has no `confusionMatrices` field.
- Device selection, `torchsummary`, timing, printing, `torch.save` and all plotting: I/O with no effect on the modelled state.
- `Training.TrainingRun.Run`: a Python exception ends the whole script. The model instead returns `Fail` with the number of completed epochs, and its contract states the state as it was at the raise.

## Where the code was followed

- The balanced split's `train_size` is modelled from the ratio, as the code computes it, rather than as a free parameter.
- The sampling loop visits the groups in the dictionary's insertion order. That is the order in which labels first occur in `targets`, not sorted label order.
