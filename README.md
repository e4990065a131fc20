# Adaline one-vs-all classifier, modelled in Dafny

The repository trains one Adaline unit (a linear, gradient-descent-updated
weighted sum) per class of a labelled dataset. A class's unit learns a
target of +1 for the class's own rows and -1 for all other rows
("one-vs-all"). It then classifies every sample by the unit with the
highest score and reports the percentage of correct predictions. The whole
program is the class `Adaline` in `Adaline.js`.

The model keeps the program's imperative shape:

- `OneVsAll.Adaline` is a class. Its constant fields are the dataset and
  the three hyperparameters. Its mutable fields are the class list and the
  classifier registry.
- `OneVsAll.Classifier` is a class: a label plus a weight `array<real>`.
  Training updates that array in place.
- The methods `ExtractClasses`, `Predict`, `UpdateWeights`,
  `TrainOneVsAll`, `Train` and `Test` are loops over that state.
- Each method is proved against a specification function:
  - `Data.Dedup`: the class list;
  - `LinearUnit.Dot`: the score;
  - `LinearUnit.Updated`: the update rule;
  - `Training.EpochPrefix` and `Training.Fit`: an epoch and a whole training run;
  - `Evaluation.Best` and `Evaluation.CountCorrect`: the argmax and the counter.
- Lemmas then prove the program's promises about those functions.

Arithmetic is exact (`real`). A data row is `Data.Row(features, classLabel)`:
its feature values, then its label, which is the last element of the
JavaScript row. The registry is a JavaScript object used as an
insertion-ordered table. It is modelled in `Registry` as a sequence of
(key, value) entries, and `Registry.Put` models `obj[key] = value`.

Inputs and parameters:

- The program does not check its input (an empty dataset, rows with
  different feature counts), and neither does the model: the methods that
  need a non-empty dataset or uniform rows require them.
- The hyperparameters are fields with fixed values set by the constructor
  (Adaline.js:4-6). The model takes them as constructor parameters.
- The randomly drawn initial weights become parameters: one vector per
  class.

## Model

| member | source | states |
|---|---|---|
| `OneVsAll.Adaline.constructor` | Adaline.js:2-9 | stores the dataset and the hyperparameters, sets the class list to the extracted classes, and leaves the registry empty; the object invariant holds |
| `Data.Dedup` | Adaline.js:12-18 | defined as Set insertion read back with `Array.from`: a label already present is skipped, a new one goes to the end |
| `OneVsAll.Adaline.ExtractClasses` | Adaline.js:12-18 | the result is the Set-insertion deduplication of the row labels: no label twice, exactly the labels that occur, in order of first occurrence |
| `Data.DedupDistinct` | Adaline.js:12-18 | the extracted class list contains no label twice |
| `Data.DedupElements` | Adaline.js:12-18 | a label is in the class list exactly when some row carries it |
| `Data.DedupFirstOccurrenceOrder` | Adaline.js:12-18 | classes appear in increasing order of the row index where each first occurs |
| `Data.DedupLength` | Adaline.js:12-18 | there are never more classes than rows |
| `Data.DedupSingleLabel` | Adaline.js:12-18 | a non-empty dataset whose rows all carry one label yields exactly that one class |
| `OneVsAll.Classifier.constructor` | Adaline.js:47-50 | a new classifier carries the given label and a fresh weight array holding the initial weights |
| `LinearUnit.Dot` | Adaline.js:27-33 | defined as the running sum of `sample[i] * weights[i]` over the sample's indices, in index order; only as many weights as the sample has values take part |
| `OneVsAll.Adaline.Predict` | Adaline.js:27-33 | the accumulator loop returns the sum over the sample's indices of `sample[i] * weights[i]`, with weights allowed to be longer than the sample |
| `LinearUnit.DotZeroWeights` | Adaline.js:27-33 | an all-zero weight vector scores every sample 0 |
| `LinearUnit.DotScaleWeights` | Adaline.js:27-33 | scaling the weights by k scales the score by k |
| `LinearUnit.DotScaleSample` | Adaline.js:27-33 | scaling the sample by k scales the score by k |
| `LinearUnit.DotScaleBoth` | Adaline.js:27-33 | scaling both by k scales the score by k squared |
| `LinearUnit.Updated` | Adaline.js:36-40 | the update rule keeps the weight count |
| `OneVsAll.Adaline.UpdateWeights` | Adaline.js:36-40 | changes only the classifier's weight array; every weight becomes `old + learningRate * error * sample[i]`; with error 0 the weights are unchanged |
| `LinearUnit.UpdatedZeroError` | Adaline.js:36-40 | an update with error 0 leaves the weights as they were |
| `LinearUnit.DotAdd` | Adaline.js:27-33 | the score is additive in the weights: scoring with `v + x` gives the score with `v` plus the score with `x` |
| `LinearUnit.DotAfterUpdate` | Adaline.js:36-40 | the update on a sample moves that sample's score by exactly `learningRate * error * (sample · sample)` |
| `LinearUnit.ErrorAfterUpdate` | Adaline.js:58-62 | with `error = target - prediction`, after the update on that sample its error is the old error minus `learningRate * error * (sample · sample)`, that is the old error times `1 - learningRate * (sample · sample)` |
| `Training.Abs` | Adaline.js:61 | the value added to `errorSum` is non-negative and is the error or its negation |
| `Training.Target` | Adaline.js:57 | the target is +1 exactly when the row's label equals the class label, and -1 otherwise |
| `Training.Step` | Adaline.js:56-62 | one sample's step (score with the current weights, add the absolute error, update) keeps the weight count |
| `OneVsAll.Adaline.LearnSample` | Adaline.js:56-62 | the body of the sample loop (score, error, `errorSum += abs(error)`, update) changes only the classifier's weights and takes the state exactly one `Step` forward |
| `OneVsAll.Adaline.RunEpoch` | Adaline.js:53-63 | the sample loop, started with `errorSum = 0`, leaves the weights and the error sum of one full epoch over the dataset in row order |
| `Training.EpochPrefix` | Adaline.js:53-63 | the epoch's weights keep their length while each sample is scored with the weights the previous sample's update left |
| `Training.Epoch` | Adaline.js:53-63 | defined as the state after every row of the dataset, in row order, from `errorSum = 0` and the given weights |
| `Training.AfterEpochs` | Adaline.js:52-63 | defined as the weights after k full epochs with no early exit, each epoch starting from the weights the previous one left; the weight count is kept |
| `Training.ConvergesAt` | Adaline.js:65 | defined as the test `errorSum / dataset.length < errorTolerance` applied to epoch k of the no-exit run |
| `Training.TrainFrom` | Adaline.js:52-69 | defined as the epoch loop from epoch e: stop without convergence at `maxEpochs`, stop with convergence after an epoch that passes the test, otherwise go on with that epoch's weights |
| `Training.Fit` | Adaline.js:43-72 | defined as the epoch loop of `trainOneVsAll` from epoch 0 and the initial weights |
| `Training.ErrorSumNonNegative` | Adaline.js:53-61 | the accumulated absolute error of an epoch is never negative |
| `Training.TrainStopsAtFirstConvergence` | Adaline.js:52-71 | at most `maxEpochs` epochs run; the run stops right after the first epoch whose `errorSum / dataset.length` is below the tolerance; an unconverged run uses all `maxEpochs`; the returned weights are those after that many epochs and keep their length |
| `Training.TrainFromCharacterized` | Adaline.js:52-69 | the epoch loop resumed at epoch e, after e epochs without convergence, ends as the previous row describes |
| `Training.TrainLastEpochNotConverged` | Adaline.js:65-69 | a run that ends at the cap without converging did not pass the test on its last epoch |
| `Training.NonPositiveToleranceNeverConverges` | Adaline.js:65-68 | with a tolerance of 0 or less the convergence test never fires and all `maxEpochs` epochs run |
| `OneVsAll.Adaline.TrainOneVsAll` | Adaline.js:43-72 | the epoch and sample loops return a fresh classifier with the given label and `numFeatures` weights; its weights, its epoch count and its convergence flag are those of the training function |
| `Registry.Lookup` | Adaline.js:94 | a key read finds a value exactly when the key is present, and the value is stored under that key |
| `Registry.Put` | Adaline.js:77 | defined as property assignment: an existing key's entry takes the new value in place, a new key is appended |
| `Registry.PutShape` | Adaline.js:77 | assigning a key keeps the keys distinct; a new key is appended; an existing key keeps its position and takes the new value, and every other entry stays as it was |
| `Registry.LookupAt` | Adaline.js:94 | with distinct keys, reading an entry's key returns that entry's value |
| `Registry.PutReadsBack` | Adaline.js:77 | after `reg[k] = v`, reading k gives v |
| `Registry.PutKeepsOthers` | Adaline.js:77 | after `reg[k] = v`, every key other than k reads as before |
| `Registry.PutNext` | Adaline.js:76-78 | assigning the classes one by one puts class j at position j, whether the registry was empty or already held every class |
| `OneVsAll.Adaline.Train` | Adaline.js:75-79 | afterwards the registry's keys are exactly the classes in class order; entry j's classifier carries label `classes[j]` and holds freshly trained weights equal to the training function's result for that class (also when trained a second time); the object invariant holds |
| `Evaluation.Best` | Adaline.js:89-101 | the running best is one of the units seen so far |
| `Evaluation.BestIsFirstMaximum` | Adaline.js:89-101 | the chosen unit scores strictly more than every earlier unit and at least as much as every later one; nothing is chosen only for an empty registry |
| `Evaluation.FirstMaximumIsBest` | Adaline.js:89-101 | conversely, a unit strictly above all earlier units and weakly above all later ones is the one chosen |
| `Evaluation.TieGoesToEarlier` | Adaline.js:97-100 | of two units with equal scores, the later one is never chosen: the earlier class wins the tie |
| `Evaluation.Predicted` | Adaline.js:89-103 | the predicted class is the label of the first strictly best unit; there is none exactly when the registry is empty, and otherwise it is one of the registry's keys |
| `OneVsAll.Adaline.Classify` | Adaline.js:89-101 | the loop over the registry keys, reading each classifier through its key, returns the label that the first-strict-maximum rule picks for the sample |
| `Evaluation.CountCorrect` | Adaline.js:83-106 | defined as the number of the first n samples whose predicted class equals their label |
| `Evaluation.Accuracy` | Adaline.js:108 | defined as `(correct / dataset.length) * 100` |
| `Evaluation.CountCorrectBounded` | Adaline.js:83-106 | `correct` never exceeds the number of samples seen |
| `Evaluation.AccuracyInRange` | Adaline.js:108 | with `correct <= total` and a non-empty dataset, the accuracy lies in [0, 100] |
| `Evaluation.SingleClassAllCorrect` | Adaline.js:85-106 | with a single unit whose label is every row's label, every sample is counted correct |
| `Data.SingleClassAllLabels` | Adaline.js:12-18 | a single extracted class means every row carries that class's label |
| `Evaluation.SingleClassFullAccuracy` | Adaline.js:82-108 | a dataset with one class and a registry holding exactly that class: every sample is counted correct and the accuracy is exactly 100 |
| `Evaluation.AllCorrectIsFullAccuracy` | Adaline.js:108 | `correct == dataset.length` gives an accuracy of exactly 100 |
| `OneVsAll.Adaline.Test` | Adaline.js:82-110 | `correct` is the number of samples whose predicted label equals their true label, and it is at most `dataset.length`; accuracy is `correct / length * 100`, within [0, 100]; with a single class every prediction is right and accuracy is 100 |

## Left out

- Loading `./iris.json` (Adaline.js:3) is I/O. The dataset is a constructor parameter.
- `initializeWeights` (Adaline.js:21-24) draws random weights. The initial weights are parameters instead: `TrainOneVsAll` takes one vector of length `numFeatures`, and `Train` takes one such vector per class.
- `console.log` of the convergence notice and of the accuracy, and `toFixed(2)` (Adaline.js:66, 109), are output. `TrainOneVsAll` returns the epoch count and the flag that the notice reports, and `Test` returns the count and the accuracy.
- The top-level script (Adaline.js:113-115) is not modelled.
- Floating point is not modelled: the arithmetic is exact `real`, with no rounding, overflow or NaN.
- `TrainOneVsAll` and `Test` require a non-empty dataset. On an empty dataset `trainOneVsAll` throws a TypeError at `this.dataset[0].length` (Adaline.js:44) before it reaches any division, `train` calls it for no class at all, and `test` computes 0 / 0 and reports NaN (Adaline.js:108).
- The `-Infinity` start value of `maxPrediction` (Adaline.js:89) is `None`, and the `null` start of `predictedClass` is `None`.
- Rows with differing feature counts are not modelled: `TrainOneVsAll`, `Train` and `Test` require every row to have the feature count of row 0. In the JavaScript a row longer than row 0 is cut to row 0's feature count in training (Adaline.js:56), and the value read as its label (Adaline.js:57) is one of its features, so it trains silently as a -1 example for every class, its own included. In `test` the same row scores NaN under every unit (Adaline.js:95); as `NaN > -Infinity` is false, `predictedClass` stays `null` and the row counts as wrong. A row shorter than row 0 puts its label string into the training sample, and a row shorter still leaves `sample[i]` undefined at Adaline.js:38; either way the products are NaN and so are the weights.
- JavaScript's `for…in` lists integer-like keys first and turns keys into strings (Adaline.js:93, 103). Labels are strings, and the registry keeps the class-extraction order.
- No claim is made that training converges or reaches any accuracy: that depends on the data and on the hyperparameters.
- `Classify` is the inner loop of `test` (Adaline.js:89-101), written as a separate method of the class. `RunEpoch` is the sample loop of `trainOneVsAll` (Adaline.js:53-63), and `LearnSample` is that loop's body (Adaline.js:56-62). Their behaviour is the same as the inline code's.
- `Train` builds the registry in a local variable and stores it in `classifiers` after the loop, where the JavaScript assigns `this.classifiers[classLabel]` on every iteration (Adaline.js:77). Nothing reads the registry while the loop runs, so the final state is the same.
- `ErrorAfterUpdate` takes the error as a parameter whose precondition fixes it to `target - prediction`, as Adaline.js:59 computes it.
