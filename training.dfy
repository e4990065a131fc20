/**
 * One-vs-all training of a single class, as functions of the dataset, the
 * hyperparameters and the initial weights: one epoch is a left-to-right pass
 * of online updates, and training repeats epochs until the mean absolute
 * error of an epoch falls below the tolerance or the epoch cap is reached.
 */
module Training {
  import opened Data
  import opened LinearUnit

  /** The three hyperparameters held by the trainer. */
  datatype Config = Config(learningRate: real, maxEpochs: nat, errorTolerance: real)

  function Abs(x: real): (r: real)
    ensures r >= 0.0 && (r == x || r == -x)
  {
    if x < 0.0 then -x else x
  }

  /** +1 for a row of the positive class, -1 for every other row. */
  function Target(row: Row, classLabel: string): (r: real)
    ensures r == 1.0 <==> row.classLabel == classLabel
    ensures r == 1.0 || r == -1.0
  {
    if row.classLabel == classLabel then 1.0 else -1.0
  }

  /** Every row has exactly `n` features. */
  predicate Fits(ds: seq<Row>, n: nat) {
    forall i :: 0 <= i < |ds| ==> |ds[i].features| == n
  }

  /** The weights and the accumulated absolute error partway through an epoch. */
  datatype EpochState = EpochState(weights: seq<real>, errorSum: real)

  /** One sample of an epoch: score with the current weights, accumulate |error|, update. */
  function Step(st: EpochState, row: Row, classLabel: string, learningRate: real): (r: EpochState)
    requires |row.features| == |st.weights|
    ensures |r.weights| == |st.weights|
  {
    var error := Target(row, classLabel) - Dot(row.features, st.weights);
    EpochState(Updated(st.weights, learningRate, error, row.features), st.errorSum + Abs(error))
  }

  /** A step is determined by the score it computes and the weights the update produces. */
  lemma {:induction false} StepOf(st: EpochState, row: Row, classLabel: string, learningRate: real, score: real, w': seq<real>)
    requires |row.features| == |st.weights| && score == Dot(row.features, st.weights)
    requires w' == Updated(st.weights, learningRate, Target(row, classLabel) - score, row.features)
    ensures Step(st, row, classLabel, learningRate) == EpochState(w', st.errorSum + Abs(Target(row, classLabel) - score))
  {
  }

  /** The state after the first `n` rows of an epoch that started from weights `w` and `errorSum = 0`. */
  function EpochPrefix(ds: seq<Row>, classLabel: string, learningRate: real, w: seq<real>, n: nat): (r: EpochState)
    requires n <= |ds| && Fits(ds, |w|)
    ensures |r.weights| == |w|
  {
    if n == 0 then EpochState(w, 0.0)
    else Step(EpochPrefix(ds, classLabel, learningRate, w, n - 1), ds[n - 1], classLabel, learningRate)
  }

  /** One full epoch. */
  function Epoch(ds: seq<Row>, classLabel: string, learningRate: real, w: seq<real>): (r: EpochState)
    requires Fits(ds, |w|)
  {
    EpochPrefix(ds, classLabel, learningRate, w, |ds|)
  }

  /** The weights after `k` full epochs, with no early exit. */
  function AfterEpochs(ds: seq<Row>, classLabel: string, learningRate: real, w: seq<real>, k: nat): (r: seq<real>)
    requires Fits(ds, |w|)
    ensures |r| == |w|
  {
    if k == 0 then w
    else Epoch(ds, classLabel, learningRate, AfterEpochs(ds, classLabel, learningRate, w, k - 1)).weights
  }

  /** The convergence test after 0-based epoch `k`: `errorSum / dataset.length < errorTolerance`. */
  predicate ConvergesAt(ds: seq<Row>, classLabel: string, cfg: Config, w: seq<real>, k: nat)
    requires |ds| > 0 && Fits(ds, |w|)
  {
    var e := Epoch(ds, classLabel, cfg.learningRate, AfterEpochs(ds, classLabel, cfg.learningRate, w, k));
    e.errorSum / |ds| as real < cfg.errorTolerance
  }

  /** The trained weights, the number of epochs run, and whether the convergence test fired. */
  datatype TrainOutcome = TrainOutcome(weights: seq<real>, epochs: nat, converged: bool)

  /** The epoch loop from epoch `epoch` on, with current weights `w`. */
  function TrainFrom(ds: seq<Row>, classLabel: string, cfg: Config, epoch: nat, w: seq<real>): (r: TrainOutcome)
    requires |ds| > 0 && Fits(ds, |w|) && epoch <= cfg.maxEpochs
    decreases cfg.maxEpochs - epoch
  {
    if epoch == cfg.maxEpochs then TrainOutcome(w, epoch, false)
    else
      var e := Epoch(ds, classLabel, cfg.learningRate, w);
      if e.errorSum / |ds| as real < cfg.errorTolerance then TrainOutcome(e.weights, epoch + 1, true)
      else TrainFrom(ds, classLabel, cfg, epoch + 1, e.weights)
  }

  /** Training of one class (`trainOneVsAll`) from the initial weights `w`. */
  function Fit(ds: seq<Row>, classLabel: string, cfg: Config, w: seq<real>): TrainOutcome
    requires |ds| > 0 && Fits(ds, |w|)
  {
    TrainFrom(ds, classLabel, cfg, 0, w)
  }

  /** The accumulated absolute error is never negative. */
  lemma {:induction false} ErrorSumNonNegative(ds: seq<Row>, classLabel: string, learningRate: real, w: seq<real>, n: nat)
    requires n <= |ds| && Fits(ds, |w|)
    ensures EpochPrefix(ds, classLabel, learningRate, w, n).errorSum >= 0.0
  {
    if n > 0 {
      ErrorSumNonNegative(ds, classLabel, learningRate, w, n - 1);
    }
  }

  lemma {:induction false} TrainFromCharacterized(ds: seq<Row>, classLabel: string, cfg: Config, w: seq<real>, epoch: nat)
    requires |ds| > 0 && Fits(ds, |w|) && epoch <= cfg.maxEpochs
    requires forall k :: 0 <= k < epoch ==> !ConvergesAt(ds, classLabel, cfg, w, k)
    ensures var r := TrainFrom(ds, classLabel, cfg, epoch, AfterEpochs(ds, classLabel, cfg.learningRate, w, epoch));
      && epoch <= r.epochs <= cfg.maxEpochs
      && |r.weights| == |w|
      && r.weights == AfterEpochs(ds, classLabel, cfg.learningRate, w, r.epochs)
      && (r.converged ==> r.epochs >= 1 && ConvergesAt(ds, classLabel, cfg, w, r.epochs - 1))
      && (!r.converged ==> r.epochs == cfg.maxEpochs)
      && forall k :: 0 <= k < r.epochs - 1 ==> !ConvergesAt(ds, classLabel, cfg, w, k)
    decreases cfg.maxEpochs - epoch
  {
    if epoch < cfg.maxEpochs && !ConvergesAt(ds, classLabel, cfg, w, epoch) {
      TrainFromCharacterized(ds, classLabel, cfg, w, epoch + 1);
    }
  }

  /**
   * Training runs at most `maxEpochs` epochs, keeps the weight count, and
   * stops right after the first epoch whose mean absolute error is below the
   * tolerance; an unconverged run uses up all `maxEpochs` epochs.
   */
  lemma {:induction false} TrainStopsAtFirstConvergence(ds: seq<Row>, classLabel: string, cfg: Config, w: seq<real>)
    requires |ds| > 0 && Fits(ds, |w|)
    ensures var r := Fit(ds, classLabel, cfg, w);
      && r.epochs <= cfg.maxEpochs
      && |r.weights| == |w|
      && r.weights == AfterEpochs(ds, classLabel, cfg.learningRate, w, r.epochs)
      && (r.converged <==> r.epochs >= 1 && ConvergesAt(ds, classLabel, cfg, w, r.epochs - 1))
      && (!r.converged ==> r.epochs == cfg.maxEpochs)
      && forall k :: 0 <= k < r.epochs - 1 ==> !ConvergesAt(ds, classLabel, cfg, w, k)
  {
    TrainFromCharacterized(ds, classLabel, cfg, w, 0);
    var r := Fit(ds, classLabel, cfg, w);
    if !r.converged && r.epochs >= 1 {
      assert !ConvergesAt(ds, classLabel, cfg, w, r.epochs - 1) by {
        TrainLastEpochNotConverged(ds, classLabel, cfg, w, 0);
      }
    }
  }

  /** When the loop ends at the cap, the test of the last epoch did not fire either. */
  lemma {:induction false} TrainLastEpochNotConverged(ds: seq<Row>, classLabel: string, cfg: Config, w: seq<real>, epoch: nat)
    requires |ds| > 0 && Fits(ds, |w|) && epoch <= cfg.maxEpochs
    ensures var r := TrainFrom(ds, classLabel, cfg, epoch, AfterEpochs(ds, classLabel, cfg.learningRate, w, epoch));
      !r.converged && r.epochs > epoch ==> !ConvergesAt(ds, classLabel, cfg, w, r.epochs - 1)
    decreases cfg.maxEpochs - epoch
  {
    if epoch < cfg.maxEpochs && !ConvergesAt(ds, classLabel, cfg, w, epoch) {
      TrainLastEpochNotConverged(ds, classLabel, cfg, w, epoch + 1);
    }
  }

  /** With a tolerance of 0 or less the test never fires: the absolute error is never negative. */
  lemma {:induction false} NonPositiveToleranceNeverConverges(ds: seq<Row>, classLabel: string, cfg: Config, w: seq<real>)
    requires |ds| > 0 && Fits(ds, |w|) && cfg.errorTolerance <= 0.0
    ensures !Fit(ds, classLabel, cfg, w).converged
    ensures Fit(ds, classLabel, cfg, w).epochs == cfg.maxEpochs
  {
    var r := Fit(ds, classLabel, cfg, w);
    TrainStopsAtFirstConvergence(ds, classLabel, cfg, w);
    if r.converged {
      var v := AfterEpochs(ds, classLabel, cfg.learningRate, w, r.epochs - 1);
      ErrorSumNonNegative(ds, classLabel, cfg.learningRate, v, |ds|);
    }
  }
}
