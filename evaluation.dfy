/**
 * Evaluation: every sample is scored by every trained unit, the label of the
 * first unit (in registry order) with the strictly greatest score is the
 * prediction, and accuracy is the percentage of correct predictions.
 */
module Evaluation {
  import opened Common
  import opened Data
  import opened LinearUnit
  import opened Registry

  /** A snapshot of the registry: each class label with its weight vector. */
  type Units = seq<Entry<seq<real>>>

  /** The sample's features fit every unit's weight vector. */
  predicate Scorable(sample: seq<real>, units: Units) {
    forall j :: 0 <= j < |units| ==> |sample| <= |units[j].value|
  }

  predicate AllScorable(ds: seq<Row>, units: Units) {
    forall i :: 0 <= i < |ds| ==> Scorable(ds[i].features, units)
  }

  function Score(units: Units, sample: seq<real>, j: nat): real
    requires j < |units| && Scorable(sample, units)
  {
    Dot(sample, units[j].value)
  }

  /**
   * The index of the best unit among the first `n`: a unit replaces the
   * current best only when its score is strictly greater; `None` until a
   * unit has been seen (the `-Infinity` start).
   */
  function Best(units: Units, sample: seq<real>, n: nat): (r: Option<nat>)
    requires n <= |units| && Scorable(sample, units)
    ensures r.Some? ==> r.value < n
  {
    if n == 0 then None
    else
      var b := Best(units, sample, n - 1);
      if b.None? || Score(units, sample, n - 1) > Score(units, sample, b.value) then Some(n - 1) else b
  }

  /** The predicted class of a sample: the label of the best unit, none for an empty registry. */
  function Predicted(units: Units, sample: seq<real>): (r: Option<string>)
    requires Scorable(sample, units)
    ensures r.None? <==> |units| == 0
    ensures r.Some? ==> r.value in Keys(units)
  {
    BestIsFirstMaximum(units, sample, |units|);
    match Best(units, sample, |units|)
    case None => None
    case Some(j) =>
      assert Keys(units)[j] == units[j].key;
      Some(units[j].key)
  }

  /**
   * The chosen unit scores strictly more than every unit before it and at
   * least as much as every unit after it; nothing is chosen only when there
   * are no units.
   */
  lemma {:induction false} BestIsFirstMaximum(units: Units, sample: seq<real>, n: nat)
    requires n <= |units| && Scorable(sample, units)
    ensures Best(units, sample, n).None? <==> n == 0
    ensures Best(units, sample, n).Some? ==>
      var b := Best(units, sample, n).value;
      && (forall k :: 0 <= k < b ==> Score(units, sample, k) < Score(units, sample, b))
      && (forall k :: b < k < n ==> Score(units, sample, k) <= Score(units, sample, b))
  {
    if n > 0 {
      BestIsFirstMaximum(units, sample, n - 1);
    }
  }

  /** Conversely, a unit that beats all earlier ones strictly and all later ones weakly is the one chosen. */
  lemma {:induction false} FirstMaximumIsBest(units: Units, sample: seq<real>, n: nat, b: nat)
    requires n <= |units| && Scorable(sample, units) && b < n
    requires forall k :: 0 <= k < b ==> Score(units, sample, k) < Score(units, sample, b)
    requires forall k :: b < k < n ==> Score(units, sample, k) <= Score(units, sample, b)
    ensures Best(units, sample, n) == Some(b)
  {
    BestIsFirstMaximum(units, sample, n);
  }

  /** On a tie the unit that comes first in registry order wins: a later unit is never chosen over an equal earlier one. */
  lemma {:induction false} TieGoesToEarlier(units: Units, sample: seq<real>, a: nat, b: nat)
    requires Scorable(sample, units) && a < b < |units|
    requires Score(units, sample, a) == Score(units, sample, b)
    ensures Best(units, sample, |units|) != Some(b)
  {
    BestIsFirstMaximum(units, sample, |units|);
  }

  /** `correct` after the first `n` samples. */
  function CountCorrect(ds: seq<Row>, units: Units, n: nat): nat
    requires n <= |ds| && AllScorable(ds, units)
  {
    if n == 0 then 0
    else CountCorrect(ds, units, n - 1) + (if Predicted(units, ds[n - 1].features) == Some(ds[n - 1].classLabel) then 1 else 0)
  }

  /** `(correct / dataset.length) * 100`. */
  function Accuracy(correct: nat, total: nat): real
    requires total > 0
  {
    correct as real / total as real * 100.0
  }

  /** The counter never exceeds the number of samples seen. */
  lemma {:induction false} CountCorrectBounded(ds: seq<Row>, units: Units, n: nat)
    requires n <= |ds| && AllScorable(ds, units)
    ensures CountCorrect(ds, units, n) <= n
  {
    if n > 0 {
      CountCorrectBounded(ds, units, n - 1);
    }
  }

  /** The reported accuracy is a percentage. */
  lemma {:induction false} AccuracyInRange(correct: nat, total: nat)
    requires 0 < total && correct <= total
    ensures 0.0 <= Accuracy(correct, total) <= 100.0
  {
    var q := correct as real / total as real;
    assert q * total as real == correct as real;
    assert q <= 1.0;
  }

  /** With one unit, every sample whose label is that unit's is counted correct. */
  lemma {:induction false} SingleClassAllCorrect(ds: seq<Row>, units: Units, n: nat)
    requires n <= |ds| && AllScorable(ds, units) && |units| == 1
    requires forall i :: 0 <= i < |ds| ==> ds[i].classLabel == units[0].key
    ensures CountCorrect(ds, units, n) == n
  {
    if n > 0 {
      SingleClassAllCorrect(ds, units, n - 1);
      BestIsFirstMaximum(units, ds[n - 1].features, 1);
    }
  }

  /**
   * When the dataset has a single class and the registry holds exactly that
   * class, every prediction is right.
   */
  lemma {:induction false} SingleClassFullAccuracy(ds: seq<Row>, units: Units)
    requires |ds| > 0 && AllScorable(ds, units)
    requires |Dedup(Labels(ds))| == 1 && Keys(units) == Dedup(Labels(ds))
    ensures CountCorrect(ds, units, |ds|) == |ds|
    ensures Accuracy(CountCorrect(ds, units, |ds|), |ds|) == 100.0
  {
    SingleClassAllLabels(Labels(ds));
    assert Keys(units)[0] == units[0].key;
    assert forall i :: 0 <= i < |ds| ==> ds[i].classLabel == Labels(ds)[i];
    SingleClassAllCorrect(ds, units, |ds|);
    AllCorrectIsFullAccuracy(|ds|);
  }

  /** Every sample right means an accuracy of exactly 100. */
  lemma AllCorrectIsFullAccuracy(total: nat)
    requires total > 0
    ensures Accuracy(total, total) == 100.0
  {
    var t := total as real;
    assert t / t == 1.0;
  }
}
