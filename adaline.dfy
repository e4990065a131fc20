/**
 * The trainer object: it holds the dataset, the hyperparameters, the class
 * list and the classifier registry, and its methods do the work in loops
 * over that state, as the JavaScript class does.
 */
module OneVsAll {
  import opened Common
  import opened Data
  import opened LinearUnit
  import opened Registry
  import opened Training
  import opened Evaluation

  /** One per-class unit: its label and its weight vector, which training updates in place. */
  class Classifier {
    const classLabel: string
    const weights: array<real>

    constructor (classLabel: string, init: seq<real>)
      ensures this.classLabel == classLabel && fresh(weights) && weights[..] == init
    {
      this.classLabel := classLabel;
      weights := new real[|init|](i requires 0 <= i < |init| => init[i]);
    }
  }

  /** The registry with each classifier's current weights read out as a value. */
  function Snapshot(reg: seq<Entry<Classifier>>): (r: Units)
    reads set e | e in reg :: e.value.weights
    ensures |r| == |reg| && Keys(r) == Keys(reg)
    ensures forall j :: 0 <= j < |reg| ==> r[j] == Entry(reg[j].key, reg[j].value.weights[..])
  {
    if |reg| == 0 then [] else [Entry(reg[0].key, reg[0].value.weights[..])] + Snapshot(reg[1..])
  }

  class Adaline {
    const dataset: seq<Row>
    const learningRate: real
    const maxEpochs: nat
    const errorTolerance: real
    var classes: seq<string>
    var classifiers: seq<Entry<Classifier>>

    function Cfg(): Config {
      Config(learningRate, maxEpochs, errorTolerance)
    }

    /**
     * The object invariant: the class list is the extracted one, the registry
     * is empty (before training) or holds one entry per class in class order,
     * and each entry's classifier carries its key and `numFeatures` weights.
     */
    ghost predicate Valid()
      reads this
    {
      && classes == Dedup(Labels(dataset))
      && (Keys(classifiers) == [] || Keys(classifiers) == classes)
      && forall j :: 0 <= j < |classifiers| ==>
           && classifiers[j].value.classLabel == classifiers[j].key
           && classifiers[j].value.weights.Length == NumFeatures(dataset)
    }

    constructor (dataset: seq<Row>, learningRate: real, maxEpochs: nat, errorTolerance: real)
      ensures this.dataset == dataset && this.learningRate == learningRate
      ensures this.maxEpochs == maxEpochs && this.errorTolerance == errorTolerance
      ensures Valid() && classifiers == []
    {
      this.dataset := dataset;
      this.learningRate := learningRate;
      this.maxEpochs := maxEpochs;
      this.errorTolerance := errorTolerance;
      classes := [];
      classifiers := [];
      new;
      classes := ExtractClasses();
    }

    /**
     * The distinct labels in order of first occurrence: no label twice, every
     * label of the dataset and nothing else, ordered by where each first occurs.
     */
    method ExtractClasses() returns (result: seq<string>)
      ensures result == Dedup(Labels(dataset))
      ensures Distinct(result)
      ensures forall x :: x in result <==> x in Labels(dataset)
      ensures forall i, j :: 0 <= i < j < |result| ==>
        FirstIndex(Labels(dataset), result[i]) < FirstIndex(Labels(dataset), result[j])
    {
      result := [];
      for i := 0 to |dataset|
        invariant result == Dedup(Labels(dataset)[..i])
      {
        assert Labels(dataset)[..i + 1][..i] == Labels(dataset)[..i];
        var classLabel := dataset[i].classLabel;
        if classLabel !in result {
          result := result + [classLabel];
        }
      }
      assert Labels(dataset)[..|dataset|] == Labels(dataset);
      DedupDistinct(Labels(dataset));
      DedupElements(Labels(dataset));
      DedupFirstOccurrenceOrder(Labels(dataset));
    }

    /** The score of a sample: the sum of `sample[i] * weights[i]` over the sample's indices. */
    method Predict(sample: seq<real>, classifier: Classifier) returns (sum: real)
      requires |sample| <= classifier.weights.Length
      ensures sum == Dot(sample, classifier.weights[..])
    {
      sum := 0.0;
      for i := 0 to |sample|
        invariant sum == Dot(sample[..i], classifier.weights[..])
      {
        assert sample[..i + 1][..i] == sample[..i];
        sum := sum + sample[i] * classifier.weights[i];
      }
      assert sample[..|sample|] == sample;
    }

    /** Adds `learningRate * error * sample[i]` to every weight, in place. */
    method UpdateWeights(error: real, sample: seq<real>, classifier: Classifier)
      requires classifier.weights.Length <= |sample|
      modifies classifier.weights
      ensures classifier.weights[..] == Updated(old(classifier.weights[..]), learningRate, error, sample)
      ensures error == 0.0 ==> classifier.weights[..] == old(classifier.weights[..])
    {
      ghost var w := classifier.weights[..];
      for i := 0 to classifier.weights.Length
        invariant forall k :: 0 <= k < i ==> classifier.weights[k] == w[k] + learningRate * error * sample[k]
        invariant forall k :: i <= k < classifier.weights.Length ==> classifier.weights[k] == w[k]
      {
        classifier.weights[i] := classifier.weights[i] + learningRate * error * sample[i];
      }
      ghost var u := Updated(w, learningRate, error, sample);
      assert forall k :: 0 <= k < |u| ==> classifier.weights[..][k] == u[k];
      assert classifier.weights[..] == u;
      UpdatedZeroError(w, learningRate, sample);
    }

    /**
     * The body of the sample loop of `trainOneVsAll`: the row is scored with
     * the current weights, its absolute error is added to the running sum,
     * and the weights are updated on it at once.
     */
    method LearnSample(row: Row, classLabel: string, classifier: Classifier, errorSum: real) returns (errorSum': real)
      requires |row.features| == classifier.weights.Length
      modifies classifier.weights
      ensures Step(EpochState(old(classifier.weights[..]), errorSum), row, classLabel, learningRate)
        == EpochState(classifier.weights[..], errorSum')
    {
      ghost var before := EpochState(classifier.weights[..], errorSum);
      var sample := row.features;
      var target := Target(row, classLabel);
      var prediction := Predict(sample, classifier);
      var error := target - prediction;
      errorSum' := errorSum + Abs(error);
      UpdateWeights(error, sample, classifier);
      StepOf(before, row, classLabel, learningRate, prediction, classifier.weights[..]);
    }

    /** One epoch of `trainOneVsAll`: every row in order, starting from `errorSum = 0`. */
    method RunEpoch(classLabel: string, classifier: Classifier) returns (errorSum: real)
      requires Fits(dataset, classifier.weights.Length)
      modifies classifier.weights
      ensures Epoch(dataset, classLabel, learningRate, old(classifier.weights[..])) == EpochState(classifier.weights[..], errorSum)
    {
      errorSum := 0.0;
      ghost var start := classifier.weights[..];
      for i := 0 to |dataset|
        invariant classifier.weights.Length == |start|
        invariant EpochPrefix(dataset, classLabel, learningRate, start, i) == EpochState(classifier.weights[..], errorSum)
      {
        errorSum := LearnSample(dataset[i], classLabel, classifier, errorSum);
      }
    }

    /**
     * Trains the classifier of one class from the initial weights `init`
     * (which stand for the random initialisation). `epochs` and `converged`
     * report what the convergence notice prints: whether the tolerance test
     * fired, and after how many epochs.
     */
    method TrainOneVsAll(classLabel: string, init: seq<real>) returns (classifier: Classifier, epochs: nat, converged: bool)
      requires |dataset| > 0 && Uniform(dataset) && |init| == NumFeatures(dataset)
      ensures fresh(classifier) && fresh(classifier.weights)
      ensures classifier.classLabel == classLabel
      ensures classifier.weights.Length == NumFeatures(dataset)
      ensures Fit(dataset, classLabel, Cfg(), init) == TrainOutcome(classifier.weights[..], epochs, converged)
    {
      var numFeatures := |dataset[0].features|;
      classifier := new Classifier(classLabel, init);
      assert Fits(dataset, numFeatures);
      epochs, converged := maxEpochs, false;
      var epoch := 0;
      while epoch < maxEpochs
        invariant epoch <= maxEpochs
        invariant classifier.weights.Length == numFeatures
        invariant TrainFrom(dataset, classLabel, Cfg(), epoch, classifier.weights[..]) == Fit(dataset, classLabel, Cfg(), init)
        decreases maxEpochs - epoch
      {
        var errorSum := RunEpoch(classLabel, classifier);
        if errorSum / |dataset| as real < errorTolerance {
          epochs, converged := epoch + 1, true;
          break;
        }
        epoch := epoch + 1;
      }
    }

    /**
     * Trains one classifier per extracted class, in class order, and stores it
     * in the registry under its label.
     */
    method Train(inits: seq<seq<real>>)
      requires Valid() && Uniform(dataset)
      requires |inits| == |classes| && forall j :: 0 <= j < |inits| ==> |inits[j]| == NumFeatures(dataset)
      modifies this`classifiers
      ensures Valid()
      ensures Keys(classifiers) == classes
      ensures forall j :: 0 <= j < |classes| ==>
        && classifiers[j].value.classLabel == classes[j]
        && fresh(classifiers[j].value.weights)
        && classifiers[j].value.weights[..] == Fit(dataset, classes[j], Cfg(), inits[j]).weights
    {
      ghost var wasEmpty := Keys(classifiers) == [];
      DedupDistinct(Labels(dataset));
      DedupLength(Labels(dataset));
      var reg := classifiers;
      for j := 0 to |classes|
        invariant Keys(reg) == if wasEmpty then classes[..j] else classes
        invariant forall m :: 0 <= m < |reg| ==>
          && reg[m].value.classLabel == reg[m].key
          && reg[m].value.weights.Length == NumFeatures(dataset)
        invariant forall m :: 0 <= m < j ==>
          && fresh(reg[m].value.weights)
          && reg[m].value.weights[..] == Fit(dataset, classes[m], Cfg(), inits[m]).weights
      {
        var classLabel := classes[j];
        var classifier, _, _ := TrainOneVsAll(classLabel, inits[j]);
        PutNext(reg, classes, j, classifier, wasEmpty);
        reg := Put(reg, classLabel, classifier);
      }
      classifiers := reg;
      assert classes[..|classes|] == classes;
    }

    /**
     * The inner loop of the evaluation: scores a sample with every classifier
     * in registry order and keeps the label of the first strictly highest score.
     * Each classifier is read through its key, as a property read of the registry.
     */
    method Classify(sample: seq<real>) returns (predictedClass: Option<string>)
      requires Distinct(Keys(classifiers))
      requires forall j :: 0 <= j < |classifiers| ==> |sample| <= classifiers[j].value.weights.Length
      ensures Scorable(sample, Snapshot(classifiers))
      ensures predictedClass == Predicted(Snapshot(classifiers), sample)
    {
      ghost var units := Snapshot(classifiers);
      assert Scorable(sample, units);
      var maxPrediction: Option<real> := None;
      predictedClass := None;
      for j := 0 to |classifiers|
        invariant match Best(units, sample, j)
          case None => maxPrediction == None && predictedClass == None
          case Some(b) => maxPrediction == Some(Score(units, sample, b)) && predictedClass == Some(units[b].key)
      {
        var classLabel := classifiers[j].key;
        LookupAt(classifiers, j);
        var classifier := Lookup(classifiers, classLabel).value;
        var prediction := Predict(sample, classifier);
        assert prediction == Score(units, sample, j);
        if maxPrediction.None? || prediction > maxPrediction.value {
          maxPrediction := Some(prediction);
          predictedClass := Some(classLabel);
        }
      }
    }

    /**
     * Predicts every sample and counts the correct predictions; `accuracy` is
     * their percentage.
     */
    method Test() returns (correct: nat, accuracy: real)
      requires Valid() && Uniform(dataset) && |dataset| > 0
      ensures AllScorable(dataset, Snapshot(classifiers))
      ensures correct == CountCorrect(dataset, Snapshot(classifiers), |dataset|)
      ensures correct <= |dataset|
      ensures accuracy == Accuracy(correct, |dataset|) && 0.0 <= accuracy <= 100.0
      ensures |classes| == 1 && Keys(classifiers) == classes ==> accuracy == 100.0
    {
      ghost var units := Snapshot(classifiers);
      assert AllScorable(dataset, units);
      DedupDistinct(Labels(dataset));
      correct := 0;
      for i := 0 to |dataset|
        invariant correct == CountCorrect(dataset, units, i)
      {
        var sample := dataset[i].features;
        var trueClass := dataset[i].classLabel;
        var predictedClass := Classify(sample);
        assert Snapshot(classifiers) == units;
        assert predictedClass == Predicted(units, dataset[i].features);
        if predictedClass == Some(trueClass) {
          correct := correct + 1;
        }
      }
      CountCorrectBounded(dataset, units, |dataset|);
      accuracy := (correct as real / |dataset| as real) * 100.0;
      AccuracyInRange(correct, |dataset|);
      if |classes| == 1 && Keys(classifiers) == classes {
        SingleClassFullAccuracy(dataset, units);
      }
    }
  }
}
