/**
 * The linear unit: the weighted sum a classifier scores a sample with, and
 * the gradient-descent rule that updates its weights.
 */
module LinearUnit {

  /**
   * `sum += sample[i] * weights[i]` for `i` from 0 up to `|s|`, in that order.
   * Only the first `|s|` weights take part.
   */
  function Dot(s: seq<real>, w: seq<real>): real
    requires |s| <= |w|
    decreases |s|
  {
    if |s| == 0 then 0.0 else Dot(s[..|s| - 1], w) + s[|s| - 1] * w[|s| - 1]
  }

  /** Every component multiplied by `k`. */
  function Scale(k: real, v: seq<real>): (r: seq<real>)
    ensures |r| == |v|
  {
    seq(|v|, i requires 0 <= i < |v| => k * v[i])
  }

  /** `weights[i] += learningRate * error * sample[i]` for every weight index `i`. */
  function Updated(w: seq<real>, learningRate: real, error: real, s: seq<real>): (r: seq<real>)
    requires |w| <= |s|
    ensures |r| == |w|
  {
    seq(|w|, i requires 0 <= i < |w| => w[i] + learningRate * error * s[i])
  }

  /** An all-zero weight vector scores every sample 0. */
  lemma {:induction false} DotZeroWeights(s: seq<real>, w: seq<real>)
    requires |s| <= |w|
    requires forall i :: 0 <= i < |w| ==> w[i] == 0.0
    ensures Dot(s, w) == 0.0
  {
    if |s| > 0 {
      DotZeroWeights(s[..|s| - 1], w);
    }
  }

  /** Scaling the weights by `k` scales the score by `k`. */
  lemma {:induction false} DotScaleWeights(s: seq<real>, w: seq<real>, k: real)
    requires |s| <= |w|
    ensures Dot(s, Scale(k, w)) == k * Dot(s, w)
  {
    if |s| > 0 {
      var n := |s| - 1;
      DotScaleWeights(s[..n], w, k);
      calc {
        Dot(s, Scale(k, w));
        k * Dot(s[..n], w) + s[n] * (k * w[n]);
        k * (Dot(s[..n], w) + s[n] * w[n]);
      }
    }
  }

  /** Scaling the sample by `k` scales the score by `k`. */
  lemma {:induction false} DotScaleSample(s: seq<real>, w: seq<real>, k: real)
    requires |s| <= |w|
    ensures Dot(Scale(k, s), w) == k * Dot(s, w)
  {
    if |s| > 0 {
      var n := |s| - 1;
      assert forall i :: 0 <= i < n ==> Scale(k, s)[..n][i] == Scale(k, s[..n])[i];
      assert Scale(k, s)[..n] == Scale(k, s[..n]);
      DotScaleSample(s[..n], w, k);
      calc {
        Dot(Scale(k, s), w);
        k * Dot(s[..n], w) + (k * s[n]) * w[n];
        k * (Dot(s[..n], w) + s[n] * w[n]);
      }
    }
  }

  /** Scaling both the sample and the weights by `k` scales the score by `k * k`. */
  lemma {:induction false} DotScaleBoth(s: seq<real>, w: seq<real>, k: real)
    requires |s| <= |w|
    ensures Dot(Scale(k, s), Scale(k, w)) == k * k * Dot(s, w)
  {
    DotScaleSample(s, Scale(k, w), k);
    DotScaleWeights(s, w, k);
  }

  /** An update with error 0 leaves the weights as they were. */
  lemma {:induction false} UpdatedZeroError(w: seq<real>, learningRate: real, s: seq<real>)
    requires |w| <= |s|
    ensures Updated(w, learningRate, 0.0, s) == w
  {
    assert forall i :: 0 <= i < |w| ==> learningRate * 0.0 * s[i] == 0.0;
  }

  /** Component-wise sum. */
  function Add(v: seq<real>, x: seq<real>): (r: seq<real>)
    requires |v| == |x|
    ensures |r| == |v|
  {
    seq(|v|, i requires 0 <= i < |v| => v[i] + x[i])
  }

  /** The score is additive in the weights. */
  lemma {:induction false} DotAdd(s: seq<real>, v: seq<real>, x: seq<real>)
    requires |s| <= |v| == |x|
    ensures Dot(s, Add(v, x)) == Dot(s, v) + Dot(s, x)
  {
    if |s| > 0 {
      var n := |s| - 1;
      DotAdd(s[..n], v, x);
      assert s[n] * (v[n] + x[n]) == s[n] * v[n] + s[n] * x[n];
    }
  }

  /** An update on a sample moves that sample's score by `learningRate * error * (s · s)`. */
  lemma {:induction false} DotAfterUpdate(s: seq<real>, w: seq<real>, learningRate: real, error: real)
    requires |s| == |w|
    ensures Dot(s, Updated(w, learningRate, error, s)) == Dot(s, w) + learningRate * error * Dot(s, s)
  {
    assert Updated(w, learningRate, error, s) == Add(w, Scale(learningRate * error, s));
    DotAdd(s, w, Scale(learningRate * error, s));
    DotScaleWeights(s, s, learningRate * error);
  }

  /**
   * With `error = target - score`, the update on a sample shrinks that
   * sample's error by `learningRate * error * (s · s)`: the new error is the
   * old one times `1 - learningRate * (s · s)`.
   */
  lemma {:induction false} ErrorAfterUpdate(s: seq<real>, w: seq<real>, learningRate: real, target: real, error: real)
    requires |s| == |w| && error == target - Dot(s, w)
    ensures target - Dot(s, Updated(w, learningRate, error, s)) == error - learningRate * error * Dot(s, s)
  {
    DotAfterUpdate(s, w, learningRate, error);
  }
}
