/** The dataset and the class list extracted from it. */
module Data {
  import opened Common

  /** One sample: its feature values followed by its class label (the last element of the row). */
  datatype Row = Row(features: seq<real>, classLabel: string)

  /** The last element of every row, in dataset order. */
  function Labels(ds: seq<Row>): seq<string> {
    seq(|ds|, i requires 0 <= i < |ds| => ds[i].classLabel)
  }

  /** `dataset[0].length - 1`, the feature count every weight vector is sized by. */
  function NumFeatures(ds: seq<Row>): nat {
    if |ds| == 0 then 0 else |ds[0].features|
  }

  /** Every row has the same feature count as row 0. */
  predicate Uniform(ds: seq<Row>) {
    forall i :: 0 <= i < |ds| ==> |ds[i].features| == NumFeatures(ds)
  }

  /**
   * What adding the labels one by one to a JavaScript `Set` and reading it
   * back with `Array.from` yields: an element already present is ignored, a
   * new one goes to the end.
   */
  function Dedup(s: seq<string>): seq<string> {
    if |s| == 0 then []
    else
      var d := Dedup(s[..|s| - 1]);
      if s[|s| - 1] in d then d else d + [s[|s| - 1]]
  }

  /** Position of the first occurrence of `x` in `s`; `|s|` when it does not occur. */
  function FirstIndex(s: seq<string>, x: string): nat {
    if |s| == 0 then 0
    else if s[0] == x then 0
    else 1 + FirstIndex(s[1..], x)
  }

  lemma {:induction false} FirstIndexBounds(s: seq<string>, x: string)
    ensures FirstIndex(s, x) <= |s|
    ensures FirstIndex(s, x) < |s| <==> x in s
    ensures x in s ==> s[FirstIndex(s, x)] == x
  {
    if |s| > 0 && s[0] != x {
      FirstIndexBounds(s[1..], x);
      assert x in s <==> x in s[1..];
    }
  }

  /** Appending at the end does not move a first occurrence. */
  lemma {:induction false} FirstIndexAppend(s: seq<string>, y: string, x: string)
    requires x in s
    ensures FirstIndex(s + [y], x) == FirstIndex(s, x)
  {
    if s[0] != x {
      assert (s + [y])[1..] == s[1..] + [y];
      FirstIndexAppend(s[1..], y, x);
    }
  }

  /** There are never more classes than rows. */
  lemma {:induction false} DedupLength(s: seq<string>)
    ensures |Dedup(s)| <= |s|
  {
    if |s| > 0 {
      DedupLength(s[..|s| - 1]);
    }
  }

  /** The extracted classes contain no label twice. */
  lemma {:induction false} DedupDistinct(s: seq<string>)
    ensures Distinct(Dedup(s))
  {
    if |s| > 0 {
      DedupDistinct(s[..|s| - 1]);
    }
  }

  /** The extracted classes are exactly the labels that occur. */
  lemma {:induction false} DedupElements(s: seq<string>)
    ensures forall x :: x in Dedup(s) <==> x in s
  {
    if |s| > 0 {
      var p := s[..|s| - 1];
      DedupElements(p);
      assert s == p + [s[|s| - 1]];
    }
  }

  /** The extracted classes are ordered by the position of their first occurrence. */
  lemma {:induction false} DedupFirstOccurrenceOrder(s: seq<string>)
    ensures forall i, j :: 0 <= i < j < |Dedup(s)| ==> FirstIndex(s, Dedup(s)[i]) < FirstIndex(s, Dedup(s)[j])
  {
    if |s| > 0 {
      var p, y := s[..|s| - 1], s[|s| - 1];
      var d := Dedup(p);
      assert s == p + [y];
      DedupFirstOccurrenceOrder(p);
      DedupElements(p);
      forall i | 0 <= i < |d|
        ensures FirstIndex(s, d[i]) == FirstIndex(p, d[i]) < |p|
      {
        FirstIndexAppend(p, y, d[i]);
        FirstIndexBounds(p, d[i]);
      }
      if y !in d {
        FirstIndexBounds(p, y);
        FirstIndexBounds(s, y);
      }
    }
  }

  /** A dataset whose rows all carry the same label yields exactly that one class. */
  lemma {:induction false} DedupSingleLabel(s: seq<string>, l: string)
    requires |s| > 0 && forall i :: 0 <= i < |s| ==> s[i] == l
    ensures Dedup(s) == [l]
  {
    if |s| > 1 {
      DedupSingleLabel(s[..|s| - 1], l);
    }
  }

  /** Conversely, a single extracted class means every row carries that class's label. */
  lemma {:induction false} SingleClassAllLabels(s: seq<string>)
    requires |Dedup(s)| == 1
    ensures forall i :: 0 <= i < |s| ==> s[i] == Dedup(s)[0]
  {
    DedupElements(s);
    forall i | 0 <= i < |s|
      ensures s[i] == Dedup(s)[0]
    {
      assert s[i] in Dedup(s);
    }
  }
}
