/** Small shared vocabulary: an optional value and duplicate-freedom of a sequence. */
module Common {

  /** "No value yet": stands for JavaScript's `null` and for the `-Infinity` sentinel. */
  datatype Option<+T> = None | Some(value: T)

  /** No element occurs twice. */
  predicate Distinct<T(==)>(s: seq<T>) {
    forall i, j :: 0 <= i < j < |s| ==> s[i] != s[j]
  }
}
