/** Failure-carrying result types shared by the whole model. */
module Wrappers {

  datatype Option<+T> = None | Some(value: T)

  /** The value of an operation that returns a result or an error. */
  datatype Result<+R, +E> = Success(value: R) | Failure(error: E)

  /** The value of a Go `error` return with nothing else: nil (Pass) or an error (Fail). */
  datatype Outcome<+E> = Pass | Fail(error: E)
}

/** Generic facts about sequences. */
module Sequences {

  /** The position of the first occurrence of `x` in `xs`, or -1 when `x` does not occur. */
  function FirstIndex<T(==)>(xs: seq<T>, x: T): (i: int)
    ensures -1 <= i < |xs|
    ensures i == -1 <==> x !in xs
    ensures 0 <= i ==> xs[i] == x && x !in xs[..i]
  {
    if |xs| == 0 then -1
    else if xs[0] == x then 0
    else
      var k := FirstIndex(xs[1..], x);
      assert xs == [xs[0]] + xs[1..];
      if k < 0 then -1
      else
        assert xs[..k + 1] == [xs[0]] + xs[1..][..k];
        k + 1
  }

  /** Extending a slice by one position appends that element. */
  lemma SliceSnoc<T>(xs: seq<T>, i: int, j: int)
    requires 0 <= i <= j < |xs|
    ensures xs[i..j + 1] == xs[i..j] + [xs[j]]
  {
  }

  /** Dropping the first element of a suffix gives the next suffix. */
  lemma SuffixTail<T>(xs: seq<T>, i: int)
    requires 0 <= i < |xs|
    ensures xs[i..][1..] == xs[i + 1..] && xs[i..][0] == xs[i]
  {
  }

  /** No element occurs twice. */
  predicate Distinct<T(==)>(xs: seq<T>)
  {
    forall i, j :: 0 <= i < j < |xs| ==> xs[i] != xs[j]
  }

  /** In a sequence without repetitions, the first index of an element is its only index. */
  lemma FirstIndexOfDistinct<T>(xs: seq<T>, i: int)
    requires Distinct(xs) && 0 <= i < |xs|
    ensures FirstIndex(xs, xs[i]) == i
  {
  }
}
