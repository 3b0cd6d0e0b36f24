/** First-match search and element-wise mapping over sequences, the two
    array operations (`find`, `map`) the service is built from. */
module Sequences {
  import opened Wrappers

  /** Index of the first element satisfying `p`, scanning in list order. */
  function FindIndex<T>(xs: seq<T>, p: T -> bool): (r: Option<nat>)
    ensures r.Some? ==> r.value < |xs| && p(xs[r.value])
    ensures r.Some? ==> forall j :: 0 <= j < r.value ==> !p(xs[j])
    ensures r.None? <==> forall i :: 0 <= i < |xs| ==> !p(xs[i])
  {
    if |xs| == 0 then None
    else if p(xs[0]) then Some(0)
    else
      match FindIndex(xs[1..], p)
      case None => None
      case Some(k) => Some(k + 1)
  }

  /** `xs[i]` is the first element of `xs` satisfying `p`. */
  ghost predicate FirstMatchAt<T>(xs: seq<T>, p: T -> bool, i: int) {
    0 <= i < |xs| && p(xs[i]) && forall j :: 0 <= j < i ==> !p(xs[j])
  }

  /** Array.prototype.find: the first element satisfying `p`, or nothing. */
  function Find<T>(xs: seq<T>, p: T -> bool): (r: Option<T>)
    ensures r.None? <==> forall i :: 0 <= i < |xs| ==> !p(xs[i])
    ensures r.Some? ==> exists i :: FirstMatchAt(xs, p, i) && xs[i] == r.value
  {
    match FindIndex(xs, p)
    case None => None
    case Some(i) =>
      assert FirstMatchAt(xs, p, i);
      Some(xs[i])
  }

  /** Array.prototype.map: applies `f` to every element, keeping order and length. */
  function MapSeq<A, B>(f: A -> B, xs: seq<A>): (r: seq<B>)
    ensures |r| == |xs|
    ensures forall i :: 0 <= i < |xs| ==> r[i] == f(xs[i])
  {
    if |xs| == 0 then [] else [f(xs[0])] + MapSeq(f, xs[1..])
  }
}
