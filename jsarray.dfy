/** `Array.prototype.map` over sequences, with its index and append laws. */
module JsArray {
  /** `xs.map(f)`: `f` applied to each element, in order. */
  function MapSeq<A, B>(f: A -> B, xs: seq<A>): (r: seq<B>)
    ensures |r| == |xs|
  {
    if xs == [] then []
    else MapSeq(f, xs[..|xs| - 1]) + [f(xs[|xs| - 1])]
  }

  /** Position `k` of the result is `f` of position `k` of the input. */
  lemma {:induction false} MapSeqAt<A, B>(f: A -> B, xs: seq<A>)
    ensures forall k :: 0 <= k < |xs| ==> MapSeq(f, xs)[k] == f(xs[k])
  {
    if xs != [] {
      var prefix := xs[..|xs| - 1];
      MapSeqAt(f, prefix);
      forall k | 0 <= k < |xs| ensures MapSeq(f, xs)[k] == f(xs[k]) {
        if k < |prefix| {
          assert xs[k] == prefix[k];
        }
      }
    }
  }

  /** Mapping one more element of the input appends its image. */
  lemma MapSeqSnoc<A, B>(f: A -> B, xs: seq<A>, i: nat)
    requires i < |xs|
    ensures MapSeq(f, xs[..i + 1]) == MapSeq(f, xs[..i]) + [f(xs[i])]
  {
    assert xs[..i + 1][..i] == xs[..i];
  }
}
