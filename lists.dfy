/** `Array.prototype.map` on a list that the callback does not mutate. */
module Lists {

  /** Applies `f` to each element, first to last. */
  function MapSeq<A, B>(f: A -> B, s: seq<A>): (r: seq<B>)
    ensures |r| == |s|
    ensures forall i :: 0 <= i < |s| ==> r[i] == f(s[i])
    decreases |s|
  {
    if s == [] then [] else [f(s[0])] + MapSeq(f, s[1..])
  }
}
