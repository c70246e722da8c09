/** Generic facts about sequences: `Array.prototype.slice`, `reverse` and
    order-preserving selection. */
module Sequences {

  function Min(a: int, b: int): (m: int)
    ensures m <= a && m <= b && (m == a || m == b)
  {
    if a <= b then a else b
  }

  /** The first `n` elements, as `xs.slice(0, n)` gives them for `n >= 0`. */
  function Take<T>(xs: seq<T>, n: nat): (r: seq<T>)
    ensures |r| == Min(n, |xs|)
    ensures forall k :: 0 <= k < |r| ==> r[k] == xs[k]
  {
    if n <= |xs| then xs[..n] else xs
  }

  /** The last `n` elements, as `xs.slice(-n)` gives them for `n > 0`. */
  function TakeLast<T>(xs: seq<T>, n: nat): (r: seq<T>)
    ensures |r| == Min(n, |xs|)
    ensures forall k :: 0 <= k < |r| ==> r[k] == xs[|xs| - |r| + k]
  {
    if n <= |xs| then xs[|xs| - n..] else xs
  }

  function Reverse<T>(xs: seq<T>): seq<T>
  {
    if xs == [] then [] else [xs[|xs| - 1]] + Reverse(xs[..|xs| - 1])
  }

  lemma {:induction false} ReverseAt<T>(xs: seq<T>, k: nat)
    requires k < |xs|
    ensures |Reverse(xs)| == |xs|
    ensures Reverse(xs)[k] == xs[|xs| - 1 - k]
  {
    var init := xs[..|xs| - 1];
    if k == 0 {
      ReverseLength(init);
    } else {
      ReverseAt(init, k - 1);
    }
  }

  lemma {:induction false} ReverseLength<T>(xs: seq<T>)
    ensures |Reverse(xs)| == |xs|
  {
    if xs != [] {
      ReverseLength(xs[..|xs| - 1]);
    }
  }

  /** `sub` is `xs` with some elements left out and the rest in their order. */
  predicate IsSubsequence<T(==)>(sub: seq<T>, xs: seq<T>)
    decreases |xs|
  {
    if xs == [] then sub == []
    else IsSubsequence(sub, xs[1..]) || (sub != [] && sub[0] == xs[0] && IsSubsequence(sub[1..], xs[1..]))
  }

  lemma {:induction false} SubsequenceLength<T>(sub: seq<T>, xs: seq<T>)
    requires IsSubsequence(sub, xs)
    ensures |sub| <= |xs|
    decreases |xs|
  {
    if xs != [] {
      if IsSubsequence(sub, xs[1..]) {
        SubsequenceLength(sub, xs[1..]);
      } else {
        SubsequenceLength(sub[1..], xs[1..]);
      }
    }
  }
}
