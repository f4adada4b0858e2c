/** Positional facts about concatenated sequences, stated once for any element
    type so that proofs about lines of text never look inside the strings. */
module Sequences {
  import opened Outcomes

  function Firsts<A, B>(pairs: seq<(A, B)>): (r: seq<A>)
    ensures |r| == |pairs| && forall i :: 0 <= i < |pairs| ==> r[i] == pairs[i].0
  {
    seq(|pairs|, i requires 0 <= i < |pairs| => pairs[i].0)
  }

  function Seconds<A, B>(pairs: seq<(A, B)>): (r: seq<B>)
    ensures |r| == |pairs| && forall i :: 0 <= i < |pairs| ==> r[i] == pairs[i].1
  {
    seq(|pairs|, i requires 0 <= i < |pairs| => pairs[i].1)
  }

  lemma IndexLeft<T>(a: seq<T>, b: seq<T>, k: nat)
    requires k < |a|
    ensures (a + b)[k] == a[k]
  {
  }

  lemma IndexRight<T>(a: seq<T>, b: seq<T>, k: nat)
    requires k < |b|
    ensures (a + b)[|a| + k] == b[k]
  {
  }

  /** The layout of `[h1, h2] + xs + [g1, g2] + ys`: two blocks, each a pair of
      header elements followed by its body, with the bodies of equal length. */
  lemma TwoBlocks<T>(h1: T, h2: T, xs: seq<T>, g1: T, g2: T, ys: seq<T>)
    requires |xs| == |ys|
    ensures var l := ([h1, h2] + xs) + ([g1, g2] + ys);
      && |l| == 4 + 2 * |xs|
      && l[0] == h1 && l[1] == h2 && l[2 + |xs|] == g1 && l[3 + |xs|] == g2
      && (forall k :: 0 <= k < |xs| ==> l[2 + k] == xs[k])
      && (forall k :: 0 <= k < |ys| ==> l[4 + |xs| + k] == ys[k])
  {
  }

  lemma SixElements<T>(e: seq<T>, x0: T, x1: T, x2: T, x3: T, x4: T, x5: T)
    requires |e| == 6 && e[0] == x0 && e[1] == x1 && e[2] == x2
    requires e[3] == x3 && e[4] == x4 && e[5] == x5
    ensures e == [x0, x1, x2, x3, x4, x5]
  {
  }

  /** The parts `part(x)` of the elements of `xs`, concatenated in order; `None`
      as soon as one element has no part. */
  function ConcatParts<X, Y>(xs: seq<X>, part: X -> Option<seq<Y>>): (r: Option<seq<Y>>)
    ensures r.Some? <==> forall i :: 0 <= i < |xs| ==> part(xs[i]).Some?
    decreases |xs|
  {
    if |xs| == 0 then Some([])
    else
      var first := part(xs[0]);
      var rest := ConcatParts(xs[1..], part);
      assert rest.Some? ==> forall i :: 1 <= i < |xs| ==> xs[1..][i - 1] == xs[i];
      if first.Some? && rest.Some? then Some(first.value + rest.value) else None
  }

  /** The sum of `size(x)` over the elements of `xs`. */
  function SizeSum<X>(xs: seq<X>, size: X -> nat): nat
    decreases |xs|
  {
    if |xs| == 0 then 0 else size(xs[0]) + SizeSum(xs[1..], size)
  }

  /** `size` tells how long each element's part is. */
  predicate SizesMatch<X, Y>(xs: seq<X>, part: X -> Option<seq<Y>>, size: X -> nat) {
    forall i :: 0 <= i < |xs| ==> part(xs[i]).Some? ==> |part(xs[i]).value| == size(xs[i])
  }

  /** The concatenation is as long as all parts together. */
  lemma {:induction false} ConcatPartsLength<X, Y>(xs: seq<X>, part: X -> Option<seq<Y>>, size: X -> nat)
    requires ConcatParts(xs, part).Some? && SizesMatch(xs, part, size)
    ensures |ConcatParts(xs, part).value| == SizeSum(xs, size)
    decreases |xs|
  {
    if |xs| > 0 {
      assert forall i :: 1 <= i < |xs| ==> xs[1..][i - 1] == xs[i];
      ConcatPartsLength(xs[1..], part, size);
    }
  }

  /** Element `j` of the part of `xs[i]` sits after the parts of all elements
      before `xs[i]`. */
  lemma {:induction false} ConcatPartsIndex<X, Y>(xs: seq<X>, part: X -> Option<seq<Y>>, size: X -> nat, i: nat, j: nat)
    requires ConcatParts(xs, part).Some? && SizesMatch(xs, part, size)
    requires i < |xs| && j < size(xs[i])
    ensures part(xs[i]).Some? && j < |part(xs[i]).value|
    ensures SizeSum(xs[..i], size) + j < |ConcatParts(xs, part).value|
    ensures ConcatParts(xs, part).value[SizeSum(xs[..i], size) + j] == part(xs[i]).value[j]
    decreases i
  {
    var first := part(xs[0]).value;
    var rest := ConcatParts(xs[1..], part).value;
    assert forall k :: 1 <= k < |xs| ==> xs[1..][k - 1] == xs[k];
    if i == 0 {
      assert xs[..0] == [];
      IndexLeft(first, rest, j);
    } else {
      ConcatPartsIndex(xs[1..], part, size, i - 1, j);
      assert xs[..i][0] == xs[0] && xs[..i][1..] == xs[1..][..i - 1];
      var k := SizeSum(xs[1..][..i - 1], size) + j;
      IndexRight(first, rest, k);
    }
  }
}
