/**
 * Sequences built block by block: the documents and record lists of the
 * generators are concatenations of one block per subject, per class or per
 * year, and these lemmas say where each block's items end up.
 */
module Seqs {

  /** The blocks one after the other. */
  function Concat<T>(blocks: seq<seq<T>>): seq<T> {
    if |blocks| == 0 then [] else Concat(blocks[..|blocks| - 1]) + blocks[|blocks| - 1]
  }

  /** Appending a block appends its items. */
  lemma ConcatSnoc<T>(blocks: seq<seq<T>>, b: seq<T>)
    ensures Concat(blocks + [b]) == Concat(blocks) + b
  {
    assert (blocks + [b])[..|blocks|] == blocks;
  }

  /** The concatenation of the first `k + 1` blocks is that of the first `k`, then block `k`. */
  lemma ConcatNext<T>(blocks: seq<seq<T>>, k: nat)
    requires k < |blocks|
    ensures Concat(blocks[..k + 1]) == Concat(blocks[..k]) + blocks[k]
  {
    assert blocks[..k + 1] == blocks[..k] + [blocks[k]];
    ConcatSnoc(blocks[..k], blocks[k]);
  }

  /** A loop that appends each of `items`, in order, to what is there. */
  method AppendEach<T>(front: seq<T>, items: seq<T>) returns (r: seq<T>)
    ensures r == front + items
  {
    r := front;
    for i := 0 to |items|
      invariant r == front + items[..i]
    {
      r := r + [items[i]];
    }
    assert items[..|items|] == items;
  }

  /** In a run of `m` blocks of width `w`, block `k < m` ends no later than the run. */
  lemma MulBlock(k: nat, m: nat, w: nat, i: nat)
    requires k < m && i < w
    ensures k * w + i < m * w
  {
    var d := m - k - 1;
    assert m * w == k * w + w + d * w;
  }

  /** Blocks of width `w` concatenate to `|blocks| * w` items. */
  lemma {:induction false} ConcatLength<T>(blocks: seq<seq<T>>, w: nat)
    requires forall j :: 0 <= j < |blocks| ==> |blocks[j]| == w
    ensures |Concat(blocks)| == |blocks| * w
  {
    if |blocks| > 0 {
      ConcatLength(blocks[..|blocks| - 1], w);
      assert |blocks| * w == (|blocks| - 1) * w + w;
    }
  }

  /** With blocks of width `w`, item `i` of block `k` sits at `k * w + i`. */
  lemma {:induction false} ConcatAt<T>(blocks: seq<seq<T>>, w: nat, k: nat, i: nat)
    requires forall j :: 0 <= j < |blocks| ==> |blocks[j]| == w
    requires k < |blocks| && i < w
    ensures |Concat(blocks)| == |blocks| * w
    ensures k * w + i < |Concat(blocks)| && Concat(blocks)[k * w + i] == blocks[k][i]
  {
    var init := blocks[..|blocks| - 1];
    ConcatLength(blocks, w);
    ConcatLength(init, w);
    if k < |init| {
      MulBlock(k, |init|, w, i);
      ConcatAt(init, w, k, i);
    } else {
      assert k * w == |init| * w;
    }
  }

  /** `ConcatAt` for an item known by its value. */
  lemma ConcatItem<T>(blocks: seq<seq<T>>, w: nat, k: nat, i: nat, x: T)
    requires forall j :: 0 <= j < |blocks| ==> |blocks[j]| == w
    requires k < |blocks| && i < w && blocks[k][i] == x
    ensures k * w + i < |Concat(blocks)| && Concat(blocks)[k * w + i] == x
  {
    ConcatAt(blocks, w, k, i);
  }

  /** Every item of the concatenation comes from one of the blocks. */
  lemma {:induction false} ConcatMember<T>(blocks: seq<seq<T>>, x: T)
    requires x in Concat(blocks)
    ensures exists k :: 0 <= k < |blocks| && x in blocks[k]
  {
    var init := blocks[..|blocks| - 1];
    if x !in blocks[|blocks| - 1] {
      ConcatMember(init, x);
      var k :| 0 <= k < |init| && x in init[k];
      assert blocks[k] == init[k];
    }
  }

  /** Concatenating two runs of blocks concatenates their items. */
  lemma {:induction false} ConcatAppend<T>(xs: seq<seq<T>>, ys: seq<seq<T>>)
    ensures Concat(xs + ys) == Concat(xs) + Concat(ys)
  {
    if |ys| > 0 {
      var init := ys[..|ys| - 1];
      ConcatAppend(xs, init);
      assert (xs + ys)[..|xs + ys| - 1] == xs + init;
    } else {
      assert xs + ys == xs;
    }
  }

  function Sum(xs: seq<nat>): nat {
    if |xs| == 0 then 0 else Sum(xs[..|xs| - 1]) + xs[|xs| - 1]
  }

  /** Blocks of `counts[i] * w` items each concatenate to `Sum(counts) * w` items. */
  lemma {:induction false} ConcatScaled<T>(blocks: seq<seq<T>>, counts: seq<nat>, w: nat)
    requires |counts| == |blocks|
    requires forall i :: 0 <= i < |blocks| ==> |blocks[i]| == counts[i] * w
    ensures |Concat(blocks)| == Sum(counts) * w
  {
    if |blocks| > 0 {
      var n := |blocks| - 1;
      ConcatScaled(blocks[..n], counts[..n], w);
      assert (Sum(counts[..n]) + counts[n]) * w == Sum(counts[..n]) * w + counts[n] * w;
    }
  }

  /** Blocks of at least `w` items each concatenate to at least `|blocks| * w` items. */
  lemma {:induction false} ConcatAtLeast<T>(blocks: seq<seq<T>>, w: nat)
    requires forall j :: 0 <= j < |blocks| ==> |blocks[j]| >= w
    ensures |Concat(blocks)| >= |blocks| * w
  {
    if |blocks| > 0 {
      ConcatAtLeast(blocks[..|blocks| - 1], w);
      assert |blocks| * w == (|blocks| - 1) * w + w;
    }
  }

  /** Every item of a block is an item of the concatenation. */
  lemma {:induction false} ConcatContains<T>(blocks: seq<seq<T>>, k: nat, x: T)
    requires k < |blocks| && x in blocks[k]
    ensures x in Concat(blocks)
  {
    if k < |blocks| - 1 {
      ConcatContains(blocks[..|blocks| - 1], k, x);
    }
  }

  /** Adding one more count. */
  lemma SumSnoc(xs: seq<nat>, x: nat)
    ensures Sum(xs + [x]) == Sum(xs) + x
  {
    assert (xs + [x])[..|xs|] == xs;
  }

  lemma SumPair(a: nat, b: nat)
    ensures Sum([a, b]) == a + b
  {
    SumSnoc([], a);
    SumSnoc([a], b);
    assert [] + [a] == [a] && [a] + [b] == [a, b];
  }

  /** `f`'s items for each of `xs`, one after the other. */
  function FlatMap<A, B>(f: A -> seq<B>, xs: seq<A>): seq<B> {
    if |xs| == 0 then [] else FlatMap(f, xs[..|xs| - 1]) + f(xs[|xs| - 1])
  }

  lemma FlatMapSnoc<A, B>(f: A -> seq<B>, xs: seq<A>, x: A)
    ensures FlatMap(f, xs + [x]) == FlatMap(f, xs) + f(x)
  {
    assert (xs + [x])[..|xs|] == xs;
  }

  lemma {:induction false} FlatMapAppend<A, B>(f: A -> seq<B>, xs: seq<A>, ys: seq<A>)
    ensures FlatMap(f, xs + ys) == FlatMap(f, xs) + FlatMap(f, ys)
    decreases |ys|
  {
    if |ys| == 0 {
      assert xs + ys == xs;
    } else {
      var init := ys[..|ys| - 1];
      var last := ys[|ys| - 1];
      assert xs + ys == (xs + init) + [last];
      assert ys == init + [last];
      FlatMapAppend(f, xs, init);
      FlatMapSnoc(f, xs + init, last);
      FlatMapSnoc(f, init, last);
    }
  }

  /** Every item comes from one of `xs`. */
  lemma {:induction false} FlatMapMember<A, B>(f: A -> seq<B>, xs: seq<A>, y: B) returns (i: nat)
    requires y in FlatMap(f, xs)
    ensures i < |xs| && y in f(xs[i])
  {
    var n := |xs| - 1;
    if y in f(xs[n]) {
      i := n;
    } else {
      i := FlatMapMember(f, xs[..n], y);
    }
  }

  /** When each of `xs` gives one item, item `i` is the one `xs[i]` gives. */
  lemma {:induction false} FlatMapSingletons<A, B>(f: A -> seq<B>, xs: seq<A>)
    requires forall i :: 0 <= i < |xs| ==> |f(xs[i])| == 1
    ensures |FlatMap(f, xs)| == |xs|
    ensures forall i :: 0 <= i < |xs| ==> FlatMap(f, xs)[i] == f(xs[i])[0]
  {
    if |xs| > 0 {
      var n := |xs| - 1;
      FlatMapSingletons(f, xs[..n]);
    }
  }
}
