/** Contiguous batching as the scrapers do it: Python slices, the loop
    `for i in range(0, len(xs), size): xs[i:i + size]`, and the boundaries
    `np.append(np.arange(begin, end, size), end)` of data_download.py. */
module Batching {
  import opened PyValues

  /** A Python slice bound for a sequence of length `n`: a negative bound
      counts from the end, then the bound is clamped to `[0, n]`. */
  function SliceBound(i: int, n: nat): (b: nat)
    ensures b <= n
    ensures 0 <= i <= n ==> b == i
  {
    if i < 0 then (if i + n < 0 then 0 else i + n)
    else if i > n then n
    else i
  }

  /** Python's `xs[i:j]` (step 1). */
  function PySlice<T>(xs: seq<T>, i: int, j: int): (r: seq<T>)
    ensures |r| <= |xs|
    ensures 0 <= i <= j <= |xs| ==> r == xs[i..j]
    ensures 0 <= i && |xs| <= i ==> r == []
  {
    var a := SliceBound(i, |xs|);
    var b := SliceBound(j, |xs|);
    if a <= b then xs[a..b] else []
  }

  /** For non-negative bounds, slicing is additive: `xs[i:k] == xs[i:j] + xs[j:k]`. */
  lemma SliceSplit<T>(xs: seq<T>, i: int, j: int, k: int)
    requires 0 <= i <= j <= k
    ensures PySlice(xs, i, k) == PySlice(xs, i, j) + PySlice(xs, j, k)
  {
    var n := |xs|;
    if j <= n && k <= n {
      assert xs[i..k] == xs[i..j] + xs[j..k];
    } else if j <= n {
      assert PySlice(xs, j, k) == xs[j..];
      if i <= n {
        assert xs[i..] == xs[i..j] + xs[j..];
      }
    }
  }

  // ---------------------------------------------------------------------------
  // for i in range(0, len(xs), size): batch = xs[i:i + size]

  /** The batches from position `i` on. */
  function SlicesFrom<T>(xs: seq<T>, size: nat, i: nat): seq<seq<T>>
    requires size > 0
    decreases |xs| - i
  {
    if i >= |xs| then [] else [PySlice(xs, i, i + size)] + SlicesFrom(xs, size, i + size)
  }

  /** The batches of the whole list. */
  function Slices<T>(xs: seq<T>, size: nat): seq<seq<T>>
    requires size > 0
  {
    SlicesFrom(xs, size, 0)
  }

  /** The batches cover `xs[i:]` exactly once, in order; each one is non-empty
      and holds `size` elements, except that the last may be shorter. */
  lemma {:induction false} SlicesFromCover<T>(xs: seq<T>, size: nat, i: nat)
    requires size > 0 && i <= |xs|
    ensures Concat(SlicesFrom(xs, size, i)) == xs[i..]
    ensures var bs := SlicesFrom(xs, size, i);
      forall k :: 0 <= k < |bs| ==> 0 < |bs[k]| <= size && (k < |bs| - 1 ==> |bs[k]| == size)
    decreases |xs| - i
  {
    if i < |xs| {
      var bs := SlicesFrom(xs, size, i);
      if i + size <= |xs| {
        SlicesFromCover(xs, size, i + size);
        assert xs[i..] == xs[i..i + size] + xs[i + size..];
        var rest := SlicesFrom(xs, size, i + size);
        assert bs == [xs[i..i + size]] + rest;
        assert forall k :: 1 <= k < |bs| ==> bs[k] == rest[k - 1];
      } else {
        assert SlicesFrom(xs, size, i + size) == [];
        assert PySlice(xs, i, i + size) == xs[i..|xs|] == xs[i..];
        assert bs == [PySlice(xs, i, i + size)] + SlicesFrom(xs, size, i + size);
        assert bs == [xs[i..]];
        assert Concat(bs) == xs[i..] + Concat(bs[1..]);
      }
    }
  }

  lemma SlicesCover<T>(xs: seq<T>, size: nat)
    requires size > 0
    ensures Concat(Slices(xs, size)) == xs
    ensures var bs := Slices(xs, size);
      forall k :: 0 <= k < |bs| ==> 0 < |bs[k]| <= size && (k < |bs| - 1 ==> |bs[k]| == size)
  {
    SlicesFromCover(xs, size, 0);
  }

  // ---------------------------------------------------------------------------
  // np.append(np.arange(begin, end, size), end)

  /** `np.arange(begin, end, step)` for a positive step. */
  function Arange(begin: int, end: int, step: nat): (r: seq<int>)
    requires step > 0
    decreases end - begin
  {
    if begin >= end then [] else [begin] + Arange(begin + step, end, step)
  }

  /** The batch boundaries of `process_batches`. */
  function Boundaries(begin: int, end: int, step: nat): seq<int>
    requires step > 0
  {
    Arange(begin, end, step) + [end]
  }

  /** Consecutive elements of `np.arange` differ by `step`; they start at
      `begin`, stay below `end`, and the last one is within `step` of `end`. */
  lemma {:induction false} ArangeSteps(begin: int, end: int, step: nat)
    requires step > 0
    ensures var a := Arange(begin, end, step);
      && (forall i :: 0 <= i < |a| ==> begin <= a[i] < end)
      && (forall i :: 0 <= i < |a| - 1 ==> a[i + 1] == a[i] + step)
      && (|a| > 0 <==> begin < end)
      && (|a| > 0 ==> a[0] == begin && end <= a[|a| - 1] + step)
    decreases end - begin
  {
    if begin < end {
      ArangeSteps(begin + step, end, step);
      var a := Arange(begin, end, step);
      var rest := Arange(begin + step, end, step);
      assert a == [begin] + rest;
      assert forall i :: 1 <= i < |a| ==> a[i] == rest[i - 1];
    }
  }

  /** The boundaries run from `begin` to `end`, strictly increasing, in steps
      of exactly `step` except for a last step of at most `step`; when
      `begin >= end` the only boundary is `end`, so there is no batch. */
  lemma BoundariesPartition(begin: int, end: int, step: nat)
    requires step > 0
    ensures var b := Boundaries(begin, end, step);
      && |b| >= 1 && b[|b| - 1] == end
      && (begin >= end ==> b == [end])
      && (begin < end ==> b[0] == begin)
      && (begin <= end ==> forall i :: 0 <= i < |b| ==> begin <= b[i] <= end)
      && (forall i :: 0 <= i < |b| - 1 ==> b[i] < b[i + 1] && b[i + 1] - b[i] <= step)
      && (forall i :: 0 <= i < |b| - 2 ==> b[i + 1] - b[i] == step)
  {
    ArangeSteps(begin, end, step);
    var a := Arange(begin, end, step);
    var b := Boundaries(begin, end, step);
    assert forall i :: 0 <= i < |a| ==> b[i] == a[i];
  }
}
