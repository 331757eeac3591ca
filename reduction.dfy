/**
 * The collective backend, abstracted: an all-reduce over a process group
 * replaces every member's buffer by the element-wise sum of all members'
 * buffers.  Gradients are integers, so the sum is exact and does not depend
 * on the order of addition.  A worker sees the group as the contributions of
 * the members ranked before it, its own buffer, and those ranked after it.
 */
module Reduction {

  import opened Wrappers
  import opened Coalesce

  /** A buffer of n zeros. */
  function Zeros(n: nat): (z: seq<int>)
    ensures |z| == n
    ensures forall i :: 0 <= i < n ==> z[i] == 0
  {
    seq(n, i => 0)
  }

  /** Element-wise sum of two buffers of one length. */
  function Add(a: seq<int>, b: seq<int>): (r: seq<int>)
    requires |a| == |b|
    ensures |r| == |a|
    ensures forall i :: 0 <= i < |a| ==> r[i] == a[i] + b[i]
  {
    seq(|a|, i requires 0 <= i < |a| => a[i] + b[i])
  }

  /** Every buffer of the list holds n elements. */
  predicate AllOfLength(bufs: seq<seq<int>>, n: nat)
  {
    forall j :: 0 <= j < |bufs| ==> |bufs[j]| == n
  }

  /** Element-wise sum of a list of buffers of n elements each. */
  function SumAll(bufs: seq<seq<int>>, n: nat): (r: seq<int>)
    requires AllOfLength(bufs, n)
    ensures |r| == n
  {
    if bufs == [] then Zeros(n) else Add(SumAll(bufs[..|bufs| - 1], n), bufs[|bufs| - 1])
  }

  /** What the other members of a group contribute to one collective, by rank order. */
  datatype GroupInput = GroupInput(before: seq<seq<int>>, after: seq<seq<int>>)

  /** All members' contributions, in rank order, when this worker contributes own. */
  function Contributions(own: seq<int>, group: GroupInput): (all: seq<seq<int>>)
  {
    group.before + [own] + group.after
  }

  /**
   * An in-place sum all-reduce issued with buffer own: the reduced buffer, or
   * None when the members' buffers differ in length, which the collective
   * cannot combine.
   */
  function AllReduceSum(own: seq<int>, group: GroupInput): (r: Option<seq<int>>)
    ensures r.Some? <==> AllOfLength(Contributions(own, group), |own|)
    ensures r.Some? ==> |r.value| == |own|
  {
    var all := Contributions(own, group);
    if AllOfLength(all, |own|) then Some(SumAll(all, |own|)) else None
  }

  /** The group as member p sees it, when the members contribute the given buffers in rank order. */
  function PeersOf(contribs: seq<seq<int>>, p: nat): (group: GroupInput)
    requires p < |contribs|
  {
    GroupInput(contribs[..p], contribs[p + 1..])
  }

  /** Buffer k of every list, list by list (each list must have a buffer k). */
  function Column(lists: seq<seq<seq<int>>>, k: nat): (col: seq<seq<int>>)
    requires forall j :: 0 <= j < |lists| ==> k < |lists[j]|
    ensures |col| == |lists|
    ensures forall j :: 0 <= j < |lists| ==> col[j] == lists[j][k]
  {
    seq(|lists|, j requires 0 <= j < |lists| => lists[j][k])
  }

  /** Every list has the given element counts. */
  predicate SameSizes(lists: seq<seq<seq<int>>>, sizes: seq<nat>)
  {
    forall j :: 0 <= j < |lists| ==> Sizes(lists[j]) == sizes
  }

  /** Buffer by buffer, the element-wise sum over all lists: what per-buffer all-reduces would produce. */
  function SumEach(lists: seq<seq<seq<int>>>, sizes: seq<nat>): (sums: seq<seq<int>>)
    requires SameSizes(lists, sizes)
    ensures Sizes(sums) == sizes
  {
    seq(|sizes|, k requires 0 <= k < |sizes| => SumAll(Column(lists, k), sizes[k]))
  }

  /** Element-wise sums of corresponding buffers of two lists with the same element counts. */
  function AddEach(xs: seq<seq<int>>, ys: seq<seq<int>>): (r: seq<seq<int>>)
    requires Sizes(xs) == Sizes(ys)
    ensures Sizes(r) == Sizes(xs)
  {
    seq(|xs|, k requires 0 <= k < |xs| => Add(xs[k], ys[k]))
  }

  /** One buffer of zeros per element count. */
  function ZerosEach(sizes: seq<nat>): (r: seq<seq<int>>)
    ensures Sizes(r) == sizes
  {
    seq(|sizes|, k requires 0 <= k < |sizes| => Zeros(sizes[k]))
  }

  /**
   * Every member receives the same reduced buffer, the sum of all members'
   * contributions, whichever rank it has: after the collective the members'
   * buffers are identical.
   */
  lemma GroupMembersAgree(contribs: seq<seq<int>>, n: nat, p: nat)
    requires AllOfLength(contribs, n)
    requires p < |contribs|
    ensures AllReduceSum(contribs[p], PeersOf(contribs, p)) == Some(SumAll(contribs, n))
  {
    assert Contributions(contribs[p], PeersOf(contribs, p)) == contribs;
  }

  lemma {:induction false} FlattenZeros(sizes: seq<nat>)
    ensures Flatten(ZerosEach(sizes)) == Zeros(Total(sizes))
  {
    if sizes != [] {
      FlattenZeros(sizes[1..]);
      assert ZerosEach(sizes)[1..] == ZerosEach(sizes[1..]);
    }
  }

  lemma {:induction false} AddFlatten(xs: seq<seq<int>>, ys: seq<seq<int>>)
    requires Sizes(xs) == Sizes(ys)
    ensures Add(Flatten(xs), Flatten(ys)) == Flatten(AddEach(xs, ys))
  {
    if xs != [] {
      assert Sizes(xs[1..]) == Sizes(xs)[1..];
      assert Sizes(ys[1..]) == Sizes(ys)[1..];
      AddFlatten(xs[1..], ys[1..]);
      assert AddEach(xs, ys)[1..] == AddEach(xs[1..], ys[1..]);
      assert Flatten(xs) == xs[0] + Flatten(xs[1..]);
      assert Flatten(ys) == ys[0] + Flatten(ys[1..]);
    }
  }

  lemma FlattenEachLengths(lists: seq<seq<seq<int>>>, sizes: seq<nat>)
    requires SameSizes(lists, sizes)
    ensures AllOfLength(FlattenEach(lists), Total(sizes))
  {
    forall j | 0 <= j < |lists|
      ensures |FlattenEach(lists)[j]| == Total(sizes)
    {
      assert Sizes(lists[j]) == sizes;
    }
  }

  /** Summing one more list into the per-buffer sums. */
  lemma SumEachSnoc(lists: seq<seq<seq<int>>>, sizes: seq<nat>)
    requires SameSizes(lists, sizes) && lists != []
    ensures SameSizes(lists[..|lists| - 1], sizes)
    ensures Sizes(lists[|lists| - 1]) == sizes
    ensures SumEach(lists, sizes) == AddEach(SumEach(lists[..|lists| - 1], sizes), lists[|lists| - 1])
  {
    var n := |lists| - 1;
    var init := lists[..n];
    forall k | 0 <= k < |sizes|
      ensures AddEach(SumEach(init, sizes), lists[n])[k] == SumEach(lists, sizes)[k]
    {
      assert Column(lists, k)[..n] == Column(init, k);
    }
  }

  /**
   * Reducing the coalesced buffers equals coalescing the per-buffer
   * reductions: one all-reduce of the flattened lists does the work of one
   * all-reduce per buffer.
   */
  lemma {:induction false} ReduceCoalesced(lists: seq<seq<seq<int>>>, sizes: seq<nat>)
    requires SameSizes(lists, sizes)
    ensures AllOfLength(FlattenEach(lists), Total(sizes))
    ensures SumAll(FlattenEach(lists), Total(sizes)) == Flatten(SumEach(lists, sizes))
  {
    FlattenEachLengths(lists, sizes);
    var total := Total(sizes);
    if lists == [] {
      assert SumEach(lists, sizes) == ZerosEach(sizes);
      FlattenZeros(sizes);
    } else {
      var n := |lists| - 1;
      var init := lists[..n];
      var flats := FlattenEach(lists);
      SumEachSnoc(lists, sizes);
      ReduceCoalesced(init, sizes);
      assert flats[..n] == FlattenEach(init);
      calc {
        SumAll(flats, total);
        Add(SumAll(flats[..n], total), flats[n]);
        Add(Flatten(SumEach(init, sizes)), Flatten(lists[n]));
        { AddFlatten(SumEach(init, sizes), lists[n]); }
        Flatten(AddEach(SumEach(init, sizes), lists[n]));
        Flatten(SumEach(lists, sizes));
      }
    }
  }
}
