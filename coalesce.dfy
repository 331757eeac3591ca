/**
 * Coalescing of gradient buffers, as the layernorm reduction uses it: a list
 * of buffers is flattened into one contiguous buffer (the buffers' elements,
 * buffer after buffer, in list order) and a contiguous buffer is split back
 * into consecutive pieces of the original element counts.  A buffer is a
 * sequence of integers; its shape is reduced to its element count.
 */
module Coalesce {

  /** The element count of every buffer, in list order: the shape metadata the split uses. */
  function Sizes(bufs: seq<seq<int>>): (sizes: seq<nat>)
    ensures |sizes| == |bufs|
    ensures forall k :: 0 <= k < |bufs| ==> sizes[k] == |bufs[k]|
  {
    seq(|bufs|, k requires 0 <= k < |bufs| => |bufs[k]|)
  }

  /** The sum of a list of element counts. */
  function Total(sizes: seq<nat>): (total: nat)
  {
    if sizes == [] then 0 else sizes[0] + Total(sizes[1..])
  }

  /** The coalesced buffer; its length is the sum of the buffers' lengths. */
  function Flatten(bufs: seq<seq<int>>): (flat: seq<int>)
    ensures |flat| == Total(Sizes(bufs))
  {
    if bufs == [] then []
    else
      assert Sizes(bufs)[1..] == Sizes(bufs[1..]);
      bufs[0] + Flatten(bufs[1..])
  }

  /**
   * Splits a contiguous buffer into consecutive pieces of the given element
   * counts.  The buffer must hold at least that many elements; elements past
   * the last piece are not part of any piece.
   */
  function Unflatten(flat: seq<int>, sizes: seq<nat>): (bufs: seq<seq<int>>)
    requires Total(sizes) <= |flat|
    ensures Sizes(bufs) == sizes
  {
    if sizes == [] then []
    else
      var piece := flat[..sizes[0]];
      var rest := Unflatten(flat[sizes[0]..], sizes[1..]);
      SizesCons(piece, rest);
      assert [sizes[0]] + sizes[1..] == sizes;
      [piece] + rest
  }

  lemma SizesCons(buf: seq<int>, rest: seq<seq<int>>)
    ensures Sizes([buf] + rest) == [|buf|] + Sizes(rest)
  {
    var bufs := [buf] + rest;
    var l, r := Sizes(bufs), [|buf|] + Sizes(rest);
    forall k | 0 <= k < |bufs|
      ensures l[k] == r[k]
    {
      if k > 0 {
        assert bufs[k] == rest[k - 1];
      }
    }
  }

  /** Every list flattened: the coalesced buffers of several lists, one per list. */
  function FlattenEach(lists: seq<seq<seq<int>>>): (flats: seq<seq<int>>)
    ensures |flats| == |lists|
    ensures forall j :: 0 <= j < |lists| ==> flats[j] == Flatten(lists[j])
  {
    seq(|lists|, j requires 0 <= j < |lists| => Flatten(lists[j]))
  }

  /** Splitting the coalesced buffer by the original element counts gives back every buffer, in order. */
  lemma {:induction false} UnflattenFlatten(bufs: seq<seq<int>>)
    ensures Unflatten(Flatten(bufs), Sizes(bufs)) == bufs
  {
    if bufs != [] {
      var flat := Flatten(bufs);
      assert flat[..|bufs[0]|] == bufs[0];
      assert flat[|bufs[0]|..] == Flatten(bufs[1..]);
      assert Sizes(bufs)[1..] == Sizes(bufs[1..]);
      UnflattenFlatten(bufs[1..]);
    }
  }

  /** Flattening the pieces of a split that uses up the whole buffer gives back the buffer. */
  lemma {:induction false} FlattenUnflatten(flat: seq<int>, sizes: seq<nat>)
    requires Total(sizes) == |flat|
    ensures Flatten(Unflatten(flat, sizes)) == flat
  {
    if sizes != [] {
      var pieces := Unflatten(flat, sizes);
      assert pieces[1..] == Unflatten(flat[sizes[0]..], sizes[1..]);
      FlattenUnflatten(flat[sizes[0]..], sizes[1..]);
      assert flat == flat[..sizes[0]] + flat[sizes[0]..];
    }
  }
}
