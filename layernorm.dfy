/**
 * The layernorm gradient reduction for sequence parallelism: the main
 * gradients of all parameters flagged sequence-parallel, chunk by chunk and
 * parameter by parameter, are coalesced into one buffer, summed with one
 * all-reduce over the tensor-parallel group, and written back into the
 * original buffers.
 */
module LayerNorm {

  import opened Wrappers
  import opened Coalesce
  import opened Reduction
  import opened GradModel

  /** The reduction runs only with more than one tensor-parallel rank and sequence parallelism on. */
  predicate LayernormGuard(topo: Topology, config: Config)
  {
    topo.tensorParallelWorldSize > 1 && config.sequenceParallel
  }

  /** The flagged parameters of chunk c among params, in parameter order. */
  function ChunkFlaggedIds(c: nat, params: seq<Param>): (ids: seq<BufId>)
    ensures forall k :: 0 <= k < |ids| ==>
      ids[k].chunk == c && ids[k].param < |params| && params[ids[k].param].sequenceParallel
  {
    if params == [] then []
    else
      var n := |params| - 1;
      ChunkFlaggedIds(c, params[..n]) + (if params[n].sequenceParallel then [BufId(c, n)] else [])
  }

  /** The flagged parameters of the model, in chunk order and then parameter order. */
  function FlaggedIds(model: seq<Chunk>): (ids: seq<BufId>)
    ensures forall k :: 0 <= k < |ids| ==> ValidId(model, ids[k]) && Flagged(model, ids[k])
  {
    if model == [] then []
    else
      var n := |model| - 1;
      FlaggedIds(model[..n]) + ChunkFlaggedIds(n, model[n].params)
  }

  /** The buffers with the given identities, in the given order. */
  function Grads(model: seq<Chunk>, ids: seq<BufId>): (grads: seq<seq<int>>)
    requires forall k :: 0 <= k < |ids| ==> ValidId(model, ids[k])
    ensures |grads| == |ids|
    ensures forall k :: 0 <= k < |ids| ==> grads[k] == GradAt(model, ids[k])
  {
    if ids == [] then [] else Grads(model, ids[..|ids| - 1]) + [GradAt(model, ids[|ids| - 1])]
  }

  /** The list of buffers the reduction collects. */
  function Collected(model: seq<Chunk>): (grads: seq<seq<int>>)
  {
    Grads(model, FlaggedIds(model))
  }

  /** The coalesced buffer the reduction hands to the collective. */
  function Coalesced(model: seq<Chunk>): (flat: seq<int>)
  {
    Flatten(Collected(model))
  }

  /** The collected buffers of every member of a group. */
  function CollectedEach(members: seq<seq<Chunk>>): (lists: seq<seq<seq<int>>>)
    ensures |lists| == |members|
    ensures forall j :: 0 <= j < |members| ==> lists[j] == Collected(members[j])
  {
    seq(|members|, j requires 0 <= j < |members| => Collected(members[j]))
  }

  /** Each buffer identity of ids[..k] against the value of the same index, written in list order. */
  function WriteBack(model: seq<Chunk>, ids: seq<BufId>, vals: seq<seq<int>>): (r: seq<Chunk>)
    requires |ids| == |vals|
    requires forall k :: 0 <= k < |ids| ==> ValidId(model, ids[k])
    ensures SameLayout(model, r)
  {
    if ids == [] then model
    else
      var n := |ids| - 1;
      var m := WriteBack(model, ids[..n], vals[..n]);
      SameLayoutIds(model, m, ids[n]);
      SetGrad(m, ids[n], vals[n])
  }

  /** Collecting one more parameter of chunk c. */
  lemma ChunkFlaggedIdsSnoc(c: nat, params: seq<Param>, p: nat)
    requires p < |params|
    ensures ChunkFlaggedIds(c, params[..p + 1])
      == ChunkFlaggedIds(c, params[..p]) + (if params[p].sequenceParallel then [BufId(c, p)] else [])
  {
    assert params[..p + 1][..p] == params[..p];
  }

  /** Collecting one more chunk. */
  lemma FlaggedIdsSnoc(model: seq<Chunk>, c: nat)
    requires c < |model|
    ensures FlaggedIds(model[..c + 1]) == FlaggedIds(model[..c]) + ChunkFlaggedIds(c, model[c].params)
  {
    assert model[..c + 1][..c] == model[..c];
  }

  /** The buffers with the given identities hold the given values, index by index. */
  predicate BuffersHold(model: seq<Chunk>, ids: seq<BufId>, vals: seq<seq<int>>)
  {
    && (forall k :: 0 <= k < |ids| ==> ValidId(model, ids[k]))
    && |vals| == |ids|
    && (forall k :: 0 <= k < |ids| ==> vals[k] == GradAt(model, ids[k]))
  }

  /** Reading one more buffer. */
  lemma BuffersHoldSnoc(model: seq<Chunk>, ids: seq<BufId>, grads: seq<seq<int>>, id: BufId)
    requires BuffersHold(model, ids, grads) && ValidId(model, id)
    ensures BuffersHold(model, ids + [id], grads + [GradAt(model, id)])
  {
  }

  /** Values that the named buffers hold, index by index, are the ones Grads reads. */
  lemma BuffersHoldGrads(model: seq<Chunk>, ids: seq<BufId>, grads: seq<seq<int>>)
    requires BuffersHold(model, ids, grads)
    ensures grads == Grads(model, ids)
  {
  }

  /** Writing back one more buffer. */
  lemma WriteBackSnoc(model: seq<Chunk>, ids: seq<BufId>, vals: seq<seq<int>>, k: nat)
    requires |ids| == |vals| && k < |ids|
    requires forall j :: 0 <= j < |ids| ==> ValidId(model, ids[j])
    ensures ValidId(WriteBack(model, ids[..k], vals[..k]), ids[k])
    ensures WriteBack(model, ids[..k + 1], vals[..k + 1])
      == SetGrad(WriteBack(model, ids[..k], vals[..k]), ids[k], vals[k])
  {
    assert ids[..k + 1][..k] == ids[..k] && vals[..k + 1][..k] == vals[..k];
    SameLayoutIds(model, WriteBack(model, ids[..k], vals[..k]), ids[k]);
  }

  /** The layernorm phase as a function of the chunks and of the tensor-parallel group's contributions. */
  function LayernormStep(model: seq<Chunk>, topo: Topology, config: Config, tp: GroupInput): (s: Step)
    ensures SameLayout(model, s.model)
  {
    if !LayernormGuard(topo, config) then Step(model, [], Pass)
    else
      var ids := FlaggedIds(model);
      if ids == [] then Step(model, [], Fail(NothingToCoalesce))
      else
        var grads := Grads(model, ids);
        var call := AllReduce(TensorParallelGroup, ids);
        match AllReduceSum(Flatten(grads), tp)
        case None => Step(model, [call], Fail(CollectiveFailure(TensorParallelGroup)))
        case Some(synced) => Step(WriteBack(model, ids, Unflatten(synced, Sizes(grads))), [call], Pass)
  }

  predicate Precedes(a: BufId, b: BufId)
  {
    a.chunk < b.chunk || (a.chunk == b.chunk && a.param < b.param)
  }

  predicate StrictlyOrdered(ids: seq<BufId>)
  {
    forall i, j :: 0 <= i < j < |ids| ==> Precedes(ids[i], ids[j])
  }

  predicate Distinct(ids: seq<BufId>)
  {
    forall i, j :: 0 <= i < |ids| && 0 <= j < |ids| && i != j ==> ids[i] != ids[j]
  }

  lemma {:induction false} ChunkFlaggedIdsOrdered(c: nat, params: seq<Param>)
    ensures StrictlyOrdered(ChunkFlaggedIds(c, params))
  {
    if params != [] {
      ChunkFlaggedIdsOrdered(c, params[..|params| - 1]);
    }
  }

  lemma {:induction false} FlaggedIdsOrdered(model: seq<Chunk>)
    ensures StrictlyOrdered(FlaggedIds(model))
  {
    if model != [] {
      var n := |model| - 1;
      FlaggedIdsOrdered(model[..n]);
      ChunkFlaggedIdsOrdered(n, model[n].params);
    }
  }

  lemma {:induction false} ChunkFlaggedIdsComplete(c: nat, params: seq<Param>, p: nat)
    requires p < |params| && params[p].sequenceParallel
    ensures BufId(c, p) in ChunkFlaggedIds(c, params)
  {
    var n := |params| - 1;
    if p < n {
      ChunkFlaggedIdsComplete(c, params[..n], p);
    }
  }

  lemma {:induction false} FlaggedIdsComplete(model: seq<Chunk>, id: BufId)
    requires ValidId(model, id) && Flagged(model, id)
    ensures id in FlaggedIds(model)
  {
    var n := |model| - 1;
    if id.chunk < n {
      FlaggedIdsComplete(model[..n], id);
    } else {
      ChunkFlaggedIdsComplete(n, model[n].params, id.param);
    }
  }

  /**
   * The collected buffers are exactly those of the flagged parameters, each
   * once, in chunk order and then parameter order.
   */
  lemma FlaggedIdsExact(model: seq<Chunk>)
    ensures forall id :: id in FlaggedIds(model) <==> ValidId(model, id) && Flagged(model, id)
    ensures StrictlyOrdered(FlaggedIds(model))
    ensures Distinct(FlaggedIds(model))
  {
    forall id | ValidId(model, id) && Flagged(model, id)
      ensures id in FlaggedIds(model)
    {
      FlaggedIdsComplete(model, id);
    }
    FlaggedIdsOrdered(model);
  }

  /** Writing back distinct buffers sets each to its value and leaves every other buffer alone. */
  lemma {:induction false} WriteBackEffect(model: seq<Chunk>, ids: seq<BufId>, vals: seq<seq<int>>)
    requires |ids| == |vals|
    requires forall k :: 0 <= k < |ids| ==> ValidId(model, ids[k])
    requires Distinct(ids)
    ensures forall k :: 0 <= k < |ids| ==> GradAt(WriteBack(model, ids, vals), ids[k]) == vals[k]
    ensures forall o :: ValidId(model, o) && o !in ids ==> GradAt(WriteBack(model, ids, vals), o) == GradAt(model, o)
  {
    WriteBackWritten(model, ids, vals);
    WriteBackKeeps(model, ids, vals);
  }

  lemma {:induction false} WriteBackWritten(model: seq<Chunk>, ids: seq<BufId>, vals: seq<seq<int>>)
    requires |ids| == |vals|
    requires forall k :: 0 <= k < |ids| ==> ValidId(model, ids[k])
    requires Distinct(ids)
    ensures forall k :: 0 <= k < |ids| ==> GradAt(WriteBack(model, ids, vals), ids[k]) == vals[k]
  {
    if ids != [] {
      var n := |ids| - 1;
      var m := WriteBack(model, ids[..n], vals[..n]);
      WriteBackWritten(model, ids[..n], vals[..n]);
      SameLayoutIds(model, m, ids[n]);
      var w := SetGrad(m, ids[n], vals[n]);
      assert WriteBack(model, ids, vals) == w;
      forall k | 0 <= k < n
        ensures GradAt(w, ids[k]) == vals[k]
      {
        assert ids[..n][k] == ids[k] && vals[..n][k] == vals[k];
        SameLayoutIds(model, m, ids[k]);
      }
    }
  }

  lemma {:induction false} WriteBackKeeps(model: seq<Chunk>, ids: seq<BufId>, vals: seq<seq<int>>)
    requires |ids| == |vals|
    requires forall k :: 0 <= k < |ids| ==> ValidId(model, ids[k])
    ensures forall o :: ValidId(model, o) && o !in ids ==> GradAt(WriteBack(model, ids, vals), o) == GradAt(model, o)
  {
    if ids != [] {
      var n := |ids| - 1;
      var m := WriteBack(model, ids[..n], vals[..n]);
      WriteBackKeeps(model, ids[..n], vals[..n]);
      SameLayoutIds(model, m, ids[n]);
      forall o | ValidId(model, o) && o !in ids
        ensures GradAt(WriteBack(model, ids, vals), o) == GradAt(model, o)
      {
        assert o !in ids[..n];
        SameLayoutIds(model, m, o);
      }
    }
  }


  /** With the guard off the phase issues no collective and changes no buffer. */
  lemma LayernormNoOpUnlessEnabled(model: seq<Chunk>, topo: Topology, config: Config, tp: GroupInput)
    ensures !LayernormGuard(topo, config) ==> LayernormStep(model, topo, config, tp) == Step(model, [], Pass)
    ensures LayernormStep(model, topo, config, tp).model != model ==> LayernormGuard(topo, config)
  {
  }

  /**
   * At most one collective, over the tensor-parallel group, naming exactly the
   * flagged buffers; it is issued iff the guard holds and some parameter is
   * flagged.  With the guard on and nothing flagged the coalescing fails.
   */
  lemma LayernormSingleCollective(model: seq<Chunk>, topo: Topology, config: Config, tp: GroupInput)
    ensures var s := LayernormStep(model, topo, config, tp);
      && (s.calls != [] <==> LayernormGuard(topo, config) && FlaggedIds(model) != [])
      && (s.calls != [] ==> s.calls == [AllReduce(TensorParallelGroup, FlaggedIds(model))])
      && (LayernormGuard(topo, config) && FlaggedIds(model) == [] ==> s.outcome == Fail(NothingToCoalesce))
  {
  }

  /**
   * With the guard on and something flagged, the phase passes iff every
   * member's coalesced buffer has this worker's length; otherwise the
   * collective fails and no buffer is written.
   */
  lemma LayernormCollectiveOutcome(model: seq<Chunk>, topo: Topology, config: Config, tp: GroupInput)
    requires LayernormGuard(topo, config) && FlaggedIds(model) != []
    ensures var s := LayernormStep(model, topo, config, tp);
      var own := Coalesced(model);
      && (s.outcome == Pass <==> AllOfLength(Contributions(own, tp), |own|))
      && (s.outcome != Pass ==> s.outcome == Fail(CollectiveFailure(TensorParallelGroup)) && s.model == model)
  {
  }

  /** Buffers of parameters not flagged sequence-parallel are never changed by the phase. */
  lemma LayernormFrame(model: seq<Chunk>, topo: Topology, config: Config, tp: GroupInput)
    ensures var s := LayernormStep(model, topo, config, tp);
      forall o :: ValidId(model, o) && !Flagged(model, o) ==> GradAt(s.model, o) == GradAt(model, o)
  {
    var s := LayernormStep(model, topo, config, tp);
    FlaggedIdsExact(model);
    if LayernormGuard(topo, config) && FlaggedIds(model) != [] && s.outcome == Pass {
      var ids := FlaggedIds(model);
      var grads := Grads(model, ids);
      var synced := AllReduceSum(Flatten(grads), tp).value;
      WriteBackEffect(model, ids, Unflatten(synced, Sizes(grads)));
    }
  }

  /**
   * Member p of a tensor-parallel group whose members' collected buffers have
   * the same shapes: after the phase each of its flagged buffers holds the
   * element-wise sum of that buffer's values over all members, in one
   * collective call.
   */
  lemma LayernormGroupSum(members: seq<seq<Chunk>>, p: nat, topo: Topology, config: Config)
    requires LayernormGuard(topo, config)
    requires p < |members|
    requires FlaggedIds(members[p]) != []
    requires SameSizes(CollectedEach(members), Sizes(Collected(members[p])))
    ensures var s := LayernormStep(members[p], topo, config, PeersOf(FlattenEach(CollectedEach(members)), p));
      var ids := FlaggedIds(members[p]);
      && s.outcome == Pass
      && s.calls == [AllReduce(TensorParallelGroup, ids)]
      && BuffersHold(s.model, ids, SumEach(CollectedEach(members), Sizes(Collected(members[p]))))
  {
    var model := members[p];
    var lists := CollectedEach(members);
    var sizes := Sizes(Collected(model));
    var contribs := FlattenEach(lists);
    var ids := FlaggedIds(model);
    var sums := SumEach(lists, sizes);
    var tp := PeersOf(contribs, p);
    ReduceCoalesced(lists, sizes);
    GroupMembersAgree(contribs, Total(sizes), p);
    assert contribs[p] == Coalesced(model);
    assert AllReduceSum(Coalesced(model), tp) == Some(Flatten(sums));
    UnflattenFlatten(sums);
    assert Unflatten(Flatten(sums), sizes) == sums;
    var s := LayernormStep(model, topo, config, tp);
    assert s == Step(WriteBack(model, ids, sums), [AllReduce(TensorParallelGroup, ids)], Pass);
    FlaggedIdsExact(model);
    WriteBackEffect(model, ids, sums);
    var written := WriteBack(model, ids, sums);
    forall k | 0 <= k < |ids|
      ensures ValidId(written, ids[k])
    {
      SameLayoutIds(model, written, ids[k]);
    }
    assert |sums| == |ids|;
    assert forall k :: 0 <= k < |ids| ==> sums[k] == GradAt(written, ids[k]);
  }

  /** Buffer k of the per-buffer sums is the element-wise sum of every member's buffer k. */
  lemma SumEachAt(lists: seq<seq<seq<int>>>, sizes: seq<nat>, k: nat)
    requires SameSizes(lists, sizes) && k < |sizes|
    ensures forall j :: 0 <= j < |lists| ==> k < |lists[j]|
    ensures AllOfLength(Column(lists, k), sizes[k])
    ensures SumEach(lists, sizes)[k] == SumAll(Column(lists, k), sizes[k])
  {
    forall j | 0 <= j < |lists|
      ensures k < |lists[j]| && |lists[j][k]| == sizes[k]
    {
      assert Sizes(lists[j]) == sizes;
    }
  }

  /** Any two members of the group end the phase with the same values in their flagged buffers. */
  lemma LayernormGroupAgrees(members: seq<seq<Chunk>>, p: nat, q: nat, topo: Topology, config: Config)
    requires LayernormGuard(topo, config)
    requires p < |members| && q < |members|
    requires FlaggedIds(members[p]) != []
    requires SameSizes(CollectedEach(members), Sizes(Collected(members[p])))
    ensures var contribs := FlattenEach(CollectedEach(members));
      var sp := LayernormStep(members[p], topo, config, PeersOf(contribs, p));
      var sq := LayernormStep(members[q], topo, config, PeersOf(contribs, q));
      var sums := SumEach(CollectedEach(members), Sizes(Collected(members[p])));
      BuffersHold(sp.model, FlaggedIds(members[p]), sums) && BuffersHold(sq.model, FlaggedIds(members[q]), sums)
  {
    var lists := CollectedEach(members);
    var sizes := Sizes(Collected(members[p]));
    var contribs := FlattenEach(lists);
    assert Sizes(lists[q]) == sizes;
    assert Sizes(Collected(members[q])) == sizes;
    var sums := SumEach(lists, sizes);
    LayernormGroupSum(members, p, topo, config);
    LayernormGroupSum(members, q, topo, config);
  }

  /** Buffer id holds the element-wise sum of buffer k of every list. */
  predicate ColumnSumAt(model: seq<Chunk>, id: BufId, lists: seq<seq<seq<int>>>, k: nat)
  {
    && ValidId(model, id)
    && (forall j :: 0 <= j < |lists| ==> k < |lists[j]|)
    && AllOfLength(Column(lists, k), |GradAt(model, id)|)
    && GradAt(model, id) == SumAll(Column(lists, k), |GradAt(model, id)|)
  }

  /**
   * Flagged buffer k of member p ends the phase as the element-wise sum of
   * buffer k of every member's collected list, that is of every member's
   * k-th flagged buffer.
   */
  lemma LayernormBufferSum(members: seq<seq<Chunk>>, p: nat, topo: Topology, config: Config, k: nat)
    requires LayernormGuard(topo, config)
    requires p < |members|
    requires k < |FlaggedIds(members[p])|
    requires SameSizes(CollectedEach(members), Sizes(Collected(members[p])))
    ensures var lists := CollectedEach(members);
      ColumnSumAt(LayernormStep(members[p], topo, config, PeersOf(FlattenEach(lists), p)).model,
                  FlaggedIds(members[p])[k], lists, k)
  {
    var lists := CollectedEach(members);
    var model := members[p];
    var s := LayernormStep(model, topo, config, PeersOf(FlattenEach(lists), p));
    LayernormGroupSum(members, p, topo, config);
    HoldsColumnSum(s.model, FlaggedIds(model), lists, Sizes(Collected(model)), k);
  }

  /** Buffers holding the per-buffer sums hold, buffer by buffer, the sum of that buffer over all lists. */
  lemma HoldsColumnSum(model: seq<Chunk>, ids: seq<BufId>, lists: seq<seq<seq<int>>>, sizes: seq<nat>, k: nat)
    requires SameSizes(lists, sizes) && k < |ids|
    requires BuffersHold(model, ids, SumEach(lists, sizes))
    ensures ColumnSumAt(model, ids[k], lists, k)
  {
    SumEachAt(lists, sizes, k);
  }
}
