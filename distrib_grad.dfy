/**
 * One worker's gradient finalisation as it runs: the worker's chunks and
 * the calls it has issued are fields that each operation updates in place.
 * Every method is proved to leave exactly the state, trace and outcome that
 * the step functions of LayerNorm, Embedding and Finalize prescribe, so the
 * properties proved about those functions hold of the methods.
 */
module DistribGrad {

  import opened Wrappers
  import opened Coalesce
  import opened Reduction
  import opened GradModel
  import opened LayerNorm
  import opened Embedding
  import opened Finalize

  class Worker {
    /** The model chunks, with their main-gradient buffers. */
    var model: seq<Chunk>
    /** Every sync, collective and timer call issued so far, oldest first. */
    var trace: seq<Call>

    constructor(chunks: seq<Chunk>)
      ensures model == chunks && trace == []
    {
      model := chunks;
      trace := [];
    }

    /** A chunk's data-parallel gradient sync: recorded, the main gradients left as they are. */
    method SyncGradients(c: nat)
      requires c < |model|
      modifies this
      ensures model == old(model) && trace == old(trace) + [DataParallelSync(c)]
    {
      trace := trace + [DataParallelSync(c)];
    }

    /** Starts a phase's timer when a timer factory is configured. */
    method StartTimer(config: Config, phase: Phase)
      modifies this
      ensures model == old(model) && trace == old(trace) + TimerStarts(config, phase)
    {
      if config.timers {
        trace := trace + [TimerStart(phase, config.barrierWithL1Time)];
      }
    }

    /** Stops a phase's timer when a timer factory is configured. */
    method StopTimer(config: Config, phase: Phase)
      modifies this
      ensures model == old(model) && trace == old(trace) + TimerStops(config, phase)
    {
      if config.timers {
        trace := trace + [TimerStop(phase)];
      }
    }

    /**
     * A blocking all-reduce of value over a group whose other members
     * contribute peers: recorded under the buffers it reduces, and answered
     * with the element-wise sum, or nothing when the lengths disagree.
     */
    method Collective(group: Group, bufs: seq<BufId>, value: seq<int>, peers: GroupInput) returns (sum: Option<seq<int>>)
      modifies this
      ensures model == old(model) && trace == old(trace) + [AllReduce(group, bufs)]
      ensures sum == AllReduceSum(value, peers)
    {
      trace := trace + [AllReduce(group, bufs)];
      sum := AllReduceSum(value, peers);
    }

    /** Copies g into one main-gradient buffer. */
    method CopyInto(id: BufId, g: seq<int>)
      requires ValidId(model, id)
      modifies this
      ensures model == SetGrad(old(model), id, g) && trace == old(trace)
    {
      model := SetGrad(model, id, g);
    }

    /**
     * Walks the chunks in order and each chunk's parameters in order,
     * collecting every parameter flagged sequence-parallel and its main
     * gradient: exactly the flagged buffers, each once, in that order.
     */
    method CollectSequenceParallelGrads() returns (ids: seq<BufId>, grads: seq<seq<int>>)
      ensures ids == FlaggedIds(model)
      ensures forall k :: 0 <= k < |ids| ==> ValidId(model, ids[k]) && Flagged(model, ids[k])
      ensures grads == Collected(model)
    {
      var chunks := model;
      ids, grads := [], [];
      var c := 0;
      while c < |chunks|
        invariant 0 <= c <= |chunks|
        invariant ids == FlaggedIds(chunks[..c])
        invariant BuffersHold(chunks, ids, grads)
      {
        var params := chunks[c].params;
        ghost var earlier := ids;
        var p := 0;
        while p < |params|
          invariant 0 <= p <= |params|
          invariant ids == earlier + ChunkFlaggedIds(c, params[..p])
          invariant BuffersHold(chunks, ids, grads)
        {
          ChunkFlaggedIdsSnoc(c, params, p);
          if params[p].sequenceParallel {
            var id := BufId(c, p);
            BuffersHoldSnoc(chunks, ids, grads, id);
            ids := ids + [id];
            grads := grads + [params[p].mainGrad];
          }
          p := p + 1;
        }
        assert params[..|params|] == params;
        FlaggedIdsSnoc(chunks, c);
        c := c + 1;
      }
      assert chunks[..|chunks|] == chunks;
      BuffersHoldGrads(chunks, ids, grads);
    }

    /**
     * The layernorm reduction: when tensor parallelism spans more than one
     * rank and sequence parallelism is on, the flagged buffers are
     * collected, coalesced, all-reduced once over the tensor-parallel group,
     * and the synced values copied back buffer by buffer.
     */
    method AllreduceLayernormGrads(topo: Topology, config: Config, tp: GroupInput) returns (outcome: Outcome)
      modifies this
      ensures var s := LayernormStep(old(model), topo, config, tp);
        model == s.model && trace == old(trace) + s.calls && outcome == s.outcome
    {
      if !LayernormGuard(topo, config) {
        return Pass;
      }
      var ids, grads := CollectSequenceParallelGrads();
      if ids == [] {
        return Fail(NothingToCoalesce);
      }
      var coalesced := Flatten(grads);
      var reduced := Collective(TensorParallelGroup, ids, coalesced, tp);
      if reduced.None? {
        return Fail(CollectiveFailure(TensorParallelGroup));
      }
      var synced := Unflatten(reduced.value, Sizes(grads));
      CopyBack(ids, synced);
      return Pass;
    }

    /** Copies each synced value into the buffer of the same index, in list order. */
    method CopyBack(ids: seq<BufId>, synced: seq<seq<int>>)
      requires |ids| == |synced|
      requires forall k :: 0 <= k < |ids| ==> ValidId(model, ids[k])
      modifies this
      ensures model == WriteBack(old(model), ids, synced) && trace == old(trace)
    {
      var k := 0;
      while k < |ids|
        invariant 0 <= k <= |ids|
        invariant model == WriteBack(old(model), ids[..k], synced[..k])
        invariant trace == old(trace)
      {
        WriteBackSnoc(old(model), ids, synced, k);
        CopyInto(ids[k], synced[k]);
        k := k + 1;
      }
      assert ids[..|ids|] == ids && synced[..|synced|] == synced;
    }

    /** One in-place all-reduce of a single main-gradient buffer. */
    method ReduceInPlace(id: BufId, group: Group, peers: GroupInput) returns (outcome: Outcome)
      requires ValidId(model, id)
      modifies this
      ensures var s := ReduceBuffer(old(model), id, group, peers);
        model == s.model && trace == old(trace) + s.calls && outcome == s.outcome
    {
      var reduced := Collective(group, [id], GradAt(model, id), peers);
      if reduced.None? {
        return Fail(CollectiveFailure(group));
      }
      CopyInto(id, reduced.value);
      return Pass;
    }

    /** The tied word-embedding reduction over the embedding group, from this stage's representative chunk. */
    method AllreduceWordEmbeddingGrads(topo: Topology, emb: GroupInput) returns (outcome: Outcome)
      modifies this
      ensures var s := WordEmbeddingStep(old(model), topo, emb);
        model == s.model && trace == old(trace) + s.calls && outcome == s.outcome
    {
      if !WordEmbeddingGuard(topo) {
        return Pass;
      }
      if model == [] {
        return Fail(EmptyModel);
      }
      var r := Representative(topo, |model|);
      if !model[r].shareEmbeddingsAndOutputWeights {
        return Pass;
      }
      var weight := SharedWeightId(model, r);
      if weight.None? {
        return Fail(MissingSharedWeight);
      }
      outcome := ReduceInPlace(weight.value, EmbeddingGroup, emb);
    }

    /** The position-embedding reduction over its group, always from the first chunk. */
    method AllreducePositionEmbeddingGrads(topo: Topology, config: Config, pos: GroupInput) returns (outcome: Outcome)
      modifies this
      ensures var s := PositionEmbeddingStep(old(model), topo, config, pos);
        model == s.model && trace == old(trace) + s.calls && outcome == s.outcome
    {
      if !PositionEmbeddingGuard(topo, config) {
        return Pass;
      }
      if model == [] {
        return Fail(EmptyModel);
      }
      var weight := PositionEmbeddingId(model);
      if weight.None? {
        return Fail(MissingPositionEmbedding);
      }
      outcome := ReduceInPlace(weight.value, PositionEmbeddingGroup, pos);
    }

    /** The word embeddings, then the position embeddings. */
    method AllreduceEmbeddingGrads(topo: Topology, config: Config, emb: GroupInput, pos: GroupInput) returns (outcome: Outcome)
      modifies this
      ensures var s := EmbeddingStep(old(model), topo, config, emb, pos);
        model == s.model && trace == old(trace) + s.calls && outcome == s.outcome
    {
      outcome := AllreduceWordEmbeddingGrads(topo, emb);
      if outcome.Fail? {
        return;
      }
      ghost var mid := trace;
      outcome := AllreducePositionEmbeddingGrads(topo, config, pos);
      assert trace == old(trace) + (trace[|old(trace)|..|mid|] + trace[|mid|..]);
    }

    /** The data-parallel sync of every chunk in order, inside its timer when timers are configured. */
    method SyncAllChunks(config: Config)
      modifies this
      ensures model == old(model)
      ensures trace == old(trace) + TimedSync(config, |model|)
    {
      StartTimer(config, AllGradsSync);
      var c := 0;
      while c < |model|
        invariant 0 <= c <= |model|
        invariant model == old(model)
        invariant trace == old(trace) + TimerStarts(config, AllGradsSync) + SyncCalls(c)
      {
        SyncGradients(c);
        assert SyncCalls(c + 1) == SyncCalls(c) + [DataParallelSync(c)];
        c := c + 1;
      }
      StopTimer(config, AllGradsSync);
    }

    /** The layernorm reduction inside its timer; the timer is stopped only if the reduction did not fail. */
    method TimedLayernormGrads(topo: Topology, config: Config, tp: GroupInput) returns (outcome: Outcome)
      modifies this
      ensures var s := LayernormStep(old(model), topo, config, tp);
        model == s.model && trace == old(trace) + Timed(config, LayernormGradsAllReduce, s) && outcome == s.outcome
    {
      ghost var s := LayernormStep(model, topo, config, tp);
      StartTimer(config, LayernormGradsAllReduce);
      ghost var started := trace;
      outcome := AllreduceLayernormGrads(topo, config, tp);
      ghost var reduced := trace;
      if outcome.Pass? {
        StopTimer(config, LayernormGradsAllReduce);
      }
      TimedExtends(config, LayernormGradsAllReduce, s, old(trace), started, reduced, trace);
    }

    /** The embedding reductions inside their timer; the timer is stopped only if they did not fail. */
    method TimedEmbeddingGrads(topo: Topology, config: Config, emb: GroupInput, pos: GroupInput) returns (outcome: Outcome)
      modifies this
      ensures var s := EmbeddingStep(old(model), topo, config, emb, pos);
        model == s.model && trace == old(trace) + Timed(config, EmbeddingGradsAllReduce, s) && outcome == s.outcome
    {
      ghost var s := EmbeddingStep(model, topo, config, emb, pos);
      StartTimer(config, EmbeddingGradsAllReduce);
      ghost var started := trace;
      outcome := AllreduceEmbeddingGrads(topo, config, emb, pos);
      ghost var reduced := trace;
      if outcome.Pass? {
        StopTimer(config, EmbeddingGradsAllReduce);
      }
      TimedExtends(config, EmbeddingGradsAllReduce, s, old(trace), started, reduced, trace);
    }

    /**
     * Gradient finalisation: every chunk's data-parallel sync, then the
     * layernorm reduction, then the embedding reductions, each phase inside
     * its timer when timers are configured.  An empty model fails before
     * anything is issued, since the configuration is read from chunk 0.
     */
    method FinalizeModelGrads(topo: Topology, config: Config, peers: Peers) returns (outcome: Outcome)
      modifies this
      ensures var s := FinalizeStep(old(model), topo, config, peers);
        model == s.model && trace == old(trace) + s.calls && outcome == s.outcome
    {
      if model == [] {
        return Fail(EmptyModel);
      }
      ghost var ln := LayernormStep(model, topo, config, peers.tensorParallel);
      ghost var emb := EmbeddingStep(ln.model, topo, config, peers.embedding, peers.positionEmbedding);
      SyncAllChunks(config);
      ghost var synced := trace;
      outcome := TimedLayernormGrads(topo, config, peers.tensorParallel);
      ghost var reduced := trace;
      if outcome.Pass? {
        outcome := TimedEmbeddingGrads(topo, config, peers.embedding, peers.positionEmbedding);
      }
      ComposeTrace(config, |old(model)|, ln, emb, old(trace), synced, reduced, trace);
    }
  }
}
