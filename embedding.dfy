/**
 * The embedding gradient reductions across pipeline stages: the word
 * embedding tied to the output layer, reduced over the embedding group from
 * the representative chunk of this stage, and, for encoder/decoder splits,
 * the position embedding, reduced over the position-embedding group from the
 * first chunk.
 */
module Embedding {

  import opened Wrappers
  import opened Reduction
  import opened GradModel

  /** The word-embedding reduction runs only on embedding-group members of a real pipeline. */
  predicate WordEmbeddingGuard(topo: Topology)
  {
    topo.inEmbeddingGroup && topo.pipelineParallelWorldSize > 1
  }

  /** The position-embedding reduction also needs an encoder/decoder split rank. */
  predicate PositionEmbeddingGuard(topo: Topology, config: Config)
  {
    topo.inPositionEmbeddingGroup && topo.pipelineParallelWorldSize > 1 && config.pipelineSplitRank.Some?
  }

  /** The chunk holding this stage's copy of the tied weight, among n chunks. */
  function Representative(topo: Topology, n: nat): (r: nat)
    requires n > 0
    ensures r < n
  {
    if topo.isFirstStage then 0
    else if topo.isLastStage then n - 1
    else 0  // interior stage: the interleaved schedule is not supported here
  }

  /** The shared embedding/output weight of chunk r, when the lookup resolves it. */
  function SharedWeightId(model: seq<Chunk>, r: nat): (id: Option<BufId>)
    requires r < |model|
    ensures id.Some? ==> ValidId(model, id.value) && id.value.chunk == r
  {
    var w := model[r].sharedWeight;
    if w.Some? && w.value < |model[r].params| then Some(BufId(r, w.value)) else None
  }

  /** The position-embedding weight of the first chunk, when the lookup resolves it. */
  function PositionEmbeddingId(model: seq<Chunk>): (id: Option<BufId>)
    requires model != []
    ensures id.Some? ==> ValidId(model, id.value) && id.value.chunk == 0
  {
    var w := model[0].positionEmbedding;
    if w.Some? && w.value < |model[0].params| then Some(BufId(0, w.value)) else None
  }

  /** One in-place all-reduce of a single buffer over a group. */
  function ReduceBuffer(model: seq<Chunk>, id: BufId, group: Group, peers: GroupInput): (s: Step)
    requires ValidId(model, id)
    ensures SameLayout(model, s.model)
  {
    var call := AllReduce(group, [id]);
    match AllReduceSum(GradAt(model, id), peers)
    case None => Step(model, [call], Fail(CollectiveFailure(group)))
    case Some(sum) => Step(SetGrad(model, id, sum), [call], Pass)
  }

  function WordEmbeddingStep(model: seq<Chunk>, topo: Topology, emb: GroupInput): (s: Step)
    ensures SameLayout(model, s.model)
  {
    if !WordEmbeddingGuard(topo) then Step(model, [], Pass)
    else if model == [] then Step(model, [], Fail(EmptyModel))
    else
      var r := Representative(topo, |model|);
      if !model[r].shareEmbeddingsAndOutputWeights then Step(model, [], Pass)
      else
        match SharedWeightId(model, r)
        case None => Step(model, [], Fail(MissingSharedWeight))
        case Some(id) => ReduceBuffer(model, id, EmbeddingGroup, emb)
  }

  function PositionEmbeddingStep(model: seq<Chunk>, topo: Topology, config: Config, pos: GroupInput): (s: Step)
    ensures SameLayout(model, s.model)
  {
    if !PositionEmbeddingGuard(topo, config) then Step(model, [], Pass)
    else if model == [] then Step(model, [], Fail(EmptyModel))
    else
      match PositionEmbeddingId(model)
      case None => Step(model, [], Fail(MissingPositionEmbedding))
      case Some(id) => ReduceBuffer(model, id, PositionEmbeddingGroup, pos)
  }

  /** Word embeddings first; the position embeddings only if that did not fail, on its result. */
  function EmbeddingStep(model: seq<Chunk>, topo: Topology, config: Config, emb: GroupInput, pos: GroupInput): (s: Step)
    ensures SameLayout(model, s.model)
  {
    var word := WordEmbeddingStep(model, topo, emb);
    if word.outcome.Fail? then word
    else
      var position := PositionEmbeddingStep(word.model, topo, config, pos);
      Step(position.model, word.calls + position.calls, position.outcome)
  }

  /**
   * The reduced buffer, when the members' buffers agree in length, holds the
   * sum of all members' contributions and no other buffer changes; otherwise
   * no buffer changes and the collective fails.
   */
  lemma ReduceBufferEffect(model: seq<Chunk>, id: BufId, group: Group, peers: GroupInput)
    requires ValidId(model, id)
    ensures var s := ReduceBuffer(model, id, group, peers);
      var own := GradAt(model, id);
      && s.calls == [AllReduce(group, [id])]
      && (AllOfLength(Contributions(own, peers), |own|) ==>
            s.outcome == Pass && ValidId(s.model, id) && GradAt(s.model, id) == SumAll(Contributions(own, peers), |own|))
      && (!AllOfLength(Contributions(own, peers), |own|) ==>
            s.outcome == Fail(CollectiveFailure(group)) && s.model == model)
      && forall o :: ValidId(model, o) && o != id ==> ValidId(s.model, o) && GradAt(s.model, o) == GradAt(model, o)
  {
    var s := ReduceBuffer(model, id, group, peers);
    forall o | ValidId(model, o)
      ensures ValidId(s.model, o)
    {
      SameLayoutIds(model, s.model, o);
    }
  }

  /** With the guard off the word-embedding phase issues no collective and changes nothing. */
  lemma WordEmbeddingNoOpUnlessEnabled(model: seq<Chunk>, topo: Topology, emb: GroupInput)
    ensures !WordEmbeddingGuard(topo) ==> WordEmbeddingStep(model, topo, emb) == Step(model, [], Pass)
    ensures WordEmbeddingStep(model, topo, emb).calls != [] ==> WordEmbeddingGuard(topo)
  {
  }

  /**
   * With the guard on and at least one chunk: the first stage uses its first
   * chunk, a last stage that is not first its last chunk, any other stage its
   * first chunk.  Exactly one collective, over the embedding group on that
   * chunk's shared weight, is issued iff the chunk ties its weights and the
   * weight resolves; a tied weight that does not resolve is an error.
   */
  lemma WordEmbeddingTarget(model: seq<Chunk>, topo: Topology, emb: GroupInput)
    requires WordEmbeddingGuard(topo) && model != []
    ensures var s := WordEmbeddingStep(model, topo, emb);
      var r := if topo.isLastStage && !topo.isFirstStage then |model| - 1 else 0;
      var tied := model[r].shareEmbeddingsAndOutputWeights;
      && |s.calls| <= 1
      && (s.calls != [] <==> tied && SharedWeightId(model, r).Some?)
      && (s.calls != [] ==> s.calls == [AllReduce(EmbeddingGroup, [BufId(r, model[r].sharedWeight.value)])])
      && (s.calls == [] ==> s.model == model)
      && (!tied ==> s.outcome == Pass)
      && (tied && SharedWeightId(model, r).None? ==> s.outcome == Fail(MissingSharedWeight))
  {
  }

  /** The position-embedding phase reduces chunk 0's position weight iff its three conditions hold and it resolves. */
  lemma PositionEmbeddingTarget(model: seq<Chunk>, topo: Topology, config: Config, pos: GroupInput)
    ensures var s := PositionEmbeddingStep(model, topo, config, pos);
      && |s.calls| <= 1
      && (s.calls != [] <==> PositionEmbeddingGuard(topo, config) && model != [] && PositionEmbeddingId(model).Some?)
      && (s.calls != [] ==> s.calls == [AllReduce(PositionEmbeddingGroup, [BufId(0, model[0].positionEmbedding.value)])])
      && (s.calls == [] ==> s.model == model)
      && (!PositionEmbeddingGuard(topo, config) ==> s.outcome == Pass)
      && (PositionEmbeddingGuard(topo, config) && model != [] && PositionEmbeddingId(model).None? ==>
            s.outcome == Fail(MissingPositionEmbedding))
  {
  }

  /**
   * The embedding phase issues at most one word-embedding collective and at
   * most one position-embedding collective, and the word-embedding one first.
   */
  lemma EmbeddingPhaseOrder(model: seq<Chunk>, topo: Topology, config: Config, emb: GroupInput, pos: GroupInput)
    ensures var s := EmbeddingStep(model, topo, config, emb, pos);
      && (forall i :: 0 <= i < |s.calls| ==> s.calls[i].AllReduce? && s.calls[i].group != TensorParallelGroup)
      && (forall i, j :: 0 <= i < j < |s.calls| ==>
            s.calls[i].group == EmbeddingGroup && s.calls[j].group == PositionEmbeddingGroup)
  {
    var word := WordEmbeddingStep(model, topo, emb);
    WordEmbeddingNoOpUnlessEnabled(model, topo, emb);
    if word.outcome.Pass? {
      PositionEmbeddingTarget(word.model, topo, config, pos);
      if model != [] && WordEmbeddingGuard(topo) {
        WordEmbeddingTarget(model, topo, emb);
      }
    }
  }

  /** This worker reduces a tied weight: it is a pipelined embedding-group member whose representative chunk ties it. */
  predicate ReducesSharedWeight(model: seq<Chunk>, topo: Topology)
  {
    && WordEmbeddingGuard(topo)
    && model != []
    && model[Representative(topo, |model|)].shareEmbeddingsAndOutputWeights
    && SharedWeightId(model, Representative(topo, |model|)).Some?
  }

  function SharedId(model: seq<Chunk>, topo: Topology): (id: BufId)
    requires ReducesSharedWeight(model, topo)
    ensures ValidId(model, id)
  {
    SharedWeightId(model, Representative(topo, |model|)).value
  }

  /** The tied-weight gradients of the members of an embedding group, in rank order. */
  function SharedGrads(models: seq<seq<Chunk>>, topos: seq<Topology>): (grads: seq<seq<int>>)
    requires |models| == |topos|
    requires forall j :: 0 <= j < |models| ==> ReducesSharedWeight(models[j], topos[j])
    ensures |grads| == |models|
    ensures forall j :: 0 <= j < |models| ==> grads[j] == GradAt(models[j], SharedId(models[j], topos[j]))
  {
    seq(|models|, j requires 0 <= j < |models| => GradAt(models[j], SharedId(models[j], topos[j])))
  }

  /**
   * Every member of an embedding group ends the word-embedding phase with its
   * tied-weight gradient equal to the sum of all members' tied-weight
   * gradients, whatever its rank: the replicas of the tied weight agree.
   */
  lemma TiedEmbeddingGroupSum(models: seq<seq<Chunk>>, topos: seq<Topology>, p: nat, n: nat)
    requires |models| == |topos| && p < |models|
    requires forall j :: 0 <= j < |models| ==> ReducesSharedWeight(models[j], topos[j])
    requires AllOfLength(SharedGrads(models, topos), n)
    ensures var s := WordEmbeddingStep(models[p], topos[p], PeersOf(SharedGrads(models, topos), p));
      var id := SharedId(models[p], topos[p]);
      && s.outcome == Pass
      && s.calls == [AllReduce(EmbeddingGroup, [id])]
      && ValidId(s.model, id) && GradAt(s.model, id) == SumAll(SharedGrads(models, topos), n)
      && forall o :: ValidId(models[p], o) && o != id ==> ValidId(s.model, o) && GradAt(s.model, o) == GradAt(models[p], o)
  {
    var grads := SharedGrads(models, topos);
    assert ReducesSharedWeight(models[p], topos[p]);
    GroupMembersAgree(grads, n, p);
    ReduceBufferEffect(models[p], SharedId(models[p], topos[p]), EmbeddingGroup, PeersOf(grads, p));
  }

  /**
   * Buffer o is one the embedding phase may reduce: the shared weight of the
   * representative chunk or the position weight of the first chunk.
   */
  predicate EmbeddingWeight(model: seq<Chunk>, topo: Topology, o: BufId)
  {
    && model != []
    && (|| (o.chunk == Representative(topo, |model|) && model[o.chunk].sharedWeight == Some(o.param))
        || (o.chunk == 0 && model[0].positionEmbedding == Some(o.param)))
  }

  /** Which buffers are embedding weights, and which worker reduces a tied weight, depends only on the layout. */
  lemma EmbeddingLayout(a: seq<Chunk>, b: seq<Chunk>, topo: Topology)
    requires SameLayout(a, b)
    ensures forall o :: EmbeddingWeight(a, topo, o) == EmbeddingWeight(b, topo, o)
    ensures ReducesSharedWeight(a, topo) == ReducesSharedWeight(b, topo)
    ensures ReducesSharedWeight(a, topo) ==> SharedId(a, topo) == SharedId(b, topo)
    ensures a != [] ==> PositionEmbeddingId(a) == PositionEmbeddingId(b)
  {
    if a != [] {
      assert SameChunkLayout(a[0], b[0]);
      assert SameChunkLayout(a[Representative(topo, |a|)], b[Representative(topo, |b|)]);
    }
  }

  /** The embedding phase changes no buffer but the embedding weights. */
  lemma EmbeddingFrame(model: seq<Chunk>, topo: Topology, config: Config, emb: GroupInput, pos: GroupInput)
    ensures var s := EmbeddingStep(model, topo, config, emb, pos);
      forall o :: ValidId(model, o) && !EmbeddingWeight(model, topo, o) ==>
        ValidId(s.model, o) && GradAt(s.model, o) == GradAt(model, o)
  {
    var word := WordEmbeddingStep(model, topo, emb);
    if WordEmbeddingGuard(topo) && model != [] {
      var r := Representative(topo, |model|);
      if model[r].shareEmbeddingsAndOutputWeights && SharedWeightId(model, r).Some? {
        ReduceBufferEffect(model, SharedWeightId(model, r).value, EmbeddingGroup, emb);
      }
    }
    assert forall o :: ValidId(model, o) && !EmbeddingWeight(model, topo, o) ==>
      ValidId(word.model, o) && GradAt(word.model, o) == GradAt(model, o);
    if word.outcome.Pass? {
      EmbeddingLayout(model, word.model, topo);
      if PositionEmbeddingGuard(topo, config) && model != [] && PositionEmbeddingId(word.model).Some? {
        ReduceBufferEffect(word.model, PositionEmbeddingId(word.model).value, PositionEmbeddingGroup, pos);
      }
    }
  }
}
