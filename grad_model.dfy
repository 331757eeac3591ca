/**
 * The state one worker holds during gradient finalisation: its ordered model
 * chunks, each a list of parameters with a main-gradient buffer; the
 * topology facts it consults; the configuration it reads; and the calls it
 * issues, recorded as a trace.
 */
module GradModel {

  import opened Wrappers

  /** A parameter: its sequence-parallel flag (false when it carries none) and its main-gradient buffer. */
  datatype Param = Param(sequenceParallel: bool, mainGrad: seq<int>)

  /**
   * One model chunk (virtual pipeline stage) of this worker.  Besides its
   * parameters it records what the reducers find by unwrapping the chunk:
   * whether its innermost module ties the embedding and output weights, the
   * parameter that is that shared weight, and the parameter that is the
   * position-embedding weight.  None, or an index past the parameters, is an
   * attribute the lookup cannot resolve.
   */
  datatype Chunk = Chunk(
    params: seq<Param>,
    shareEmbeddingsAndOutputWeights: bool,
    sharedWeight: Option<nat>,
    positionEmbedding: Option<nat>)

  /** The identity of a gradient buffer: the parameter's chunk and its position in the chunk. */
  datatype BufId = BufId(chunk: nat, param: nat)

  /** What the topology tells this worker; stage and group membership ignore virtual stages. */
  datatype Topology = Topology(
    tensorParallelWorldSize: nat,
    pipelineParallelWorldSize: nat,
    inEmbeddingGroup: bool,
    inPositionEmbeddingGroup: bool,
    isFirstStage: bool,
    isLastStage: bool)

  /** The configuration fields read: timers stands for a timer factory being present. */
  datatype Config = Config(
    sequenceParallel: bool,
    pipelineSplitRank: Option<int>,
    timers: bool,
    barrierWithL1Time: bool)

  datatype Group = TensorParallelGroup | EmbeddingGroup | PositionEmbeddingGroup

  /** The three timed phases: 'all-grads-sync', 'layernorm-grads-all-reduce', 'embedding-grads-all-reduce'. */
  datatype Phase = AllGradsSync | LayernormGradsAllReduce | EmbeddingGradsAllReduce

  /** An entry of the call trace. */
  datatype Call =
    | DataParallelSync(chunk: nat)
    | AllReduce(group: Group, bufs: seq<BufId>)
    | TimerStart(phase: Phase, barrier: bool)
    | TimerStop(phase: Phase)

  /** The exceptions a step can end with; each aborts the rest of the step. */
  datatype Error =
    | EmptyModel
    | NothingToCoalesce
    | MissingSharedWeight
    | MissingPositionEmbedding
    | CollectiveFailure(group: Group)

  datatype Outcome = Pass | Fail(error: Error)

  /** The chunks after a phase, the calls it issued, and how it ended. */
  datatype Step = Step(model: seq<Chunk>, calls: seq<Call>, outcome: Outcome)

  predicate ValidId(model: seq<Chunk>, id: BufId)
  {
    id.chunk < |model| && id.param < |model[id.chunk].params|
  }

  function GradAt(model: seq<Chunk>, id: BufId): (grad: seq<int>)
    requires ValidId(model, id)
  {
    model[id.chunk].params[id.param].mainGrad
  }

  predicate Flagged(model: seq<Chunk>, id: BufId)
    requires ValidId(model, id)
  {
    model[id.chunk].params[id.param].sequenceParallel
  }

  predicate SameChunkLayout(x: Chunk, y: Chunk)
  {
    && x.shareEmbeddingsAndOutputWeights == y.shareEmbeddingsAndOutputWeights
    && x.sharedWeight == y.sharedWeight
    && x.positionEmbedding == y.positionEmbedding
    && |x.params| == |y.params|
    && forall p :: 0 <= p < |x.params| ==> x.params[p].sequenceParallel == y.params[p].sequenceParallel
  }

  /** Two models agree on everything except the contents of gradient buffers. */
  predicate SameLayout(a: seq<Chunk>, b: seq<Chunk>)
  {
    |a| == |b| && forall c :: 0 <= c < |a| ==> SameChunkLayout(a[c], b[c])
  }

  /** Overwrites one gradient buffer in place. */
  function SetGrad(model: seq<Chunk>, id: BufId, g: seq<int>): (r: seq<Chunk>)
    requires ValidId(model, id)
    ensures SameLayout(model, r)
    ensures ValidId(r, id) && GradAt(r, id) == g
    ensures forall o :: ValidId(model, o) && o != id ==> GradAt(r, o) == GradAt(model, o)
  {
    var chunk := model[id.chunk];
    var param := chunk.params[id.param];
    model[id.chunk := chunk.(params := chunk.params[id.param := param.(mainGrad := g)])]
  }

  /** Buffer identities and flags carry over between models with the same layout. */
  lemma SameLayoutIds(a: seq<Chunk>, b: seq<Chunk>, id: BufId)
    requires SameLayout(a, b) && ValidId(a, id)
    ensures ValidId(b, id) && Flagged(b, id) == Flagged(a, id)
  {
    assert SameChunkLayout(a[id.chunk], b[id.chunk]);
  }

  lemma SameLayoutTransitive(a: seq<Chunk>, b: seq<Chunk>, c: seq<Chunk>)
    requires SameLayout(a, b) && SameLayout(b, c)
    ensures SameLayout(a, c)
  {
    forall i | 0 <= i < |a|
      ensures SameChunkLayout(a[i], c[i])
    {
      assert SameChunkLayout(a[i], b[i]) && SameChunkLayout(b[i], c[i]);
    }
  }
}
