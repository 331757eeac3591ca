/**
 * Gradient finalisation for one training step on one worker: every chunk's
 * data-parallel sync in chunk order, then the layernorm reduction, then the
 * embedding reductions, each phase optionally inside a named timer.
 */
module Finalize {

  import opened Wrappers
  import opened Coalesce
  import opened Reduction
  import opened GradModel
  import opened LayerNorm
  import opened Embedding

  /** What the other members of each group contribute to this step's collectives. */
  datatype Peers = Peers(tensorParallel: GroupInput, embedding: GroupInput, positionEmbedding: GroupInput)

  /** The data-parallel sync of chunks 0 to n - 1, in order. */
  function SyncCalls(n: nat): (calls: seq<Call>)
    ensures |calls| == n
    ensures forall c :: 0 <= c < n ==> calls[c] == DataParallelSync(c)
  {
    seq(n, c requires 0 <= c < n => DataParallelSync(c))
  }

  function TimerStarts(config: Config, phase: Phase): (calls: seq<Call>)
  {
    if config.timers then [TimerStart(phase, config.barrierWithL1Time)] else []
  }

  function TimerStops(config: Config, phase: Phase): (calls: seq<Call>)
  {
    if config.timers then [TimerStop(phase)] else []
  }

  /** A phase inside its timer: the timer stops only if the phase did not fail. */
  function Timed(config: Config, phase: Phase, s: Step): (calls: seq<Call>)
  {
    TimerStarts(config, phase) + s.calls + (if s.outcome.Pass? then TimerStops(config, phase) else [])
  }

  /** The data-parallel sync of n chunks inside its timer. */
  function TimedSync(config: Config, n: nat): (calls: seq<Call>)
  {
    TimerStarts(config, AllGradsSync) + SyncCalls(n) + TimerStops(config, AllGradsSync)
  }

  /**
   * The step assembled from its phases: the timed syncs of n chunks, the
   * timed layernorm phase ln and, only if that did not fail, the timed
   * embedding phase emb, which runs on ln's buffers.  A failing phase ends
   * the step with its timer left running.
   */
  function Compose(config: Config, n: nat, ln: Step, emb: Step): (s: Step)
  {
    var lnCalls := TimedSync(config, n) + Timed(config, LayernormGradsAllReduce, ln);
    if ln.outcome.Fail? then Step(ln.model, lnCalls, ln.outcome)
    else Step(emb.model, lnCalls + Timed(config, EmbeddingGradsAllReduce, emb), emb.outcome)
  }

  /**
   * The step as a function of the chunks, the topology, the configuration and
   * the peers' contributions.  An empty model fails before anything is done,
   * as reading the configuration of chunk 0 does.
   */
  function FinalizeStep(model: seq<Chunk>, topo: Topology, config: Config, peers: Peers): (s: Step)
    ensures SameLayout(model, s.model)
  {
    if model == [] then Step(model, [], Fail(EmptyModel))
    else
      var ln := LayernormStep(model, topo, config, peers.tensorParallel);
      var emb := EmbeddingStep(ln.model, topo, config, peers.embedding, peers.positionEmbedding);
      SameLayoutTransitive(model, ln.model, emb.model);
      Compose(config, |model|, ln, emb)
  }

  /** A trace that grew by a timer start, the phase's calls and, if it passed, a timer stop, grew by the timed phase. */
  lemma TimedExtends(config: Config, phase: Phase, s: Step, t0: seq<Call>, t1: seq<Call>, t2: seq<Call>, t3: seq<Call>)
    requires t1 == t0 + TimerStarts(config, phase) && t2 == t1 + s.calls
    requires t3 == if s.outcome.Pass? then t2 + TimerStops(config, phase) else t2
    ensures t3 == t0 + Timed(config, phase, s)
  {
  }

  /**
   * A trace that grew by the timed sync, then the timed layernorm phase and,
   * if that passed, the timed embedding phase, grew by the composed step's
   * calls.
   */
  lemma ComposeTrace(config: Config, n: nat, ln: Step, emb: Step,
                     t0: seq<Call>, t1: seq<Call>, t2: seq<Call>, t3: seq<Call>)
    requires t1 == t0 + TimedSync(config, n)
    requires t2 == t1 + Timed(config, LayernormGradsAllReduce, ln)
    requires ln.outcome.Pass? ==> t3 == t2 + Timed(config, EmbeddingGradsAllReduce, emb)
    ensures t0 + Compose(config, n, ln, emb).calls == if ln.outcome.Pass? then t3 else t2
  {
    var sync := TimedSync(config, n);
    var lnCalls := Timed(config, LayernormGradsAllReduce, ln);
    assert t0 + (sync + lnCalls) == t0 + sync + lnCalls;
    if ln.outcome.Pass? {
      var embCalls := Timed(config, EmbeddingGradsAllReduce, emb);
      assert t0 + (sync + lnCalls + embCalls) == t0 + sync + lnCalls + embCalls;
    }
  }

  predicate IsTimer(call: Call)
  {
    call.TimerStart? || call.TimerStop?
  }

  predicate NoTimers(calls: seq<Call>)
  {
    forall i :: 0 <= i < |calls| ==> !IsTimer(calls[i])
  }

  /** The trace without its timer entries. */
  function Untimed(calls: seq<Call>): (r: seq<Call>)
    ensures NoTimers(r)
  {
    if calls == [] then []
    else (if IsTimer(calls[0]) then [] else [calls[0]]) + Untimed(calls[1..])
  }

  /**
   * The position of a non-timer call in the step's intended order for n
   * chunks: the sync of chunk c is c-th, then the tensor-parallel, the
   * embedding and the position-embedding collectives.
   */
  function Rank(call: Call, n: nat): (rank: nat)
  {
    match call
    case DataParallelSync(c) => c
    case AllReduce(group, _) =>
      (match group
       case TensorParallelGroup => n
       case EmbeddingGroup => n + 1
       case PositionEmbeddingGroup => n + 2)
    case _ => 0
  }

  /** Each call comes strictly after the previous one in the intended order. */
  predicate StrictlyRanked(calls: seq<Call>, n: nat)
  {
    forall i, j :: 0 <= i < j < |calls| ==> Rank(calls[i], n) < Rank(calls[j], n)
  }

  predicate RanksBelow(calls: seq<Call>, n: nat, bound: nat)
  {
    forall i :: 0 <= i < |calls| ==> Rank(calls[i], n) < bound
  }

  predicate RanksFrom(calls: seq<Call>, n: nat, bound: nat)
  {
    forall i :: 0 <= i < |calls| ==> bound <= Rank(calls[i], n)
  }

  lemma {:induction false} UntimedConcat(a: seq<Call>, b: seq<Call>)
    ensures Untimed(a + b) == Untimed(a) + Untimed(b)
  {
    if a == [] {
      assert a + b == b;
    } else {
      assert (a + b)[1..] == a[1..] + b;
      UntimedConcat(a[1..], b);
    }
  }

  lemma {:induction false} UntimedKeepsCalls(calls: seq<Call>)
    requires NoTimers(calls)
    ensures Untimed(calls) == calls
  {
    if calls != [] {
      UntimedKeepsCalls(calls[1..]);
    }
  }

  lemma RankedConcat(a: seq<Call>, b: seq<Call>, n: nat, bound: nat)
    requires StrictlyRanked(a, n) && StrictlyRanked(b, n)
    requires RanksBelow(a, n, bound) && RanksFrom(b, n, bound)
    ensures StrictlyRanked(a + b, n)
  {
    forall i, j | 0 <= i < j < |a + b|
      ensures Rank((a + b)[i], n) < Rank((a + b)[j], n)
    {
      if j < |a| {
      } else if i < |a| {
        assert Rank(a[i], n) < bound <= Rank(b[j - |a|], n);
      } else {
        assert Rank(b[i - |a|], n) < Rank(b[j - |a|], n);
      }
    }
  }

  lemma TimersOnly(config: Config, phase: Phase)
    ensures Untimed(TimerStarts(config, phase)) == [] && Untimed(TimerStops(config, phase)) == []
  {
  }

  /** A timed phase without its timer entries is the phase's own calls. */
  lemma UntimedTimed(config: Config, phase: Phase, s: Step)
    requires NoTimers(s.calls)
    ensures Untimed(Timed(config, phase, s)) == s.calls
  {
    var stops := if s.outcome.Pass? then TimerStops(config, phase) else [];
    TimersOnly(config, phase);
    UntimedKeepsCalls(s.calls);
    UntimedConcat(TimerStarts(config, phase), s.calls);
    UntimedConcat(TimerStarts(config, phase) + s.calls, stops);
  }

  /** The timed sync without its timer entries is the syncs. */
  lemma UntimedTimedSync(config: Config, n: nat)
    ensures Untimed(TimedSync(config, n)) == SyncCalls(n)
  {
    TimersOnly(config, AllGradsSync);
    UntimedKeepsCalls(SyncCalls(n));
    UntimedConcat(TimerStarts(config, AllGradsSync), SyncCalls(n));
    UntimedConcat(TimerStarts(config, AllGradsSync) + SyncCalls(n), TimerStops(config, AllGradsSync));
  }

  /** At most one collective, over the tensor-parallel group on the buffers ids. */
  predicate LayernormShaped(calls: seq<Call>, ids: seq<BufId>)
  {
    calls == [] || calls == [AllReduce(TensorParallelGroup, ids)]
  }

  /** Collectives only, none tensor-parallel, and any word-embedding one before any position-embedding one. */
  predicate EmbeddingShaped(calls: seq<Call>)
  {
    && (forall i :: 0 <= i < |calls| ==> calls[i].AllReduce? && calls[i].group != TensorParallelGroup)
    && (forall i, j :: 0 <= i < j < |calls| ==>
          calls[i].group == EmbeddingGroup && calls[j].group == PositionEmbeddingGroup)
  }

  /** The layernorm phase issues at most its one collective, on the flagged buffers. */
  lemma LayernormShape(model: seq<Chunk>, topo: Topology, config: Config, tp: GroupInput)
    ensures var ln := LayernormStep(model, topo, config, tp);
      LayernormShaped(ln.calls, FlaggedIds(model)) && NoTimers(ln.calls)
  {
    LayernormSingleCollective(model, topo, config, tp);
  }

  /** The embedding phase issues only its collectives, in order. */
  lemma EmbeddingShape(model: seq<Chunk>, topo: Topology, config: Config, emb: GroupInput, pos: GroupInput)
    ensures var s := EmbeddingStep(model, topo, config, emb, pos);
      EmbeddingShaped(s.calls) && NoTimers(s.calls)
  {
    EmbeddingPhaseOrder(model, topo, config, emb, pos);
  }

  /** The layernorm phase reads only the sequence-parallel flag of the configuration. */
  lemma LayernormConfigInert(model: seq<Chunk>, topo: Topology, config: Config, other: Config, tp: GroupInput)
    requires other.sequenceParallel == config.sequenceParallel
    ensures LayernormStep(model, topo, other, tp) == LayernormStep(model, topo, config, tp)
  {
  }

  /** The embedding phase reads only the split rank of the configuration. */
  lemma EmbeddingConfigInert(model: seq<Chunk>, topo: Topology, config: Config, other: Config, emb: GroupInput, pos: GroupInput)
    requires other.pipelineSplitRank == config.pipelineSplitRank
    ensures EmbeddingStep(model, topo, other, emb, pos) == EmbeddingStep(model, topo, config, emb, pos)
  {
  }

  /** Without timers the composed step's calls are the syncs, ln's calls and, if ln passed, emb's calls. */
  lemma UntimedCompose(config: Config, n: nat, ln: Step, emb: Step)
    requires NoTimers(ln.calls) && NoTimers(emb.calls)
    ensures Untimed(Compose(config, n, ln, emb).calls)
      == SyncCalls(n) + ln.calls + (if ln.outcome.Pass? then emb.calls else [])
  {
    var sync := TimedSync(config, n);
    var lnCalls := Timed(config, LayernormGradsAllReduce, ln);
    UntimedTimedSync(config, n);
    UntimedTimed(config, LayernormGradsAllReduce, ln);
    UntimedConcat(sync, lnCalls);
    if ln.outcome.Pass? {
      var embCalls := Timed(config, EmbeddingGradsAllReduce, emb);
      UntimedTimed(config, EmbeddingGradsAllReduce, emb);
      UntimedConcat(sync + lnCalls, embCalls);
    } else {
      assert SyncCalls(n) + ln.calls + [] == SyncCalls(n) + ln.calls;
    }
  }

  /** Without timers the step's calls are the syncs, the layernorm calls and, if it passed, the embedding calls. */
  lemma FinalizeUntimed(model: seq<Chunk>, topo: Topology, config: Config, peers: Peers)
    requires model != []
    ensures var s := FinalizeStep(model, topo, config, peers);
      var ln := LayernormStep(model, topo, config, peers.tensorParallel);
      var emb := EmbeddingStep(ln.model, topo, config, peers.embedding, peers.positionEmbedding);
      Untimed(s.calls) == SyncCalls(|model|) + ln.calls + (if ln.outcome.Pass? then emb.calls else [])
  {
    var ln := LayernormStep(model, topo, config, peers.tensorParallel);
    var emb := EmbeddingStep(ln.model, topo, config, peers.embedding, peers.positionEmbedding);
    LayernormShape(model, topo, config, peers.tensorParallel);
    EmbeddingShape(ln.model, topo, config, peers.embedding, peers.positionEmbedding);
    UntimedCompose(config, |model|, ln, emb);
  }

  /**
   * A timer-free trace for n chunks in the intended order: the sync of every
   * chunk c at position c, each call strictly after the previous one in
   * rank, and every tensor-parallel collective over exactly the buffers ids.
   */
  predicate PhaseOrdered(calls: seq<Call>, n: nat, ids: seq<BufId>)
  {
    && n <= |calls|
    && StrictlyRanked(calls, n)
    && (forall c :: 0 <= c < n ==> calls[c] == DataParallelSync(c))
    && (forall i :: 0 <= i < |calls| && calls[i].AllReduce? && calls[i].group == TensorParallelGroup ==>
          calls[i].bufs == ids)
  }

  /** Syncs in chunk order, then at most one tensor-parallel collective, then the embedding collectives in order. */
  lemma RankedPhases(n: nat, ln: seq<Call>, tail: seq<Call>, ids: seq<BufId>)
    requires LayernormShaped(ln, ids) && EmbeddingShaped(tail)
    ensures PhaseOrdered(SyncCalls(n) + ln + tail, n, ids)
  {
    var syncs := SyncCalls(n);
    assert StrictlyRanked(tail, n) && RanksFrom(tail, n, n + 1);
    assert StrictlyRanked(ln, n) && RanksBelow(ln, n, n + 1) && RanksFrom(ln, n, n);
    RankedConcat(ln, tail, n, n + 1);
    assert StrictlyRanked(syncs, n) && RanksBelow(syncs, n, n);
    RankedConcat(syncs, ln + tail, n, n);
    var calls := syncs + (ln + tail);
    assert syncs + ln + tail == calls;
  }

  /** A composed step whose phases issue their collectives in order is phase-ordered once its timers are removed. */
  lemma ComposeOrdered(config: Config, n: nat, ln: Step, emb: Step, ids: seq<BufId>)
    requires LayernormShaped(ln.calls, ids) && EmbeddingShaped(emb.calls)
    ensures PhaseOrdered(Untimed(Compose(config, n, ln, emb).calls), n, ids)
  {
    UntimedCompose(config, n, ln, emb);
    if ln.outcome.Pass? {
      RankedPhases(n, ln.calls, emb.calls, ids);
    } else {
      RankedPhases(n, ln.calls, [], ids);
    }
  }

  /**
   * Phase order: leaving the timers aside, the step issues every chunk's
   * data-parallel sync, in chunk order, strictly before the layernorm
   * collective, which comes strictly before the word-embedding collective,
   * itself strictly before the position-embedding one (so each collective at
   * most once); and the tensor-parallel collective names exactly the flagged
   * buffers.
   */
  lemma FinalizePhaseOrder(model: seq<Chunk>, topo: Topology, config: Config, peers: Peers)
    requires model != []
    ensures PhaseOrdered(Untimed(FinalizeStep(model, topo, config, peers).calls), |model|, FlaggedIds(model))
  {
    var ln := LayernormStep(model, topo, config, peers.tensorParallel);
    var emb := EmbeddingStep(ln.model, topo, config, peers.embedding, peers.positionEmbedding);
    LayernormShape(model, topo, config, peers.tensorParallel);
    EmbeddingShape(ln.model, topo, config, peers.embedding, peers.positionEmbedding);
    ComposeOrdered(config, |model|, ln, emb, FlaggedIds(model));
  }

  /**
   * The timers only add entries to the trace: with or without them, and with
   * or without the barrier, the step leaves the same buffers, ends the same
   * way and issues the same other calls.
   */
  lemma FinalizeTimersInert(model: seq<Chunk>, topo: Topology, config: Config, peers: Peers, timers: bool, barrier: bool)
    ensures var s1 := FinalizeStep(model, topo, config, peers);
      var s2 := FinalizeStep(model, topo, config.(timers := timers, barrierWithL1Time := barrier), peers);
      s1.model == s2.model && s1.outcome == s2.outcome && Untimed(s1.calls) == Untimed(s2.calls)
  {
    var other := config.(timers := timers, barrierWithL1Time := barrier);
    if model != [] {
      var ln := LayernormStep(model, topo, config, peers.tensorParallel);
      var emb := EmbeddingStep(ln.model, topo, config, peers.embedding, peers.positionEmbedding);
      LayernormConfigInert(model, topo, config, other, peers.tensorParallel);
      EmbeddingConfigInert(ln.model, topo, config, other, peers.embedding, peers.positionEmbedding);
      LayernormShape(model, topo, config, peers.tensorParallel);
      EmbeddingShape(ln.model, topo, config, peers.embedding, peers.positionEmbedding);
      ComposeTimersInert(config, other, |model|, ln, emb);
    }
  }

  /** The composed step's buffers, outcome and timer-free calls do not depend on the timer settings. */
  lemma ComposeTimersInert(config: Config, other: Config, n: nat, ln: Step, emb: Step)
    requires NoTimers(ln.calls) && NoTimers(emb.calls)
    ensures Compose(config, n, ln, emb).model == Compose(other, n, ln, emb).model
    ensures Compose(config, n, ln, emb).outcome == Compose(other, n, ln, emb).outcome
    ensures Untimed(Compose(config, n, ln, emb).calls) == Untimed(Compose(other, n, ln, emb).calls)
  {
    UntimedCompose(config, n, ln, emb);
    UntimedCompose(other, n, ln, emb);
  }

  /** A step that did not fail in its layernorm phase ends with the embedding phase's buffers and outcome. */
  lemma FinalizePassedLayernorm(model: seq<Chunk>, topo: Topology, config: Config, peers: Peers)
    requires model != []
    ensures var ln := LayernormStep(model, topo, config, peers.tensorParallel);
      var emb := EmbeddingStep(ln.model, topo, config, peers.embedding, peers.positionEmbedding);
      var s := FinalizeStep(model, topo, config, peers);
      ln.outcome.Pass? ==> s.model == emb.model && s.outcome == emb.outcome
  {
  }

  /**
   * Member p of a tensor-parallel group whose members' collected buffers have
   * the same shapes: at the end of the whole step, each of its flagged
   * buffers that the embedding phase does not reduce holds the sum of that
   * buffer over all members.
   */
  lemma FinalizeLayernormGroupSum(members: seq<seq<Chunk>>, p: nat, topo: Topology, config: Config, peers: Peers)
    requires LayernormGuard(topo, config)
    requires p < |members|
    requires FlaggedIds(members[p]) != []
    requires SameSizes(CollectedEach(members), Sizes(Collected(members[p])))
    requires peers.tensorParallel == PeersOf(FlattenEach(CollectedEach(members)), p)
    ensures var s := FinalizeStep(members[p], topo, config, peers);
      var ids := FlaggedIds(members[p]);
      forall k :: 0 <= k < |ids| && !EmbeddingWeight(members[p], topo, ids[k]) ==>
        ColumnSumAt(s.model, ids[k], CollectedEach(members), k)
  {
    var model := members[p];
    var ids := FlaggedIds(model);
    var ln := LayernormStep(model, topo, config, peers.tensorParallel);
    var emb := EmbeddingStep(ln.model, topo, config, peers.embedding, peers.positionEmbedding);
    LayernormGroupSum(members, p, topo, config);
    FinalizePassedLayernorm(model, topo, config, peers);
    EmbeddingFrame(ln.model, topo, config, peers.embedding, peers.positionEmbedding);
    EmbeddingLayout(model, ln.model, topo);
    forall k | 0 <= k < |ids| && !EmbeddingWeight(model, topo, ids[k])
      ensures ColumnSumAt(emb.model, ids[k], CollectedEach(members), k)
    {
      LayernormBufferSum(members, p, topo, config, k);
    }
  }

  /** Buffer id holds the element-wise sum of bufs. */
  predicate HoldsSum(model: seq<Chunk>, id: BufId, bufs: seq<seq<int>>, n: nat)
  {
    ValidId(model, id) && AllOfLength(bufs, n) && GradAt(model, id) == SumAll(bufs, n)
  }

  /**
   * Member p of an embedding group whose members all reduce their tied
   * weight: if its layernorm phase passes without touching the tied weight,
   * and it has no position embedding to reduce, it ends the whole step
   * holding the sum of all members' tied-weight gradients.
   */
  lemma FinalizeTiedEmbeddingGroupSum(
    models: seq<seq<Chunk>>, topos: seq<Topology>, p: nat, n: nat, config: Config, peers: Peers)
    requires |models| == |topos| && p < |models|
    requires forall j :: 0 <= j < |models| ==> ReducesSharedWeight(models[j], topos[j])
    requires AllOfLength(SharedGrads(models, topos), n)
    requires peers.embedding == PeersOf(SharedGrads(models, topos), p)
    requires LayernormStep(models[p], topos[p], config, peers.tensorParallel).outcome == Pass
    requires !Flagged(models[p], SharedId(models[p], topos[p]))
    requires !PositionEmbeddingGuard(topos[p], config)
    ensures var s := FinalizeStep(models[p], topos[p], config, peers);
      s.outcome == Pass && HoldsSum(s.model, SharedId(models[p], topos[p]), SharedGrads(models, topos), n)
  {
    var model, topo := models[p], topos[p];
    var grads := SharedGrads(models, topos);
    assert ReducesSharedWeight(model, topo);
    var id := SharedId(model, topo);
    var ln := LayernormStep(model, topo, config, peers.tensorParallel);
    LayernormFrame(model, topo, config, peers.tensorParallel);
    EmbeddingLayout(model, ln.model, topo);
    assert grads[p] == GradAt(ln.model, id);
    GroupMembersAgree(grads, n, p);
    ReduceBufferEffect(ln.model, id, EmbeddingGroup, peers.embedding);
    var word := WordEmbeddingStep(ln.model, topo, peers.embedding);
    assert word == ReduceBuffer(ln.model, id, EmbeddingGroup, peers.embedding);
    var emb := EmbeddingStep(ln.model, topo, config, peers.embedding, peers.positionEmbedding);
    assert emb.model == word.model && emb.outcome == Pass;
    FinalizePassedLayernorm(model, topo, config, peers);
  }

  /**
   * A two-stage pipeline with tied embeddings and no encoder/decoder split,
   * with any tensor-parallel size: if each stage's layernorm phase passes
   * without touching its tied weight, the first stage reduces its first
   * chunk's shared weight, the last stage its last chunk's, and both end the
   * step holding the sum of the two gradients.
   */
  lemma TwoStageTiedEmbeddings(
    first: seq<Chunk>, last: seq<Chunk>, topoFirst: Topology, topoLast: Topology,
    config: Config, peersFirst: Peers, peersLast: Peers)
    requires topoFirst.pipelineParallelWorldSize == 2 && topoFirst.inEmbeddingGroup
    requires topoFirst.isFirstStage && !topoFirst.isLastStage
    requires topoLast.pipelineParallelWorldSize == 2 && topoLast.inEmbeddingGroup
    requires !topoLast.isFirstStage && topoLast.isLastStage
    requires config.pipelineSplitRank.None?
    requires ReducesSharedWeight(first, topoFirst) && ReducesSharedWeight(last, topoLast)
    requires !Flagged(first, SharedId(first, topoFirst)) && !Flagged(last, SharedId(last, topoLast))
    requires LayernormStep(first, topoFirst, config, peersFirst.tensorParallel).outcome == Pass
    requires LayernormStep(last, topoLast, config, peersLast.tensorParallel).outcome == Pass
    requires |GradAt(first, SharedId(first, topoFirst))| == |GradAt(last, SharedId(last, topoLast))|
    requires peersFirst.embedding == GroupInput([], [GradAt(last, SharedId(last, topoLast))])
    requires peersLast.embedding == GroupInput([GradAt(first, SharedId(first, topoFirst))], [])
    ensures var gFirst := GradAt(first, SharedId(first, topoFirst));
      var gLast := GradAt(last, SharedId(last, topoLast));
      var sFirst := FinalizeStep(first, topoFirst, config, peersFirst);
      var sLast := FinalizeStep(last, topoLast, config, peersLast);
      && SharedId(first, topoFirst).chunk == 0
      && SharedId(last, topoLast).chunk == |last| - 1
      && sFirst.outcome == Pass && sLast.outcome == Pass
      && ValidId(sFirst.model, SharedId(first, topoFirst))
      && ValidId(sLast.model, SharedId(last, topoLast))
      && GradAt(sFirst.model, SharedId(first, topoFirst)) == Add(gFirst, gLast)
      && GradAt(sLast.model, SharedId(last, topoLast)) == Add(gFirst, gLast)
  {
    var gFirst := GradAt(first, SharedId(first, topoFirst));
    var gLast := GradAt(last, SharedId(last, topoLast));
    var n := |gFirst|;
    var models, topos := [first, last], [topoFirst, topoLast];
    assert SharedGrads(models, topos) == [gFirst, gLast];
    assert SumAll([gFirst, gLast], n) == Add(gFirst, gLast) by {
      assert [gFirst, gLast][..1] == [gFirst];
      assert [gFirst][..0] == [];
      assert SumAll([], n) == Zeros(n);
      assert SumAll([gFirst], n) == Add(Zeros(n), gFirst);
      assert Add(Zeros(n), gFirst) == gFirst;
    }
    assert PeersOf([gFirst, gLast], 0) == peersFirst.embedding;
    assert PeersOf([gFirst, gLast], 1) == peersLast.embedding;
    FinalizeTiedEmbeddingGroupSum(models, topos, 0, n, config, peersFirst);
    FinalizeTiedEmbeddingGroupSum(models, topos, 1, n, config, peersLast);
  }
}
