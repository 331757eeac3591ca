# Gradient finalisation across parallelism groups, modelled in Dafny

This project models one worker's gradient finalisation after the backward
pass of a model split three ways: data-parallel replicas, tensor-parallel
shards and pipeline stages. `finalize_model_grads` runs three phases:

1. every model chunk's data-parallel gradient sync, in chunk order;
2. the layernorm reduction, which runs only when tensor parallelism spans
   more than one rank and sequence parallelism is on. It collects the main
   gradients of all parameters flagged `sequence_parallel`, in chunk order
   and then parameter order. It coalesces them into one contiguous buffer,
   sum-reduces that buffer with one all-reduce over the tensor-parallel
   group, and copies the synced pieces back into the original buffers;
3. the embedding reductions:
   - the tied word embedding, reduced over the embedding group. The chunk it
     is read from is the first chunk on the first stage and the last chunk on
     the last stage;
   - then, for encoder/decoder splits, the position embedding of the first
     chunk, reduced over the position-embedding group.

When a timer factory is configured, each phase runs inside a named timer.

The model has three layers:

- **Values.** Chunks, parameters, buffers, topology and configuration are
  plain datatypes (`GradModel`).
- **Step functions.** Each phase is a pure function returning the new chunks,
  the calls issued (syncs, collectives, timer starts and stops) and an
  outcome: `LayerNorm.LayernormStep`, `Embedding.EmbeddingStep` and
  `Finalize.FinalizeStep`. The properties the code promises are proved as
  lemmas about these functions.
- **Worker methods.** `DistribGrad.Worker` holds the chunks and the call
  trace as mutable fields. Its methods follow the source's loops and in-place
  copies. Each method is proved to leave exactly the state, the trace and the
  outcome that the matching step function prescribes.

The collective is modelled by what the other members of its group
contribute: the buffers of the members ranked before this worker and of those
ranked after it. An all-reduce replaces the buffer by the element-wise sum of
all contributions (`Reduction.AllReduceSum`). If the members' buffers differ
in length it fails.

The group lemmas supply every member's buffers together:
- `LayerNorm.LayernormGroupSum`, `LayerNorm.LayernormGroupAgrees`,
  `LayerNorm.LayernormBufferSum` and `Embedding.TiedEmbeddingGroupSum` show
  that every member ends its phase with the same sums;
- `Finalize.FinalizeLayernormGroupSum` and
  `Finalize.FinalizeTiedEmbeddingGroupSum` carry those sums to the end of
  the whole step. `Embedding.EmbeddingFrame` shows that the embedding phase
  overwrites no other buffer;
- `Finalize.TwoStageTiedEmbeddings` works one two-stage pipeline through the
  whole step, for any tensor-parallel size.

The docstring of `finalize_model_grads` describes the embedding reduction as
applying to stages that are "not tied". The code reduces the word-embedding
gradient only when the representative chunk ties its input embedding to its
output layer. The model follows the code.

In the table below, every source path is
`Megatron-LM-231007/megatron/core/pipeline_parallel/distrib_grad.py`.

## Model

| member | source | states |
|---|---|---|
| Coalesce.Flatten | Megatron-LM-231007/megatron/core/pipeline_parallel/distrib_grad.py:79 | The coalesced buffer is exactly as long as the collected buffers' element counts added up. |
| Coalesce.Unflatten | Megatron-LM-231007/megatron/core/pipeline_parallel/distrib_grad.py:81 | Splitting a buffer by a list of element counts gives pieces with exactly those counts, in order. |
| Coalesce.UnflattenFlatten | Megatron-LM-231007/megatron/core/pipeline_parallel/distrib_grad.py:79-81 | Splitting the coalesced buffer by the collected buffers' sizes gives back every collected buffer, in order. |
| Coalesce.FlattenUnflatten | Megatron-LM-231007/megatron/core/pipeline_parallel/distrib_grad.py:79-81 | Coalescing the pieces of a split that uses the whole buffer gives back the buffer. |
| Reduction.AllReduceSum | Megatron-LM-231007/megatron/core/pipeline_parallel/distrib_grad.py:80 | The all-reduce succeeds iff every member's buffer has the issuing buffer's length, and its result has that length. |
| Reduction.GroupMembersAgree | Megatron-LM-231007/megatron/core/pipeline_parallel/distrib_grad.py:39 | Whichever member issues it, the all-reduce of a group's buffers returns the element-wise sum over the whole group. |
| Reduction.ReduceCoalesced | Megatron-LM-231007/megatron/core/pipeline_parallel/distrib_grad.py:79-82 | When the members' collected buffers have the same sizes, summing their coalesced buffers equals coalescing the per-buffer sums. So one collective on the coalesced buffer reduces every buffer. |
| LayerNorm.LayernormGuard | Megatron-LM-231007/megatron/core/pipeline_parallel/distrib_grad.py:72 | The guard of the layernorm phase: more than one tensor-parallel rank and sequence parallelism on. It has no contract of its own; what it gates is stated by LayerNorm.LayernormNoOpUnlessEnabled and LayerNorm.LayernormSingleCollective. |
| LayerNorm.FlaggedIds | Megatron-LM-231007/megatron/core/pipeline_parallel/distrib_grad.py:73-78 | Every collected buffer identity names an existing parameter flagged sequence-parallel. |
| LayerNorm.FlaggedIdsExact | Megatron-LM-231007/megatron/core/pipeline_parallel/distrib_grad.py:73-78 | A buffer is collected iff its parameter is flagged. The collected list is strictly ordered by chunk and then by parameter, and has no duplicates. |
| LayerNorm.WriteBack | Megatron-LM-231007/megatron/core/pipeline_parallel/distrib_grad.py:81-82 | Writing values back into named buffers changes only gradient contents: every chunk keeps its parameters, flags and weight links. What each buffer then holds is LayerNorm.WriteBackEffect. |
| LayerNorm.LayernormStep | Megatron-LM-231007/megatron/core/pipeline_parallel/distrib_grad.py:67-82 | The phase changes only gradient contents, never the layout; its guard, its single collective, its outcome, its frame and its group sums are the lemmas that follow. |
| LayerNorm.LayernormNoOpUnlessEnabled | Megatron-LM-231007/megatron/core/pipeline_parallel/distrib_grad.py:72 | If tensor parallelism is not wider than one rank, or sequence parallelism is off, the phase issues nothing, changes nothing and passes. Any change of buffers implies the guard held. |
| LayerNorm.LayernormSingleCollective | Megatron-LM-231007/megatron/core/pipeline_parallel/distrib_grad.py:72-80 | The phase issues a collective iff the guard holds and some parameter is flagged. It then issues exactly one, over the tensor-parallel group, naming exactly the flagged buffers. With the guard on and nothing flagged, the coalescing fails. |
| LayerNorm.LayernormCollectiveOutcome | Megatron-LM-231007/megatron/core/pipeline_parallel/distrib_grad.py:79-82 | With the guard on and something flagged, the phase passes iff every member's coalesced buffer has this worker's length. Otherwise it fails with a collective failure and writes no buffer. |
| LayerNorm.WriteBackEffect | Megatron-LM-231007/megatron/core/pipeline_parallel/distrib_grad.py:81-82 | Copying synced values back gives each named buffer its own value. Every other buffer keeps its value. |
| LayerNorm.LayernormFrame | Megatron-LM-231007/megatron/core/pipeline_parallel/distrib_grad.py:73-82 | No buffer of an unflagged parameter is changed by the phase. |
| LayerNorm.LayernormGroupSum | Megatron-LM-231007/megatron/core/pipeline_parallel/distrib_grad.py:72-82 | For a tensor-parallel group whose members' collected buffers have the same shapes: after the phase, each flagged buffer of a member holds the element-wise sum of that buffer over all members. The phase issues one collective and passes. |
| LayerNorm.LayernormGroupAgrees | Megatron-LM-231007/megatron/core/pipeline_parallel/distrib_grad.py:72-82 | Any two members of such a group end the phase with the same values in their flagged buffers. |
| LayerNorm.LayernormBufferSum | Megatron-LM-231007/megatron/core/pipeline_parallel/distrib_grad.py:73-82 | Flagged buffer k of a member ends the phase as the element-wise sum of buffer k of every member's collected list, that is of each member's own k-th flagged buffer; every member's buffer k has the same length. |
| Embedding.WordEmbeddingGuard | Megatron-LM-231007/megatron/core/pipeline_parallel/distrib_grad.py:19-22 | The guard of the word-embedding phase: membership of the embedding group and more than one pipeline stage. It has no contract of its own; what it gates is stated by Embedding.WordEmbeddingNoOpUnlessEnabled. |
| Embedding.PositionEmbeddingGuard | Megatron-LM-231007/megatron/core/pipeline_parallel/distrib_grad.py:49-53 | The guard of the position-embedding phase: membership of the position-embedding group, more than one pipeline stage and a split rank set. It has no contract of its own; what it gates is stated by Embedding.PositionEmbeddingTarget. |
| Embedding.Representative | Megatron-LM-231007/megatron/core/pipeline_parallel/distrib_grad.py:23-28 | The representative chunk is one of the model's chunks. Which one each stage picks is stated by Embedding.WordEmbeddingTarget. |
| Embedding.SharedWeightId | Megatron-LM-231007/megatron/core/pipeline_parallel/distrib_grad.py:35-38 | A shared weight that resolves is an existing parameter of the representative chunk. |
| Embedding.PositionEmbeddingId | Megatron-LM-231007/megatron/core/pipeline_parallel/distrib_grad.py:54-57 | A position weight that resolves is an existing parameter of the first chunk. |
| Embedding.ReduceBuffer | Megatron-LM-231007/megatron/core/pipeline_parallel/distrib_grad.py:38-39 | A single-buffer all-reduce changes only gradient contents. Its effect is Embedding.ReduceBufferEffect. |
| Embedding.WordEmbeddingStep | Megatron-LM-231007/megatron/core/pipeline_parallel/distrib_grad.py:10-39 | The word-embedding phase changes only gradient contents. Its guard and target are the two lemmas that follow. |
| Embedding.PositionEmbeddingStep | Megatron-LM-231007/megatron/core/pipeline_parallel/distrib_grad.py:42-58 | The position-embedding phase changes only gradient contents. Its guard and target are Embedding.PositionEmbeddingTarget. |
| Embedding.EmbeddingStep | Megatron-LM-231007/megatron/core/pipeline_parallel/distrib_grad.py:61-64 | The embedding phase changes only gradient contents. Its order is Embedding.EmbeddingPhaseOrder and its frame Embedding.EmbeddingFrame. |
| Embedding.ReduceBufferEffect | Megatron-LM-231007/megatron/core/pipeline_parallel/distrib_grad.py:38-39 | A single-buffer all-reduce issues one call. If the lengths agree, the buffer becomes the group's element-wise sum. Otherwise the collective fails with every buffer unchanged. No other buffer changes in either case. |
| Embedding.WordEmbeddingNoOpUnlessEnabled | Megatron-LM-231007/megatron/core/pipeline_parallel/distrib_grad.py:19-22 | A worker outside the embedding group, or in a pipeline of one stage, issues nothing and changes nothing. Any call implies the guard held. |
| Embedding.WordEmbeddingTarget | Megatron-LM-231007/megatron/core/pipeline_parallel/distrib_grad.py:23-39 | The word embedding is read from the first chunk on the first stage, from the last chunk on a last stage that is not first, and from the first chunk otherwise. One embedding-group collective on that chunk's shared weight is issued iff the chunk ties its weights and the weight resolves. An untied chunk passes without a call. A tied weight that does not resolve is an error. |
| Embedding.PositionEmbeddingTarget | Megatron-LM-231007/megatron/core/pipeline_parallel/distrib_grad.py:49-58 | The position embedding gets one position-embedding-group collective, on the first chunk's position weight, iff all three hold: membership, more than one stage, a split rank is set. The weight must also resolve. The guard off means no call and a pass. A weight that does not resolve is an error. |
| Embedding.EmbeddingPhaseOrder | Megatron-LM-231007/megatron/core/pipeline_parallel/distrib_grad.py:61-64 | The embedding phase issues only embedding and position-embedding collectives, at most one of each, and the word-embedding one first. |
| Embedding.EmbeddingFrame | Megatron-LM-231007/megatron/core/pipeline_parallel/distrib_grad.py:36-58 | The embedding phase changes no buffer except the representative chunk's shared weight and the first chunk's position weight. |
| Embedding.TiedEmbeddingGroupSum | Megatron-LM-231007/megatron/core/pipeline_parallel/distrib_grad.py:19-39 | Every member of an embedding group that ties its weights ends the phase with its tied-weight gradient equal to the sum over all members. It issues one call and changes no other buffer. |
| Finalize.FinalizeStep | Megatron-LM-231007/megatron/core/pipeline_parallel/distrib_grad.py:85-116 | Finalisation changes only the contents of gradient buffers: chunks, parameters, flags and weight links are kept. |
| Finalize.FinalizeUntimed | Megatron-LM-231007/megatron/core/pipeline_parallel/distrib_grad.py:90-116 | Without its timer entries, the step's trace has three parts in order: the syncs of all chunks, the layernorm phase's calls and, if that phase passed, the embedding phase's calls. |
| Finalize.FinalizePhaseOrder | Megatron-LM-231007/megatron/core/pipeline_parallel/distrib_grad.py:93-116 | Leaving timers aside, chunk c's sync is the c-th call and all syncs precede the layernorm collective. That collective precedes the word-embedding collective, which precedes the position-embedding one. Each collective is issued at most once. The tensor-parallel collective names exactly the flagged buffers. |
| Finalize.FinalizeTimersInert | Megatron-LM-231007/megatron/core/pipeline_parallel/distrib_grad.py:93-116 | Turning timers or the barrier on or off leaves the step's buffers, outcome and non-timer calls unchanged. |
| Finalize.FinalizePassedLayernorm | Megatron-LM-231007/megatron/core/pipeline_parallel/distrib_grad.py:105-114 | When the layernorm phase passes, the step ends with the buffers and the outcome of the embedding phase run on the layernorm phase's result. |
| Finalize.FinalizeLayernormGroupSum | Megatron-LM-231007/megatron/core/pipeline_parallel/distrib_grad.py:100-116 | For a tensor-parallel group whose members' collected buffers have the same shapes: at the end of the whole step, each flagged buffer of a member that the embedding phase does not reduce holds the sum of that buffer over all members. |
| Finalize.FinalizeTiedEmbeddingGroupSum | Megatron-LM-231007/megatron/core/pipeline_parallel/distrib_grad.py:85-116 | Take an embedding group whose members all reduce their tied weight. A member whose layernorm phase passes without touching the tied weight, and which has no position embedding to reduce, passes the whole step holding the sum of all members' tied-weight gradients. |
| Finalize.TwoStageTiedEmbeddings | Megatron-LM-231007/megatron/core/pipeline_parallel/distrib_grad.py:23-39 | Take a two-stage pipeline with tied embeddings, no encoder/decoder split and any tensor-parallel size, where each stage's layernorm phase passes without touching its tied weight. The first stage reduces its first chunk's shared weight and the last stage its last chunk's. Both pass the whole step holding the sum of the two gradients. |
| DistribGrad.Worker.SyncGradients | Megatron-LM-231007/megatron/core/pipeline_parallel/distrib_grad.py:96 | A chunk's sync adds one sync entry to the trace and leaves the buffers as they are. |
| DistribGrad.Worker.Collective | Megatron-LM-231007/megatron/core/pipeline_parallel/distrib_grad.py:80 | An all-reduce records one call naming the buffers it reduces and returns the group's sum, or nothing when the lengths disagree. |
| DistribGrad.Worker.StartTimer | Megatron-LM-231007/megatron/core/pipeline_parallel/distrib_grad.py:93-94 | A phase's timer start is recorded, with the barrier flag, only when timers are configured; the buffers are left as they are. |
| DistribGrad.Worker.StopTimer | Megatron-LM-231007/megatron/core/pipeline_parallel/distrib_grad.py:97-98 | A phase's timer stop is recorded only when timers are configured; the buffers are left as they are. |
| DistribGrad.Worker.CopyInto | Megatron-LM-231007/megatron/core/pipeline_parallel/distrib_grad.py:82 | One copy overwrites exactly the named buffer with the given value and leaves the trace as it is. |
| DistribGrad.Worker.CollectSequenceParallelGrads | Megatron-LM-231007/megatron/core/pipeline_parallel/distrib_grad.py:73-78 | The nested walk returns exactly the flagged buffers' identities, in order, each valid and flagged, and their main gradients. It changes nothing. |
| DistribGrad.Worker.CopyBack | Megatron-LM-231007/megatron/core/pipeline_parallel/distrib_grad.py:81-82 | The copy loop leaves the chunks as the list-order write-back of the synced values and the trace unchanged. |
| DistribGrad.Worker.AllreduceLayernormGrads | Megatron-LM-231007/megatron/core/pipeline_parallel/distrib_grad.py:67-82 | The method's new chunks, added trace and outcome are exactly those of the layernorm step. |
| DistribGrad.Worker.ReduceInPlace | Megatron-LM-231007/megatron/core/pipeline_parallel/distrib_grad.py:38-39 | The in-place single-buffer all-reduce leaves exactly the state, trace and outcome of the single-buffer reduction. |
| DistribGrad.Worker.AllreduceWordEmbeddingGrads | Megatron-LM-231007/megatron/core/pipeline_parallel/distrib_grad.py:10-39 | The method leaves exactly the state, trace and outcome of the word-embedding step. |
| DistribGrad.Worker.AllreducePositionEmbeddingGrads | Megatron-LM-231007/megatron/core/pipeline_parallel/distrib_grad.py:42-58 | The method leaves exactly the state, trace and outcome of the position-embedding step. |
| DistribGrad.Worker.AllreduceEmbeddingGrads | Megatron-LM-231007/megatron/core/pipeline_parallel/distrib_grad.py:61-64 | Word embeddings, then position embeddings on the result. The method leaves exactly the state, trace and outcome of the embedding step. |
| DistribGrad.Worker.SyncAllChunks | Megatron-LM-231007/megatron/core/pipeline_parallel/distrib_grad.py:93-98 | The sync loop adds the timed syncs of all chunks, in order, to the trace and leaves the buffers as they are. |
| DistribGrad.Worker.TimedLayernormGrads | Megatron-LM-231007/megatron/core/pipeline_parallel/distrib_grad.py:101-107 | The layernorm phase inside its timer, whose stop is reached only if the phase did not fail. |
| DistribGrad.Worker.TimedEmbeddingGrads | Megatron-LM-231007/megatron/core/pipeline_parallel/distrib_grad.py:110-116 | The embedding phase inside its timer, whose stop is reached only if the phase did not fail. |
| DistribGrad.Worker.FinalizeModelGrads | Megatron-LM-231007/megatron/core/pipeline_parallel/distrib_grad.py:85-116 | The method leaves exactly the state, trace and outcome of the finalisation step. So what is proved of that step holds of the method: phase order, timers inert, and the step-level sums of Finalize.FinalizeLayernormGroupSum, Finalize.FinalizeTiedEmbeddingGroupSum and Finalize.TwoStageTiedEmbeddings. |

## Left out

- Process groups, ranks and the communication backend are not modelled. Group membership and stage position are fields of the topology. A collective is a function of the other members' contributions, given as inputs.
- Collectives are modelled as blocking and totally ordered with the worker's other calls. Asynchronous completion on a separate stream, and concurrency between workers, are not modelled.
- A failed collective leaves every buffer unchanged and ends the step with a failure outcome. In the real system such a failure is fatal to the whole job.
- `sync_gradients` is outside this file. Each chunk's sync only records a trace entry; the data-parallel averaging it performs is not modelled.
- `get_attr_wrapped_model` and `get_model_config` are not modelled. Each chunk instead records, as plain fields:
  - whether its innermost module ties embedding and output weights;
  - which parameter is the shared weight;
  - which parameter is the position-embedding weight.

  The configuration is an input. A weight that cannot be resolved is an error outcome.
- Reading the configuration from `model[0]` is modelled only as the failure of an empty model.
- Gradients are integers, so sums are exact and do not depend on the order of addition or on the reduction algorithm. Floating-point rounding is not modelled.
- Dtypes and tensor shapes are reduced to element counts. `grad.data` views and aliasing between parameters' buffers are not modelled: every parameter owns one buffer, updated by value.
- Timers are modelled only as start and stop entries in the trace, including the barrier flag. Logging levels, elapsed time and the barrier's synchronisation are not modelled.
- If sequence parallelism is on and no parameter is flagged, the coalescing of an empty list fails (`NothingToCoalesce`). The source has no guard here. Coalescing an empty tensor list raises.
- On a stage that is neither first nor last, the code falls back to the first chunk, with a comment that the interleaved schedule is not supported there. The model does exactly that. It proves nothing about whether that choice is right for interleaved schedules.
- Stage queries that ignore virtual stages are taken as already resolved in the topology. Virtual pipeline ranks are not modelled.
- Finalize.FinalizeTiedEmbeddingGroupSum: covers only members with no position embedding to reduce, as in models without an encoder/decoder split. When both weights are reduced, the position reduction runs on the word phase's result, and only the per-phase lemmas apply. It also covers only a tied weight that is not flagged sequence-parallel.
- Finalize.FinalizeLayernormGroupSum: states nothing about a flagged buffer that is also an embedding weight. The embedding phase reduces such a buffer again after the layernorm phase.
