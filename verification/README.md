# Verified model of the grim training core

This project models, in Dafny, the checkpointing reverse-mode autograd engine of `grim-autograd`, the
numeric loops it rests on, and the self-contained algorithms beside it, and proves what they compute.
`f32` is modelled as `real`; `exp`, `ln` and `sqrt` are function values with stated hypotheses. Loops that
update buffers are Dafny methods over arrays, objects whose methods update fields are classes, and each is
proved equal to a function of its inputs (or of its old state) about which the theorems are stated.

## How the modules fit together

**The engine.** `TapeModel` is the tape (an append-only list of entries over registered tensors, checkpoint
segments, the retention pass). `Sweep` is the reverse sweep as a function of the tape: lazy replay of a
segment into an overlay, eviction on leaving it, accumulation into the gradient map, and a *sink* for
parameter gradients, which lets one traversal specify both `backward` and `backward_step`. `BackwardPass`
holds the loops themselves, proved equal to the sweep. `Checkpoint` proves that freeing activations changes
nothing and that each segment is replayed at most once, as long as no entry reads a dropped tensor of a later
segment; `LostEdges`, `LostAddends` and `BackwardsTapes` say what happens otherwise. `Adjoint` and `Pushforward`
prove that the sweep computes the adjoint of the tape, `BufferGains` what the buffers of trainable parameters
gain; `FusedStep` proves that stepping during the walk equals stepping after it. `Routing` says operation by
operation which gradient reaches which buffer and tensor. `CpuKernels` supplies the CPU's own kernels to the engine
and discharges every law it asks for; `ArmValues` gives every entry they compute as a plain sum, `ArmDerivatives`
proves that their derivatives are those of the replayed operations, `LoraAxes` when a LoRA gradient exists.

**The kernels.** `MatMulKernel`, `DoublyTransposed`, `LoraKernel`, `BroadcastKernel`, `ReplayAddKernel`,
`EmbeddingKernel` and `RopeKernel`, over `Grids`, `Rows`, `Places` and `Scatter`. For matrix products and LoRA the
derivative is itself proved: along any line the output is its value plus h times the derivative plus h squared
times a remainder.

**Linear algebra in place.** `GaussJordan`, `InverseValues` and `InvertInPlace`; `GramSchmidt` and
`GramSchmidtInPlace`.

**Fast forms against simple forms.** `OnlineSoftmax`, `Attention`, `AttentionKernels`, `AttentionValues` (one-pass
partial attention against two-pass attention, and both against the softmax average); `CrossEntropy`,
`CrossEntropyLoops`, `LossGradient` (fused tiled cross-entropy against the materialised one, and both gradients
against their loss); `PagedAdamW`, `AdamWRuns`, `AdamWRule`, `OptimizerLoops` (paged moments against flat moments, and
both against weighted means).

**Discrete and bounded arithmetic.** `Bytes`, `BitPacking`, `Dequant`, `DequantValues`, `PackedRows`;
`QuantisedMoments`, `MomentDrift`, `MomentValues`; `RankBudget`; `Packing`.

**Saved states.** `SlotNames`, `TrainStates`, `PagedStates`, `SavedValues` (what a save and a load return),
`ResumedRuns` (when a run continued after a load is the uninterrupted one).

## What the proofs found

- **Replay of `MatMul` checks the stored extents.** The guard compares the last stored extent of A with the
  first stored extent of B, so a product with B transposed replays only when k = n, with A transposed only when
  m = k, and with both only when m = n (`ReplayAcceptsExactly`).
- **The gradient of Aᵀ·B is right on squares only**, in bounds and adjoint if and only if m = k = n
  (`TransposedLeftIffSquare`); that of Aᵀ·Bᵀ only if A is a single number (`BothTransposedIffUnit`).
- **The LoRA gradient reads the first two axes of its input**, while the operation folds all leading axes. For operands
  that replay accepts it exists if and only if the input has at most two axes or every axis after the first has
  extent 1; otherwise the pass stops with an error (`LoraBackwardIff`).
- **Replay of `Add` repeats the right operand cyclically.** It reproduces a broadcast addition for all values
  if and only if the right operand is a block of trailing axes (`ReplayAddIffRowShaped`); a column operand is
  replayed wrongly. The backward reduction handles every broadcast shape.
- **`clear` keeps the current segment.** Recording again before marking segment 0 can put a reader in an earlier
  segment than its input. Freeing keeps all that replay needs if and only if no such input is dropped
  (`ThinnedIffNoLostEdges`). If one is, there are two failures. Where the reader's backward arm insists on the
  operand, or its own output was dropped and cannot be replayed, the freed run fails wherever the full run
  reaches the reader (`LostEdgeStopsTheSweep`, with a tape in `ScaledTapeStops`). The arm of `Add` does not insist:
  the freed run goes on and hands the output's gradient to the lost operand without reducing it to the operand's
  shape (`LostAddendIsNotReduced`; on the tape of `AddedTapeGoesWrong` both runs succeed and a leaf of one value
  is given two). The trainer avoids both: it makes a new tape for every step and marks segments in ascending
  order (crates/grim-cli/src/train.rs:1013-1031).
- **Moment slots omit the A/B flag.** A load succeeds if and only if the registered twin of every parameter with a
  saved moment has that parameter's size, whether or not the twin saved a moment itself (`LoadSucceedsIff`);
  otherwise it stops, and parameters not yet reached keep their old weights (`UnreachedKept`). After a load that
  succeeds all weights are back; the moments are back if and only if twins that both saved one saved equal ones,
  and a parameter that saved none now holds its twin's (`MomentsRestoredIff`).
- **Page keys of the paged optimizer omit the injection point** (`PagedKeyForgetsPoint`), although a comment
  beside the other slot names says they embed it. Loading never fails on them: all pages are back if and only if
  pages of one adapter matrix at different injection points were equal (`PagedRoundTripIff`).
- **The paged optimizer reads a state of the flat one page by page, whole moments into every page**
  (`PagesFromFlat`), whatever the page size.
- **A saved state has no per-parameter step counts**, so bias correction restarts. Continuing after a load is the
  uninterrupted run, whatever gradients follow, if and only if every parameter that can move takes the step number
  it would have had, unless both betas or its learning rate are 0 (`ResumedRunIff`, `FreshResumeIff`).
- **`rope_backward` indexes the sines by the length of the cosines**, while replay uses the shorter table. On
  non-empty operands that replay accepts it is in bounds and the adjoint if and only if there are no more cosines
  than sines, or there is a single sine and the cosines do not divide the gradient into heads
  (`RopeGradientRightIff`; `RopeBackwardOverruns` is an input that leaves the sines).
- **Below 1e-8 the stored 8-bit moment can exceed every gradient seen**, but only for a beta below one half: it
  stays within the bound g over every run if and only if g ≥ 1e-8 or (1 - β) times the fractional part of
  127 g / 1e-8 is below one half (`FirstMomentKeptIff`, `SecondMomentKeptIff`). The default betas never overshoot.
- **The two attention kernels choose the key head by different formulas**, equal when the key heads divide the
  query heads (`GroupsAgree`).

## Model

| member | source | states |
|---|---|---|
| TapeModel.Tape.Register | crates/grim-autograd/src/tape.rs:144-151 | the new tensor is stored under the next id, everything else is unchanged |
| TapeModel.Tape.RegisterParam | crates/grim-autograd/src/tape.rs:153-157 | as Register, and the parameter now maps to the new id |
| TapeModel.Tape.MarkSegmentBoundary | crates/grim-autograd/src/tape.rs:133-137 | the current segment and its boundary tensor change, nothing else |
| TapeModel.Tape.Record | crates/grim-autograd/src/tape.rs:229-300 | one entry in the current segment with a fresh output; single assignment and residency are kept |
| TapeModel.RecordingKeepsInvariants | crates/grim-autograd/src/tape.rs:229-300 | recording keeps single assignment; segments stay monotone if and only if they were and none is ahead of the current one |
| TapeModel.Tape.FreeIntermediateActivations | crates/grim-autograd/src/tape.rs:185-215 | the producer map and the retain set built by the loops are those of the specification; exactly the retained tensors survive |
| TapeModel.FreedKeepsCrossSegmentInputs | crates/grim-autograd/src/tape.rs:185-215 | after freeing without a lost edge, every input is resident or was produced earlier in the reader's own segment |
| TapeModel.SurvivesIff | crates/grim-autograd/src/tape.rs:185-215 | on every tape: a tensor survives freeing if and only if there are at most one checkpoint segments, or it is a boundary, a registered parameter tensor, an input no entry produces, or read by an entry of a strictly later segment than its last producer's |
| TapeModel.Tape.Clear | crates/grim-autograd/src/tape.rs:218-224 | everything is emptied except the segment count and the current segment |
| BackwardPass.ReplayInto | crates/grim-autograd/src/replay.rs:25-56 | the replay loop, input resolution included, is segment replay; it stops at the first missing input or kernel error |
| BackwardPass.EvictSegmentOverlay | crates/grim-autograd/src/backward.rs:68-74 | exactly the outputs of the segment leave the overlay |
| BackwardPass.EnterEntry | crates/grim-autograd/src/backward.rs:50-102 | evict on leaving a segment, replay only if the entry misses its output or an input |
| BackwardPass.PropagateInputs | crates/grim-autograd/src/backward.rs:507-541 | the leading gradients are added to the gradient map one after the other |
| BackwardPass.TrainableParams.Insert | crates/grim-autograd/src/param.rs:159-161 | the parameter is registered under its own id, others are kept |
| BackwardPass.TrainableParams.Accumulate | crates/grim-autograd/src/param.rs:93-118 | the buffer gains the gradient; frozen or unregistered parameters are left alone |
| BackwardPass.Backward | crates/grim-autograd/src/backward.rs:76-265 | the reverse loop returns the gradients, errors, parameters and replayed segments of the sweep that accumulates |
| BackwardPass.BackwardStep | crates/grim-autograd/src/backward.rs:269-505 | likewise with the sink that steps at once and refuses a second contribution |
| BackwardPass.DrainAndStep | crates/grim-autograd/src/tape.rs:471-489 | the fused pass; the tape is emptied exactly when it succeeded |
| Checkpoint.SegmentReplays | crates/grim-autograd/src/replay.rs:25-56 | replaying a segment of a freed tape succeeds and rebuilds every dropped output with its recorded value |
| Checkpoint.CheckpointingPreservesBackward | crates/grim-autograd/src/backward.rs:50-102 | for every tape without a lost edge, every loss and sink: the freed run and the full run have the same gradients, parameters and errors; the full run replays nothing; no missing tensor |
| Checkpoint.EachSegmentReplayedAtMostOnce | crates/grim-autograd/src/backward.rs:50-99 | with monotone segments, at every point no segment was replayed twice and the overlay holds only non-resident outputs of the active segment |
| Checkpoint.ThinnedIffNoLostEdges | crates/grim-autograd/src/tape.rs:185-215 | freeing keeps every input that replay relies on if and only if no entry reads a dropped tensor of a later segment |
| LostEdges.LostEdgeStopsTheSweep | crates/grim-autograd/src/backward.rs:50-265 | for every tape, loss and sink, where the lost operand is demanded or replay needs it: a freed run that completes gave the reader no gradient, so it fails whenever the full run gives it one |
| LostAddends.LostAddendIsNotReduced | crates/grim-autograd/src/backward.rs:155-166 | for every tape, loss and sink, where a lost operand is read only by an addition: the full run reduces the gradient to its shape, a freed run that completes hands it on whole |
| BackwardsTapes.RecordScaled | crates/grim-autograd/src/tape.rs:125-151 | the recording methods alone produce the first tape with a lost edge |
| BackwardsTapes.RecordAdded | crates/grim-autograd/src/tape.rs:125-151 | and the second |
| BackwardsTapes.ScaledTapeStops | crates/grim-autograd/src/tape.rs:218-224 | on the first, for all values, the full run succeeds and the freed run fails |
| BackwardsTapes.AddedTapeGoesWrong | crates/grim-autograd/src/tape.rs:218-224 | on the second both succeed, and the leaf of shape [1] gets a gradient of shape [1] from the full run and of shape [2] from the freed one |
| Adjoint.RoutesPairing | crates/grim-autograd/src/backward.rs:76-265 | one entry's parameter contributions move the parameter pairing by exactly their own pairings |
| Adjoint.BackwardIsTheAdjoint | crates/grim-autograd/src/backward.rs:76-265 | for every tape and tangent: loss gradient paired with the pushed tangent = leaf gradients paired with leaf tangents + what the parameter buffers gained |
| Pushforward.PushedIs | crates/grim-autograd/src/backward.rs:76-265 | the forward push satisfies the tangent equation of every entry |
| Pushforward.SweepSucceeds | crates/grim-autograd/src/backward.rs:76-265 | with lawful kernels the sweep never fails, as long as every parameter buffer that can move has the shape of the operand it is routed for |
| Pushforward.FullBackwardIsTheAdjoint | crates/grim-autograd/src/backward.rs:76-265 | with nothing freed and no operation required to be replayable: the pass succeeds and is the adjoint of the forward push, for every leaf tangent |
| Pushforward.FreedBackwardIsTheAdjoint | crates/grim-autograd/src/backward.rs:50-265 | the same for the sweep over the freed tape, when segments can be replayed |
| BufferGains.BufferGainsTheGradient | crates/grim-autograd/src/backward.rs:76-265 | the buffer of a trainable matrix, norm or embedding parameter gains exactly the final gradient of its tensor |
| BufferGains.FreedBufferGainsTheGradient | crates/grim-autograd/src/backward.rs:50-265 | likewise over the freed tape |
| Routing.StepComputes | crates/grim-autograd/src/backward.rs:82-103 | every step that completes on an entry with an output gradient had its operands and computed local gradients, so the rows below cover every step |
| Routing.InsistsOn | crates/grim-autograd/src/backward.rs:103-242 | operation by operation, the operands whose absence fails the step before any gradient, and the kernel run when they are there |
| Routing.LoraStep | crates/grim-autograd/src/backward.rs:104-128 | for any sink: A's parameter is given the third gradient, then B's the fourth; base and x gain the first and second, A and B nothing |
| Routing.MatMulStep | crates/grim-autograd/src/backward.rs:129-156 | the entry's parameter is given the first gradient, both operands gain theirs |
| Routing.RmsNormStep | crates/grim-autograd/src/backward.rs:186-202 | the weight parameter is given the second gradient, both operands gain theirs |
| Routing.EmbeddingStep | crates/grim-autograd/src/backward.rs:218-234 | the table parameter is given the only gradient, the table gains it |
| Routing.PlainStep | crates/grim-autograd/src/backward.rs:157-217 | no parameter; Add and SiluMul pass on two gradients, Scale, Softmax and Rope one |
| Routing.LoraBuffersGain | crates/grim-autograd/src/backward.rs:117-123 | plain pass: A's buffer gains the third gradient and B's the fourth unless frozen, nothing else changes |
| Routing.BuffersGain | crates/grim-autograd/src/backward.rs:129-234 | plain pass: product parameter, norm weight and table gain the first, second and only gradient |
| Routing.LoraParamsStepped | crates/grim-autograd/src/backward.rs:300-341 | fused pass: A is stepped on its buffer plus the third gradient, B on its buffer plus the fourth, each once, gradient zeroed after |
| Routing.ParamsStepped | crates/grim-autograd/src/backward.rs:342-474 | fused pass: the other parameters likewise |
| Routing.ReplayFeeds | crates/grim-autograd/src/replay.rs:45-103 | replay runs the forward kernel on the replayed or resident operands, for LoRA's A and B failing those on the tensor registered for that parameter, and fails for a missing tensor exactly when an operand is nowhere |
| CpuKernels.ArmIsAdjoint | crates/grim-autograd/src/backward.rs:90-240 | every arithmetic arm of the CPU (MatMul, Add, Scale, LoRA, Rope, Embedding): its backward succeeds and is adjoint to its derivative |
| CpuKernels.CpuBackwardIsTheAdjoint | crates/grim-autograd/src/backward.rs:76-265 | the end-to-end theorem for the CPU kernels with nothing freed, products with B transposed at every shape included |
| CpuKernels.CpuFreedBackwardIsTheAdjoint | crates/grim-autograd/src/backward.rs:50-265 | the end-to-end theorem over the freed tape |
| ArmDerivatives.JvpIsDerivative | crates/grim-autograd/src/replay.rs:69-403 | for every arithmetic operation replay accepts, tangent and entry: replayed on operands + h tangents it is value + h derivative + h² q + h³ c, so the backward arm is adjoint to the derivative of the replayed operation |
| ArmValues.LoraReplayEntry | crates/grim-autograd/src/replay.rs:169-262 | rank times what replay adds to entry (i, j) of the base is alpha times the sum over l of (x Aᵀ)(i, l) B(j, l) |
| ArmValues.LoraGradEntries | crates/grim-autograd/src/backward.rs:113-128 | the base gets the output gradient; rank times the gradients of x, A and B is alpha times (g B) A, (g B)ᵀ x and gᵀ (x Aᵀ), entry by entry |
| ArmValues.MatMulReplayEntry | crates/grim-autograd/src/replay.rs:77-133 | entry (i, j) is the sum of products, each operand read plain or transposed |
| ArmValues.MatMulLeftEntry | crates/grim-autograd/src/ops.rs:555-613 | entry (p, q) of A's gradient as a plain sum in each transpose case, out-of-shape strides of the transposed cases included |
| ArmValues.MatMulRightEntry | crates/grim-autograd/src/ops.rs:566-664 | likewise for B's gradient |
| ArmValues.ScaleEntry | crates/grim-autograd/src/backward.rs:169-176 | output and gradient are both the recorded factor times the entry |
| ArmValues.AddReplayEntry | crates/grim-autograd/src/replay.rs:134-159 | pointwise, the shorter right operand repeated, an error if its length does not divide |
| ArmValues.EmbeddingReplayEntry | crates/grim-autograd/src/replay.rs:372-403 | row t is the table row of token t, or an error |
| ArmValues.RopeReplayEntry | crates/grim-autograd/src/replay.rs:315-343 | pairs (i, half + i) of a head turn by entry i of the tables, half being the shorter table |
| ArmValues.NeighbourEntries | crates/grim-autograd/src/ops.rs:1553-1568 | the other branch turns neighbours back by the tables read cyclically |
| LoraAxes.LoraBackwardIff | crates/grim-autograd/src/ops.rs:792-920 | for operands replay accepts: the gradient exists if and only if x has at most two axes or only 1s after the first, and then the adjoint theorems cover it |
| FusedStep.BackwardIsTraversalThenSink | crates/grim-autograd/src/backward.rs:269-505 | gradients never read stepped data: every pass is one logged traversal whose log is fed to its sink |
| FusedStep.BackwardStepRefinesBackward | crates/grim-autograd/src/backward.rs:269-505 | whenever `backward` succeeds, the fused pass succeeds exactly when no parameter contributes twice and every step succeeds; then same gradients, each contributor stepped once on the accumulated gradient |
| FusedStep.RefusesExactlyDuplicates | crates/grim-autograd/src/backward.rs:269-505 | with an optimizer that cannot fail, the refusal happens exactly on a duplicate and names it |
| MatMulKernel.ReplayAcceptsExactly | crates/grim-autograd/src/replay.rs:93-105 | the stored-extent guard accepts: A·B always, B transposed iff k = n, A transposed iff m = k, both iff m = n |
| MatMulKernel.ReplayMatMul | crates/grim-autograd/src/replay.rs:77-133 | the loop nest computes the product, or fails exactly when the guard rejects |
| MatMulKernel.MatMulBackward | crates/grim-autograd/src/ops.rs:548-665 | both gradient loop nests compute the strided sums written in the code |
| MatMulKernel.MatMulBackwardIsAdjoint | crates/grim-autograd/src/ops.rs:548-665 | with A not transposed the gradients are the exact adjoint, for every shape, B transposed or not |
| MatMulKernel.TransposedLeftIffSquare | crates/grim-autograd/src/ops.rs:577-631 | with only A transposed, in bounds and adjoint for all values if and only if m = k = n |
| DoublyTransposed.BothTransposedIffUnit | crates/grim-autograd/src/ops.rs:605-640 | with both transposed, in bounds and adjoint for all values if and only if m = k = 1 |
| MatMulKernel.MatMulAlongLine | crates/grim-autograd/src/replay.rs:77-133 | the derivative used above is the linear coefficient of the product along any line |
| LoraKernel.ReplayLora | crates/grim-autograd/src/replay.rs:169-263 | the replay nests compute base + s (x Aᵀ) Bᵀ, or fail exactly on mismatched extents |
| LoraKernel.LoraBackward | crates/grim-autograd/src/ops.rs:792-930 | the backward nests compute the four gradients of the specification |
| LoraKernel.LoraBackwardIsAdjoint | crates/grim-autograd/src/ops.rs:845-903 | they are the exact adjoint in all four operands at once, for every shape |
| LoraKernel.LoraAlongLine | crates/grim-autograd/src/replay.rs:195-262 | the derivative is the true one: value + h derivative + h² remainder along any line |
| BroadcastKernel.ProjectedCoordinates | crates/grim-autograd/src/ops.rs:689-737 | the mixed-radix projection keeps every coordinate and reads 0 along extents of 1 |
| BroadcastKernel.AlignedAtTheEnd | crates/grim-autograd/src/ops.rs:689-737 | shapes align at their last axes: missing and unit axes read coordinate 0, the others the output's |
| BroadcastKernel.TargetStrides | crates/grim-autograd/src/ops.rs:689-737 | each stride is the product of the later padded extents |
| BroadcastKernel.TargetIndex | crates/grim-autograd/src/ops.rs:689-737 | the digit loop computes the projection |
| BroadcastKernel.ReduceBroadcast | crates/grim-autograd/src/ops.rs:689-737 | the reduction scatters every gradient element to its projected coordinate |
| BroadcastKernel.ReductionIsAdjoint | crates/grim-autograd/src/ops.rs:689-753 | for every rank and compatible shape it is the adjoint of broadcasting and keeps the total |
| Scatter.GatherScatterAdjoint | crates/grim-autograd/src/ops.rs:689-753 | gathering through any index map and scattering back are adjoint |
| ReplayAddKernel.ReplayAdd | crates/grim-autograd/src/replay.rs:134-159 | equal lengths add pointwise, a divisor length repeats, anything else fails |
| ReplayAddKernel.ReplayAddIffRowShaped | crates/grim-autograd/src/replay.rs:134-159 | replay reproduces the broadcast addition for all values if and only if the right operand is a block of trailing axes |
| EmbeddingKernel.ReplayEmbedding | crates/grim-autograd/src/replay.rs:372-403 | the lookup loop gathers table rows; wrong table size or token outside the vocabulary fails |
| EmbeddingKernel.EmbeddingBackward | crates/grim-autograd/src/ops.rs:1669-1730 | the scatter loop; out-of-vocabulary tokens leave no trace; wrong gradient size fails |
| EmbeddingKernel.EmbeddingBackwardIsAdjoint | crates/grim-autograd/src/ops.rs:1669-1730 | scatter is the adjoint of lookup, repeated tokens included |
| RopeKernel.ReplayRope | crates/grim-autograd/src/replay.rs:315-343 | the rotation of every head pair, head size from the shorter table |
| RopeKernel.RopeBackward | crates/grim-autograd/src/ops.rs:1529-1604 | in bounds, the head loops rotate back and the other branch rotates neighbours, tables read cyclically |
| RopeKernel.RopeBackwardIsAdjoint | crates/grim-autograd/src/ops.rs:1529-1604 | rotating every head back is the adjoint of rotating it |
| RopeKernel.RopeGradientRightIff | crates/grim-autograd/src/ops.rs:1529-1604 | for every length replay accepts: in bounds and adjoint to replay for all values if and only if there are no more cosines than sines, or one sine and the cosines do not divide the gradient |
| RopeKernel.RopeBackwardOverruns | crates/grim-autograd/src/ops.rs:1570-1588 | two cosines, one sine, four values: replay accepts, the backward loops read a second sine |
| RopeKernel.RopeBackwardInvertsRope | crates/grim-autograd/src/ops.rs:2563-2575 | when every cosine and sine come from one angle, the backward loops undo the forward ones |
| GaussJordan.PivotIsLargest | crates/grim-autograd/src/soul_eater.rs:509-517 | the chosen row has the largest magnitude of the column from the diagonal down |
| GaussJordan.EliminationConserves | crates/grim-autograd/src/soul_eater.rs:493-560 | inverse times matrix equals the working matrix after all swaps, scalings and eliminations |
| GaussJordan.ExactEliminationInverts | crates/grim-autograd/src/soul_eater.rs:534-550 | if every factor skipped as small was exactly zero, the result is a left inverse |
| GaussJordan.InvertsExactlyWhenReduced | crates/grim-autograd/src/soul_eater.rs:534-550 | in general it is a left inverse if and only if the working matrix ended as the identity |
| GaussJordan.ExactInverseIsTwoSided | crates/grim-autograd/src/soul_eater.rs:493-560 | an exact elimination yields a two-sided inverse |
| GaussJordan.InverseOfFirstRidge | crates/grim-autograd/src/soul_eater.rs:493-560 | the result belongs to the first ridge that does not break down, and is its conserved or exact inverse; if all break down it is the damped diagonal |
| InverseValues.LadderIs | crates/grim-autograd/src/soul_eater.rs:493-560 | the matrix itself, then with 1e-5, 1e-4, 1e-3, 1e-2 on its diagonal: the first elimination that goes through, else the diagonal of reciprocals of max(own entry, 1e-4) |
| InverseValues.StuckIff | crates/grim-autograd/src/soul_eater.rs:509-520 | an elimination fails if and only if at some column all entries from the diagonal down are below 1e-7 in magnitude |
| InverseValues.ColumnReduced | crates/grim-autograd/src/soul_eater.rs:509-547 | one column, cell by cell of both buffers: the pivot is the first of greatest magnitude, its row is divided by it, every other row loses its entry times that row unless the entry is at most 1e-12 |
| InvertInPlace.EliminateColumn | crates/grim-autograd/src/soul_eater.rs:509-546 | pivot search, swap, scale and clear on the two buffers are one column of the elimination; breakdown exactly on a small pivot |
| InvertInPlace.Invert | crates/grim-autograd/src/soul_eater.rs:493-560 | the in-place routine returns the inverse of the specification, ridge ladder and fallback included |
| GramSchmidt.ResidualOrthogonal | crates/grim-autograd/src/injection.rs:739-762 | after its inner loop a column is orthogonal to every earlier one |
| GramSchmidt.OrthonormalIffNoSmallNorm | crates/grim-autograd/src/injection.rs:739-762 | the columns end up orthonormal if and only if no residual norm fell below eps |
| GramSchmidt.ColumnLengths | crates/grim-autograd/src/injection.rs:754-762 | a column whose residual norm n reached 1e-12 ends with length 1, a shorter one with length n/1e-12 |
| GramSchmidt.ColumnsRecombine | crates/grim-autograd/src/injection.rs:739-762 | every original column is recovered from the new ones and the coefficients of the run |
| GramSchmidtInPlace.OrthogonalizeColumns | crates/grim-autograd/src/injection.rs:739-762 | the strided in-place loops produce the columns of the specification |
| OnlineSoftmax.TrackIsWeighted | crates/grim-backend-cpu/src/strict_kernels.rs:137-215 | the rescaled one-pass accumulator is the sum of exp(s - max) terms at the true maximum |
| OnlineSoftmax.MergeOfSplit | crates/grim-backend-cpu/src/strict_kernels.rs:383-426 | splitting the key range anywhere and merging gives the unsplit partial |
| OnlineSoftmax.MergeAllOfPieces | crates/grim-backend-cpu/src/strict_kernels.rs:383-426 | the same for any number of pieces, empty ones included |
| OnlineSoftmax.OnlineIsSoftmax | crates/grim-backend-cpu/src/strict_kernels.rs:137-215 | acc / sum is the softmax-weighted average |
| OnlineSoftmax.MergeLaws | crates/grim-backend-cpu/src/strict_kernels.rs:383-426 | merging is commutative and associative on all partials |
| OnlineSoftmax.EmptyIsNeutral | crates/grim-backend-cpu/src/strict_kernels.rs:560-583 | the empty partial is neutral exactly for partials that are empty when their maximum is |
| Attention.OnlineLane | crates/grim-backend-cpu/src/strict_kernels.rs:137-215 | the key loop over acc, running max and running sum computes the online partial; max and sum are the same in every component |
| Attention.TwoPassLane | crates/grim-backend-cpu/src/strict_kernels.rs:53-98 | scores, softmax in place and weighted sum compute the softmax average |
| Attention.OnePassIsTwoPass | crates/grim-backend-cpu/src/strict_kernels.rs:53-215 | per lane: any cut of the keys, merged and normalised, is the two-pass result |
| AttentionKernels.GroupsAgree | crates/grim-backend-cpu/src/strict_kernels.rs:53-215 | the two ways of choosing the key head agree when key heads divide query heads |
| AttentionKernels.PartialOnline | crates/grim-backend-cpu/src/strict_kernels.rs:137-215 | all (head, query) partials in order, with the causal clamp |
| AttentionKernels.StrictAttention | crates/grim-backend-cpu/src/strict_kernels.rs:53-98 | every output row is the attended row |
| AttentionKernels.SplitCallsMerge | crates/grim-backend-cpu/src/strict_kernels.rs:137-215 | for every causal offset: merging the results of calls over consecutive key ranges gives the result of one call over the whole |
| AttentionKernels.SplitAttentionIsAttention | crates/grim-backend-cpu/src/strict_kernels.rs:53-215 | key heads dividing: merged, normalised one-pass calls give the two-pass row over the keys below the causal bound, for every offset |
| AttentionValues.AttendedIsSoftmax | crates/grim-backend-cpu/src/strict_kernels.rs:53-98 | a two-pass row is the one if and only if each component is the average of the values with weights exp(scale · q·k) over the keys |
| AttentionValues.StrictCell | crates/grim-backend-cpu/src/strict_kernels.rs:53-98 | every output cell of the two-pass kernel, in place, with key head h·kv/heads |
| AttentionValues.PartialCell | crates/grim-backend-cpu/src/strict_kernels.rs:137-215 | result h·queries + qt of a one-pass call: largest score, mass and moments over the keys of the range below offset + qt + 1 |
| AttentionValues.SplitRowIsSoftmax | crates/grim-backend-cpu/src/strict_kernels.rs:53-215 | merged and normalised pieces give the softmax average below the causal bound |
| AttentionValues.ScaledTwoPass | crates/grim-backend-cpu/src/strict_kernels.rs:71-77 | two passes: queries q at scale s give the rows of queries s·q at scale 1 |
| AttentionValues.ScaledOnePass | crates/grim-backend-cpu/src/strict_kernels.rs:178-184 | one pass: likewise for every partial result |
| AttentionValues.OneHotScores | crates/grim-backend-cpu/src/strict_kernels.rs:71-184 | at scale 1 a query row that is 1 in one component scores each key by that component in the key head's columns |
| CrossEntropy.FusedIsReference | crates/grim-autograd/src/loss.rs:87-270 | same loss, hidden gradient = logit gradient times the head, failing exactly together |
| CrossEntropy.LossIsLogSumExp | crates/grim-autograd/src/loss.rs:235-270 | the loss is log-sum-exp minus the target logit |
| CrossEntropy.LogitGradSumsToZero | crates/grim-autograd/src/loss.rs:235-270 | every sample's logit gradient sums to zero |
| LossGradient.LossIsMean | crates/grim-autograd/src/loss.rs:235-282 | batch times the loss is the sum over samples of log-sum-exp minus the target logit |
| LossGradient.ReferenceAboveTangent | crates/grim-autograd/src/loss.rs:235-282 | for every move of the logits the mean loss rises by at least the returned gradient paired with it |
| LossGradient.FusedAboveTangent | crates/grim-autograd/src/loss.rs:87-163 | the fused form's hidden gradient is likewise that of its own mean loss |
| LossGradient.FailsExactly | crates/grim-autograd/src/loss.rs:36-107 | both fail exactly on an empty batch, a wrong number of targets or a target outside the vocabulary |
| CrossEntropy.FirstPass | crates/grim-autograd/src/loss.rs:110-135 | the tiled online maximum and sum |
| CrossEntropyLoops.FusedLoss | crates/grim-autograd/src/loss.rs:87-163 | the fused loops compute the fused loss and hidden gradient for every batch, vocabulary and chunk size, with the code's error cases |
| CrossEntropyLoops.CrossEntropyLoss | crates/grim-autograd/src/loss.rs:177-282 | the materialised loops compute the reference |
| PagedAdamW.PageInside | crates/grim-autograd/src/adamw.rs:1469-1472 | the page count is exactly the pages that start inside the vector |
| PagedAdamW.StepMirrors | crates/grim-autograd/src/adamw.rs:1469-1494 | stepping every page keeps the pages a mirror of the flat moments |
| PagedAdamW.DataMirrors | crates/grim-autograd/src/adamw.rs:1469-1494 | data written page by page is the data of the flat step |
| AdamWRuns.PagedRefinesFlat | crates/grim-autograd/src/adamw.rs:708-821 | for every run of gradients, visiting order and page size: same parameters, moments still mirrored |
| OptimizerLoops.FreshRunsFit | crates/grim-autograd/src/adamw.rs:815-821 | from fresh optimizers, after every run: same parameters, and moments and pages of the sizes the next step relies on |
| AdamWRuns.DirtySetIsExact | crates/grim-autograd/src/adamw.rs:1423-1515 | after a step the dirty set is exactly the pages of visited unfrozen parameters |
| AdamWRuns.StepMarksPages | crates/grim-autograd/src/adamw.rs:1469-1503 | a step marks exactly the parameter's pages dirty, on the device unless offloaded, and changes no other page |
| AdamWRule.LoraPlus | crates/grim-autograd/src/adamw.rs:720-724 | an A matrix steps as with ratio 1, a B matrix as with rate lr · ratio and ratio 1 |
| AdamWRule.StepIsOnMeans | crates/grim-autograd/src/adamw.rs:708-800 | after any gradients the step subtracts lr (M / (√V + eps) + decay · data), M and V the means of gradients and squares weighted by powers of the betas, lr times the ratio for a B matrix |
| AdamWRule.FrozenStep | crates/grim-autograd/src/adamw.rs:713-716 | a frozen parameter keeps its data, its gradient becomes 0, the optimizer does not change |
| AdamWRule.StepTouchesOne | crates/grim-autograd/src/adamw.rs:708-812 | only the data, the own moments and the own step count, by one, change |
| OptimizerLoops.AdamW.StepParam | crates/grim-autograd/src/adamw.rs:708-812 | the whole-buffer component arithmetic is the flat step |
| OptimizerLoops.AdamW.Step | crates/grim-autograd/src/adamw.rs:815-821 | one step over the registry |
| OptimizerLoops.PagedOptimizer.TouchPage | crates/grim-autograd/src/adamw.rs:1423-1433 | the page is created with zeros if absent and marked dirty |
| OptimizerLoops.StepElements | crates/grim-autograd/src/adamw.rs:1478-1493 | the element loop advances both moments and the data, element by element, and nothing before the page |
| OptimizerLoops.PagedOptimizer.StepParam | crates/grim-autograd/src/adamw.rs:1435-1506 | the page loop is the paged step: counters, pages, dirty set and data |
| OptimizerLoops.PagedOptimizer.Step | crates/grim-autograd/src/adamw.rs:1508-1515 | one step over the registry, dirty set cleared first |
| QuantisedMoments.EncodeNear | crates/grim-autograd/src/adamw.rs:2250-2268 | a value below the peak is stored within half a step, never above the peak, codes 0..254 |
| QuantisedMoments.StepTracks | crates/grim-autograd/src/adamw.rs:2215-2268 | one step keeps codes, magnitude, distance to the exact average and sign |
| MomentDrift.FirstMomentDrift | crates/grim-autograd/src/adamw.rs:2215-2268 | over every run with gradients within G: codes 0..254, magnitude at most G where no step overshoots and max(G, 1e-8) otherwise, within max(G, 1e-8)/(254(1-β1)) of the exact average |
| MomentDrift.SecondMomentDrift | crates/grim-autograd/src/adamw.rs:2215-2268 | likewise for the squares, and the stored second moment is never negative |
| MomentDrift.FirstMomentKeptIff | crates/grim-autograd/src/adamw.rs:2250-2268 | the stored moment stays within g over every run of gradients within g if and only if g ≥ 1e-8 or (1-β1)·frac(127 g/1e-8) < 1/2; always for β1 ≥ 1/2 |
| MomentDrift.SecondMomentKeptIff | crates/grim-autograd/src/adamw.rs:2250-2268 | the same for the second moment and g² |
| MomentValues.RoundIs | crates/grim-autograd/src/adamw.rs:2262-2267 | rounding is to the nearest, halves away from zero |
| MomentValues.CodeIs | crates/grim-autograd/src/adamw.rs:2242-2268 | a code is 127 plus the rounded number of steps, a step the 127th part of the peak, the peak at least 1e-8 |
| MomentValues.DirectionIsNearMeans | crates/grim-autograd/src/adamw.rs:2183-2268 | over every run within g: the direction is M / (√V + eps), and (1 - βᵗ) times the distance of M (V) from the weighted mean of gradients (squares) is at most β h / (254 (1 - β)), h = max(bound, 1e-8); V ≥ 0 |
| QuantisedMoments.StepMoments | crates/grim-autograd/src/adamw.rs:2215-2268 | the loops rewrite both code vectors in place as specified and return scales and directions |
| RankBudget.Rebalance | crates/grim-autograd/src/omnilo_prune.rs:118-141 | the loop terminates with every rank in bounds, the budget met or all ranks at a bound |
| RankBudget.Allocate | crates/grim-autograd/src/omnilo_prune.rs:113-141 | clamp, then rebalance |
| RankBudget.BudgetMetIffFeasible | crates/grim-autograd/src/omnilo_prune.rs:113-144 | the sum is the budget if and only if n·min ≤ budget ≤ n·max; otherwise all ranks sit at the nearer bound |
| RankBudget.OrderKept | crates/grim-autograd/src/omnilo_prune.rs:118-141 | the order of the clamped ranks is kept up to one unit |
| RankBudget.MovesAreEven | crates/grim-autograd/src/omnilo_prune.rs:118-141 | no slot moves against the correction and free slots move alike up to one unit |
| RankBudget.EarlierMovesFirst | crates/grim-autograd/src/omnilo_prune.rs:118-141 | a later slot has moved no further than an earlier one still free |
| RankBudget.ClampIsNearest | crates/grim-autograd/src/omnilo_prune.rs:113-116 | clamping goes to the nearest allowed rank |
| RankBudget.AllocationIsUnique | crates/grim-autograd/src/omnilo_prune.rs:118-141 | the conditions on the result determine it |
| RankBudget.MetStaysPut | crates/grim-autograd/src/omnilo_prune.rs:118-141 | clamped ranks that meet the budget are returned unchanged |
| Packing.Pack | crates/grim-autograd/src/collate.rs:188-213 | tokens, labels, positions and starts are those of a greedy prefix |
| Packing.GreedyIsLongest | crates/grim-autograd/src/collate.rs:196-202 | the prefix taken is the longest with at most max-len tokens and max-seqs sequences |
| Packing.PackedAt | crates/grim-autograd/src/collate.rs:204-212 | position p of sequence s holds its token, its label and the position within s |
| Packing.NoLeakage | crates/grim-autograd/src/collate.rs:219-234 | i sees j if and only if both are in one sequence and j's position is not later |
| Packing.BlockDiagonalMask | crates/grim-autograd/src/collate.rs:222-234 | the mask loops write exactly the block-diagonal causal mask |
| Packing.MaskMeans | crates/grim-autograd/src/collate.rs:219-234 | mask cell (i, j) is 1 if and only if some s has start(s) ≤ j ≤ i < start(s + 1), else 0 |
| Packing.Collate | crates/grim-autograd/src/collate.rs:183-278 | the whole routine; error exactly when nothing was given or nothing fits |
| Bytes.OperationsAreMachineOperations | crates/grim-backend-cpu/src/dequant_gemm.rs:33-51 | the bit-list operations are the 8-bit machine operations |
| Bytes.ShiftsAreShifts | crates/grim-backend-cpu/src/dequant_gemm.rs:33-51 | the shifts and masks of the model, written by cases, are the machine's <<, >> and (1 << n) - 1 |
| BitPacking.ReadBits | crates/grim-backend-cpu/src/dequant_gemm.rs:27-54 | the reader's shifts and masks yield the next bpw bits of the stream, zeros past its end |
| BitPacking.WriteBits | crates/grim-backend-cpu/src/dequant_gemm.rs:197-230 | writing a code sets exactly its bits at its place |
| BitPacking.StoredIsRead | crates/grim-backend-cpu/src/dequant_gemm.rs:27-54 | a code stored at an offset is what the reader returns there |
| BitPacking.PackCodes | crates/grim-backend-cpu/src/dequant_gemm.rs:197-230 | the packer stores every code and nothing after them |
| Dequant.DequantRow | crates/grim-backend-cpu/src/dequant_gemm.rs:7-190 | decode, scale, two backup merges and outliers, in that order |
| Dequant.OutlierWins | crates/grim-backend-cpu/src/dequant_gemm.rs:181-187 | the last outlier of a column wins; other columns keep their value |
| DequantValues.CodeIsBits | crates/grim-backend-cpu/src/dequant_gemm.rs:27-54 | the code is the number in the next bpw bits, most significant first |
| DequantValues.RowIs | crates/grim-backend-cpu/src/dequant_gemm.rs:16-179 | column c is the base level times the row's scale in 255ths, plus a level times its own scale for backup 1 if present and ordered quantisation is on, and for backup 2 if present; levels spread evenly over -1..1, the extension's width replacing the default |
| DequantValues.RowBytesLeast | crates/grim-backend-cpu/src/dequant_gemm.rs:19 | rows start at the least multiple of 256 bytes that holds their bits |
| PackedRows.RowReadLocal | crates/grim-backend-cpu/src/dequant_gemm.rs:19-54 | decoding a column reads only the row's own bytes |
| PackedRows.PackRow | crates/grim-backend-cpu/src/dequant_gemm.rs:197-230 | packed and padded to the aligned length, holding every code |
| PackedRows.RowsRoundTrip | crates/grim-backend-cpu/src/dequant_gemm.rs:19-54 | for every bpw in 1..8 and every row of a buffer at the aligned stride, decoding returns the packed codes |
| PackedRows.QuantisationError | crates/grim-backend-cpu/src/dequant_gemm.rs:56-59 | the decoded value is within 1/(2^bpw - 1) of the clamped weight |
| PackedRows.PackedWeightsReturn | crates/grim-backend-cpu/src/dequant_gemm.rs:7-230 | end to end: rows quantised, packed and concatenated decode to within a step of the clamped weights times the row's scale, wherever no outlier replaces the value |
| PackedRows.StoreAndLoad | crates/grim-backend-cpu/src/dequant_gemm.rs:197-250 | packing a matrix and decoding a row with unit scale returns every clamped weight within 1/(2^bpw - 1) |
| SlotNames.WeightSlotInjective | crates/grim-autograd/src/adamw.rs:253-261 | weight names are equal if and only if the parameter ids are |
| SlotNames.SuffixInjective | crates/grim-autograd/src/injection.rs:36-49 | distinct injection points have distinct suffixes |
| SlotNames.MomentSlotShared | crates/grim-autograd/src/adamw.rs:265-280 | moment names are equal if and only if the ids are equal up to the A/B flag |
| SlotNames.SlotKindsDisjoint | crates/grim-autograd/src/adamw.rs:253-280 | weight, first-moment and second-moment names never coincide |
| SlotNames.PagedKeyForgetsPoint | crates/grim-autograd/src/adamw.rs:1517-1541 | page keys are equal if and only if page and id agree up to the injection point |
| SlotNames.PagedKeysApart | crates/grim-autograd/src/adamw.rs:1517-1541 | page names of the two moments, and any other slot name, never coincide |
| SavedValues.DigitsAreDecimal | crates/grim-autograd/src/adamw.rs:253-287 | numbers appear in decimal without leading zeros |
| SavedValues.NamesAre | crates/grim-autograd/src/adamw.rs:253-280 | the texts of the weight and moment names |
| SavedValues.PageNamesAre | crates/grim-autograd/src/adamw.rs:1519-1534 | the texts of the page names |
| TrainStates.BufferRoundTrip | crates/grim-autograd/src/adamw.rs:915-931 | decoding an encoded buffer of representable values returns it |
| TrainStates.SaveToTrainState | crates/grim-autograd/src/adamw.rs:824-863 | the save loop builds the state of the specification |
| TrainStates.LoadFromTrainState | crates/grim-autograd/src/adamw.rs:866-911 | the load loop, with what is left behind when it stops on an error |
| TrainStates.LoadAfterSave | crates/grim-autograd/src/adamw.rs:824-912 | for any two orders: the load succeeds exactly when every slot read has the reader's size; then all data is restored and moments are those of the last writer of the slot |
| TrainStates.LoadSucceedsIff | crates/grim-autograd/src/adamw.rs:824-912 | for any two orders: the load succeeds if and only if the registered twin of every parameter with a saved moment has its size |
| TrainStates.MomentsRestoredIff | crates/grim-autograd/src/adamw.rs:824-912 | after a load that succeeds: all weights are back; first (second) moments are back if and only if twins that both saved one saved equal ones; a parameter that saved none holds its twin's |
| TrainStates.CheckpointRoundTripIff | crates/grim-autograd/src/adamw.rs:824-912 | the load succeeds with everything back if and only if twins agree, in size where one saved a moment and in value where both did |
| TrainStates.UnreachedKept | crates/grim-autograd/src/adamw.rs:866-911 | a load that stops leaves every parameter it has not reached as it was |
| SavedValues.HeaderSaved | crates/grim-autograd/src/adamw.rs:824-846 | the step count is saved, and the state's own format is that of the last half-precision parameter |
| SavedValues.OnlyTheirBlobs | crates/grim-autograd/src/adamw.rs:832-860 | every blob is a weight or moment of a saved parameter, with its shape |
| SavedValues.OldStateLoads | crates/grim-autograd/src/adamw.rs:872-894 | a state without per-slot formats is read in its own format |
| SavedValues.ErrorLeaves | crates/grim-autograd/src/adamw.rs:866-911 | a broken first (second) moment fails the load after the weight (and first moment) is in place |
| PagedStates.SavePagedState | crates/grim-autograd/src/adamw.rs:1517-1545 | the save loops over weights and pages build the blobs of the specification |
| PagedStates.LoadPagedState | crates/grim-autograd/src/adamw.rs:1548-1600 | the load loops: a weight that does not fit stops the load, a page that does not decode is skipped |
| PagedStates.PagedRoundTripIff | crates/grim-autograd/src/adamw.rs:1517-1600 | for any orders: the load succeeds with every weight back, and all saved pages are back if and only if pages with colliding names were equal |
| SavedValues.LoadKeepsFlags | crates/grim-autograd/src/adamw.rs:1548-1600 | a load keeps the flags of existing pages and leaves new ones clean and off the device |
| SavedValues.PagesFromFlat | crates/grim-autograd/src/adamw.rs:1573-1596 | from a flat state every page receives the whole moments of its parameter |
| ResumedRuns.ResumedRunIff | crates/grim-autograd/src/adamw.rs:708-735 | with weights and moments kept, continuing with other step counts is the same run for all gradients if and only if every parameter that can move takes the same next step number, or β1 = β2 = 0, or its learning rate (LoRA+ ratio included) is 0 |
| ResumedRuns.FreshResumeIff | crates/grim-autograd/src/adamw.rs:866-911 | loading into a fresh optimizer resumes the run if and only if no such parameter had been stepped, with the same two exceptions |

## Left out

- Rounding, NaN and infinity of `f32`: arithmetic is over the reals, and the negative-infinity start of a running maximum is "empty so far".
- GPU, ROCm, CUDA, Vulkan, Metal and RCCL paths and device dispatch: the CPU or component-arithmetic branch is modelled everywhere; the CPU has no fused AdamW kernel, so its component arithmetic is what runs.
- Dtypes, devices, provenance and error strings: a tensor is its shape and its values; errors are a missing tensor, a failing kernel or a duplicate contribution.
- The concrete loops of SiluMul, RmsNorm and Softmax: they enter the engine as kernels assumed lawful; SelectiveScan is not modelled because its replay is a placeholder.
- CpuKernels.CpuBackwardIsTheAdjoint: covers a transposed left operand, rotary tables and LoRA inputs only at the shapes for which `TransposedLeftIffSquare`, `BothTransposedIffUnit`, `RopeGradientRightIff` and `LoraBackwardIff` say the gradient is right, because elsewhere it is wrong or missing.
- LoRA with `use_rs_lora` (its forward scale differs from the one backward and replay use), and LoRA of rank 0, whose scale divides by zero.
- LoRA matrices stored with one axis: the backward routine would take them, replay rejects them.
- Derivatives with respect to the rotary tables: they are constants of the tape.
- The 32-bit width of tensor ids, and entries whose kind and metadata disagree, which no recording method produces.
- The global replay counter: the sweep returns the list of replayed segments instead.
- Broadcast shapes with an extent of 0, and operands that do not broadcast to the gradient's shape.
- Bit widths outside 1..8 in `dequant_row`; the unused train-time encoders of other formats.
- `Optimizer` variants other than AdamW, the paged AdamW and the moments of the 8-bit GaLore AdamW; its gradient projection and the branch without one.
- The rounding of layer shares in `allocate`: the rounded ranks are an input, so the theorems hold for any of them.
- The attention scale 1/sqrt(head_dim) is a parameter.
- Writing a train state to a file: the state is a value; each number format is a pair of functions, and round trips assume the saved values are representable in it.
- Paged states are their blobs, in one number format; blob shapes are written and never read back.
- Orthogonal fine-tuning, DoRA, VeRA, the SoulEater adapter around `invert_r_by_r`, randomised SVD initialisation and preference losses: not part of this model.
- `reset_momentum_for`, learning-rate schedules, gradient clipping and distributed reduction: each follows from one body.
