# HierarX batch engine in Dafny

This project models `BatchMaker`, the per-step batch engine of HierarX. HierarX trains hyperbolic
word and entity embeddings. It keeps one reusable `Batch` buffer. Every call of
`iterNextBatch` does the following:

- It draws a target entity.
- It rejection-samples `bs` context entities, distinct from each other and from the target.
  Each draw is a uniformly random ("negative") one or a "close" one, decided by an annealed
  ratio.
- It records each context's similarity and its manifold distance to the target.
- It tracks the first context of largest similarity, which becomes the single positive element.
- It accumulates a clamped logistic loss.
- It hands one gradient coefficient per element to the geometry's `diffDist`, which updates
  the target's and the context's gradient accumulators.
- It advances the training progress counter.

The two constructors allocate the buffer and one gradient accumulator per vocabulary entity.
One constructor is for a `VecBinder` (vocabulary with feature vectors), the other for a
`Similarity` table.

Modules, in dependency order:

- `Outcomes`: `Option` and `Result`.
- `Kernels`: `logexp`, `neglogexp` and `exp`, clamped at `MAX_EXP = 16`. `log`, `exp`,
  `NumericalDifferentiate::diff` and `dot` are uninterpreted functions carried in a
  `Numerics` value.
- `Annealing`: `positiveRatio`. Its IEEE result type covers `totaliter == 0`.
- `Collaborators`: the external objects, as oracles:
  - the two samplers, indexed by a tick that the engine advances once per draw;
  - the geometry (`dist`, `diffDist`, `project`);
  - the accumulator kinds (Poincaré, Poincaré stack, Lorentz) and the space selector.
- `Sampling`: one attempt of the do-while body, and `SampleFrom`, the specification of
  rejection sampling over the attempt stream.
- `Scoring`: the running maximum, the loss of a batch, the `diffDist` calls of the loss loop
  and the accumulator table they produce.
- `Engine`: the classes `Batch` and `BatchMaker`, whose methods update the buffer's fields in
  place. It also holds the two constructors, as factories that return a `Result`.

`IterNextBatch` is proved against the specification functions. After a successful call:

- the buffer holds exactly what `SampleFrom` yields from the tick after the target draw;
- the similarities' running maximum is held in `maxSimIndex`/`maxSimValue`;
- the distances are recorded;
- the gradient table equals `Accumulate` over the batch's `diffDist` calls;
- the loss equals `BatchLoss`.

The lemmas then state what those functions mean:

- the contexts are pairwise distinct and never the target;
- the maximum is the first one;
- the loss is the positive's `logexp(-d)` plus the negatives' sum over `bs - 1`;
- only the batch's own accumulators change.

## Model

| member | source | states |
|---|---|---|
| Kernels.KernelsClampArgument | src/BatchMaker.cpp:212-237 | each kernel computes its `log`/`exp` formula at the argument saturated to [-16, 16] |
| Kernels.LogExpSaturates | src/BatchMaker.cpp:212-219 | `logexp(x) == logexp(16)` for every `x >= 16`, and `logexp(x) == logexp(-16)` for every `x <= -16` (a distance of 1000 costs what 16 costs) |
| Kernels.NegLogExpSaturates | src/BatchMaker.cpp:221-228 | `neglogexp` saturates the same way at both ends |
| Kernels.ClampedExpSaturates | src/BatchMaker.cpp:230-237 | `exp` saturates the same way at both ends |
| Kernels.NegLogExpMirrorsLogExp | src/BatchMaker.cpp:212-228 | `neglogexp(x) == logexp(-x)` for every `x`, saturated arguments included, whatever `log` and `exp` compute |
| Kernels.Clamp | src/BatchMaker.cpp:213-217 | the saturated argument lies in [-16, 16], equals `x` inside that range, and is the nearer bound outside it |
| Annealing.RatioEndpoints | src/BatchMaker.cpp:285-287 | the ratio is finite exactly when `totaliter != 0`, equals `ratioNeighbors` at progress 0 and `maxRatioValue` at progress `totaliter`; with `totaliter == 0` it is NaN exactly when `0/0` is computed |
| Annealing.RatioNondecreasing | src/BatchMaker.cpp:285-287 | with `totaliter > 0` and `ratioNeighbors <= maxRatioValue`, the ratio never decreases as progress grows |
| Annealing.RatioWithinBounds | src/BatchMaker.cpp:285-287 | between progress 0 and `totaliter` the ratio stays between `ratioNeighbors` and `maxRatioValue` |
| Annealing.RatioConstantWhenEqual | src/BatchMaker.cpp:285-287 | with equal ratios the annealed ratio is the same at every step |
| Collaborators.Zeros | src/BatchMaker.cpp:51-53 | a vector of `n` zeros, the initial `targetVector`, `contextSimilarity` and `losses` |
| Sampling.SampledDistinct | src/BatchMaker.cpp:96-118 | a completed sampling yields exactly `n` draws, pairwise distinct in index, none in the excluded set (the target), and ends at or after the start tick |
| Sampling.FuelOnlyBounds | src/BatchMaker.cpp:108-114 | the draw bound only cuts the search short: with more draws allowed, a batch that was found is found again, identical |
| Sampling.AttemptsInVocabulary | src/BatchMaker.cpp:108-114 | a sampler confined to the vocabulary attempts only vocabulary entities |
| Sampling.DrawsInVocabulary | src/BatchMaker.cpp:105-118 | every accepted context lies where the stream's attempts lie |
| Sampling.TwoEntitiesOneContext | src/BatchMaker.cpp:105-118 | with two entities and `bs == 1`, the single context is always the entity that is not the target, whatever the random draws |
| Scoring.RunningMaxIsFirstMaximum | src/BatchMaker.cpp:123-126 | the tracked value is `max(-10, max of the similarities)`, and its index is the first position holding it, or 0 when no similarity exceeds -10 |
| Scoring.RunningMaxIndexInRange | src/BatchMaker.cpp:98-126 | the positive's index is a slot of the batch, or 0 for an empty batch |
| Scoring.RunningMaxStep | src/BatchMaker.cpp:123-126 | one more similarity moves the maximum to it exactly when it is strictly greater |
| Scoring.PositiveTerm | src/BatchMaker.cpp:200-202 | the positive's loss term is `logexp(-d)`, not divided |
| Scoring.NegativeTerm | src/BatchMaker.cpp:200-202 | a negative's loss term is `logexp(d) / (bs - 1)` |
| Scoring.LossSplitsIntoPositiveAndNegatives | src/BatchMaker.cpp:175-204 | the loss is the positive's `logexp(-losses[maxSimIndex])` plus the negatives' `logexp(losses[i])` summed and divided by `bs - 1` |
| Scoring.SingleElementIsPositive | src/BatchMaker.cpp:177-202 | with `bs == 1` the only element is the positive: the loss is `logexp(-d)` and no division by `bs - 1` happens |
| Scoring.AddressablePrefix | src/BatchMaker.cpp:186-189 | how many `diffDist` calls run before `grads->at` throws: all calls before it are addressable and the one after it, if any, is not |
| Scoring.Apply | src/BatchMaker.cpp:186-196 | one `diffDist` call keeps the table's size and changes no accumulator but the target's and the context's |
| Scoring.Accumulate | src/BatchMaker.cpp:175-204 | the table after the first `n` calls, in order, has the size it started with |
| Scoring.AccumulateTouchesOnlyNamed | src/BatchMaker.cpp:186-196 | an accumulator that none of the first `n` calls names is left as it was |
| Scoring.LossLoopStep | src/BatchMaker.cpp:175-204 | at element `i`, `grads->at` succeeds exactly when both indexes are in the table, and then the table grows by call `i` with the right coefficient and the loss by term `i` |
| Scoring.BatchTouchesOnlyItsEntities | src/BatchMaker.cpp:175-204 | the calls of a batch change no accumulator but the target's and the contexts' |
| Engine.AllocateGrads | src/BatchMaker.cpp:54-72 | one fresh accumulator per vocabulary entity, projected on the ball models; an unrecognised format fails exactly when the vocabulary is not empty |
| Engine.InVocabularyNeverOutOfRange | src/BatchMaker.cpp:186-189 | when the samplers stay inside the vocabulary, every `diffDist` call of a batch is addressable: `grads->at` never throws |
| Engine.SlotsStep | src/BatchMaker.cpp:115-130 | recording one more accepted draw extends the recorded indexes, similarities, distances, running maximum and `chosen` by that draw |
| Engine.LossLoopEnds | src/BatchMaker.cpp:175-204 | the loss loop ends where the addressable prefix ends, by a throw exactly when that is before the last element; after a complete loop, only the batch's accumulators changed and `chosen` is empty when `bs >= 1` |
| Engine.Batch.constructor | src/BatchMaker.cpp:49-81 | the fresh buffer: target -1, `contextIndexes` all -1, zero similarities and distances, maximum seeded at (0, -10), loss 0, empty `chosen` |
| Engine.BatchMaker.constructor | src/BatchMaker.cpp:38-49 | the fields both constructors set, with `totaliter == nloop * sampling` and progress 0 |
| Engine.BatchMaker.IterNextBatch | src/BatchMaker.cpp:85-210 | the target is the tick's draw; the call is exhausted exactly when rejection sampling finds no batch; otherwise the buffer holds the sampled batch, and the gradient table and loss are the loss loop's outcome; progress grows by one exactly when the batch is returned; buffer lengths never change |
| Engine.BatchMaker.SampleBatch | src/BatchMaker.cpp:87-170 | `chosen` is cleared and then holds the target; the slots are filled exactly as `SampleFrom` dictates; `chosen` ends as the target and the contexts |
| Engine.BatchMaker.DrawTarget | src/BatchMaker.cpp:92-144 | the target draw of either mode, one tick, and the per-batch resets: maximum (0, -10), loss 0, `niter == bs` |
| Engine.BatchMaker.FillContexts | src/BatchMaker.cpp:105-132 | the sampling loop yields exactly `SampleFrom`'s draws, their similarities, the running maximum over them, their distances to the target, and `chosen` as the target plus them |
| Engine.BatchMaker.FillSlot | src/BatchMaker.cpp:105-132 | one slot: the rejection run of `SampleFrom` for this slot, then the slot's bookkeeping extends what the buffer holds by the accepted draw |
| Engine.BatchMaker.DrawUntilFresh | src/BatchMaker.cpp:108-114 | the do-while: draws until an index not in `chosen` comes up; it fails exactly when `SampleFrom` runs out of draws first; earlier slots' similarities are untouched |
| Engine.BatchMaker.DrawOnce | src/BatchMaker.cpp:148-155 | one pass of the do-while body is the stream's draw at the current tick; in similarity mode `contextSimilarity[i]` is overwritten by it on every retry |
| Engine.BatchMaker.RecordContext | src/BatchMaker.cpp:115-130 | after the do-while: `chosen` gains the index, slot `i` gets index, similarity and distance, and the maximum moves exactly on a strictly greater similarity |
| Engine.BatchMaker.AccumulateGradients | src/BatchMaker.cpp:175-204 | the loss loop leaves the table as `Accumulate` over the addressable prefix of the batch's calls, the loss as `BatchLoss` over it, and reports the out-of-range throw exactly when the prefix stops short |
| Engine.BatchMaker.ApplyElement | src/BatchMaker.cpp:177-203 | one pass of the loss loop after both `grads->at` succeed: the table grows by call `i` with element `i`'s coefficient, the loss by term `i`, and `chosen` is cleared |
| Engine.NewWithVecBinder | src/BatchMaker.cpp:31-83 | fails with the ratio-order assertion (as compiled in without `NDEBUG`) exactly when `maxposthres < posthres`, and otherwise with the unimplemented-space throw exactly on an unrecognised format and a non-empty vocabulary; on success: the ratios, geometry, numeric routines and uniform stream are the arguments, no draw is made yet, one accumulator per entity, a zero target vector of the binder's dimension, target -1, contexts -1, zero similarities and distances, empty `chosen`, `niter == bs` |
| Engine.NewWithSimilarity | src/BatchMaker.cpp:239-283 | no ratio-order check; fails exactly on an unrecognised format and a non-empty vocabulary; on success: the ratios, geometry, numeric routines and uniform stream are the arguments, no draw is made yet, one accumulator per entity, an empty target vector, target -1, contexts -1, zero similarities and distances, empty `chosen`, `niter` left unset |

## How the code is read

- With `bs == 1` the single context is always at `maxSimIndex == 0`. It is therefore the
  positive: its loss term is `logexp(-d)` at direction -1, and no division by `bs - 1` is
  reached (`Scoring.SingleElementIsPositive`). The single context is the positive even
  when it was drawn as a negative one.
- A ratio of 0 does not force every draw to be a negative one. The test is `u > ratio`, so a
  uniform draw of exactly 0.0 still takes the close branch (`Annealing.Exceeds`).
- With `totaliter == 0` the division in `positiveRatio` is a floating-point division by zero.
  - It gives an infinity when the numerator is non-zero, and NaN when it is zero.
  - Against NaN, `u > ratio` is false, so every draw is close.
  - `Annealing.PositiveRatio` returns these IEEE values instead of excluding the case.
- The similarity-mode constructor neither checks the ratio order nor sets `niter`.
  `iterNextBatch` sets `niter` to `bs` in both modes before using it.
- The local `sum` of the loss loop is never used, so it is not modelled.

## Left out

- Floating point: every value is a `real`. Rounding, overflow of `exp` and the numerical values of `log`, `exp`, `dot`, `dist` and `NumericalDifferentiate::diff` are not modelled; they are uninterpreted functions, so the kernels' properties hold whatever they compute.
- The geometry: `dist`, `diffDist`, `project` and the internals of PoincareVector, PoincareStack and LorentzVector are external formulas, taken as uninterpreted functions.
- `Random::Double` and the `VecBinder`/`Similarity` samplers are oracles indexed by a tick; their internals and distributions are not modelled.
- Engine.BatchMaker.IterNextBatch: the do-while loops have no bound in the source. The model bounds the draws of a batch by `fuel` and reports `Exhausted` when it runs out. The stated properties hold on the other outcomes, and `Sampling.FuelOnlyBounds` shows that the bound does not change a batch it lets through.
- Engine.BatchMaker.IterNextBatch: `targetVector` is copied as a value. In the source it aliases the scratch pair's vector (src/BatchMaker.cpp:97), which later draws may overwrite.
- Engine.BatchMaker.constructor: `totaliter` is `nloop * sampling` on unbounded integers. The 32-bit overflow of the C++ product is not modelled, and neither is that of `progress` after 2^31 batches.
- Engine.BatchMaker.AccumulateGradients: the only out-of-range throw modelled is that of `grads->at` in the loss loop (src/BatchMaker.cpp:188-189). The sampling loops already pass the same target and context indexes to `pemb->at` (src/BatchMaker.cpp:129-130, 169-170); `HyperbolicEmbedding::at` is not part of this model, and the model takes it as unchecked. If it does check, the program throws during sampling with `grads` untouched, whereas the model reports `OutOfRange` after applying the `diffDist` calls of the addressable prefix. `Engine.InVocabularyNeverOutOfRange` states when neither can throw.
- Engine.BatchMaker.IterNextBatch: for the same reason, an index outside the vocabulary is reported as `OutOfRange` only by the loss loop, not at its first use in `pemb->at`.
- Engine.NewWithVecBinder: `Args.bs` is a `nat`. A negative `bs`, for which `std::vector<int>(bs, -1)` throws `std::length_error` (src/BatchMaker.cpp:52), is not modelled. A negative vocabulary size behaves as 0 in the allocation loop, which the `nat` vocabulary size of 0 covers.
- Engine.NewWithSimilarity: the same negative `bs` error path (src/BatchMaker.cpp:253) is not modelled.
- Engine.NewWithVecBinder: `RatioOrder` models the `assert` at src/BatchMaker.cpp:43 as compiled in. In a build with `NDEBUG` there is no check and construction goes on with the ratios as given.
- Concurrency: Hogwild-style training threads that write into shared gradient accumulators at the same time are not modelled; every call here is sequential.
- Memory management is not modelled: the heap allocation of the buffer and its vectors, and the leak of the vocabulary-mode target vector.
- src/MainProcessor.h (thread orchestration) is not part of this model.
- `BatchMaker.h` is not part of this model. The field types (`int` sizes and counters, `double` ratios and values) are inferred from their uses.
