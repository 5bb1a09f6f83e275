# Mixup operators of the ffcv data-loading pipeline

This project models `ffcv/augmentations/mixup.py`. The file holds two
batch-level augmentation operators:

- `Mixup` blends every image of a batch with a partner image from the same
  batch.
- `LabelMixup` records, for every sample, its own label, its partner's label
  and the blend weight.

Each operator has two parts:

- A planning call, `declare_state_and_memory`. It takes the pipeline state and
  returns the next state and a request for a destination buffer (an
  allocation query).
- A per-batch transform, the closure that `generate_code` returns. It works in
  place on the batch and on that buffer.

Neither per-batch call refers to the other. Each one seeds a fresh numpy
generator from the batch's `random_seed`, draws a permutation (the partner
order), then draws one weight per sample. Because both make the same draws in
the same order, they agree on every partner and every weight. The model makes
this coupling explicit and proves it.

Files:

- `pipeline.dfy` (module `Pipeline`): the pipeline state, stage, allocation
  query and planning result, reduced to the fields these operators use.
- `numpy_random.dfy` (module `NumpyRandom`): numpy's seeded `Generator`. What
  it draws is a parameter, `BitGenerator`: a pair of functions of the seed, of
  the calls made on the generator so far, and of the size asked for. `Sound`
  states what numpy promises of it: `permutation(n)` is a permutation of
  `[0, n)`, and `random(n)` is n values in `[0, 1)`. `Draws` is the draw
  sequence both operators make.
- `numpy_arrays.dfy` (module `NumpyArrays`): the in-place numpy operations the
  transforms perform, on `array2<real>` batches with one row per sample:
  - gathering rows through an index array (`dst[:] = a[order]`);
  - scaling each row by its own weight (`a *= lam`);
  - element-wise addition (`a += b`).
- `mixup.dfy` (module `Mixup`): the two planning calls, the two per-batch
  transforms, the transforms as the source writes them (see Findings), and the
  lemmas about them.

The per-batch transforms are imperative methods with loops. They are proved
against value-level specification functions:

- `Mixed` is the mixup formula: sample i blended with sample `order[i]` at
  weight `lam[i]`.
- `LabelTable` is the three-column label record.

The lemmas state what those functions mean.

Three details of the planning calls:

- The image operator's query names no dtype (`dtype` is `None` in the model).
- The label operator's query asks for the per-sample shape `(3,)`; the driver
  adds the batch axis.
- The label operator's planning call has no stage or JIT check, so it never
  fails.

## Model

| member | source | states |
|---|---|---|
| `Mixup.MixupDeclare` | ffcv/augmentations/mixup.py:57-61 | Planning succeeds if and only if `jit_mode` is true and the stage is `BATCHES`. The JIT check comes first, so a state failing both reports the JIT error. On success the state is returned unchanged, with a query for the per-sample shape and no dtype. |
| `Mixup.LabelMixupDeclare` | ffcv/augmentations/mixup.py:29-30 | Returns the state unchanged, with a query for shape `(3,)` of `float16`. Never fails. |
| `Mixup.DeclareAllKeepsState` | ffcv/augmentations/mixup.py:29-61 | Planning any run of the two operators in order, each handed its predecessor's state, succeeds if and only if the run has no `Mixup` or the state is JIT and per-batch. On success the final state equals the initial one, and operator k gets exactly the query its planning call names. |
| `NumpyRandom.Draws` | ffcv/augmentations/mixup.py:19-21 | The draws of one transform call: a fresh generator from the seed, a permutation of `[0, n)`, then n weights in `[0, 1)`. |
| `NumpyRandom.DrawPermutation` | ffcv/augmentations/mixup.py:43 | `rng.permutation(n)` yields a permutation of `[0, n)` and records the call on the generator. |
| `NumpyRandom.DrawRandom` | ffcv/augmentations/mixup.py:47 | The uniform draw yields n values in `[0, 1)` and records the call on the generator. |
| `NumpyRandom.ReplayPrefix` | ffcv/augmentations/mixup.py:39-40 | On generators seeded alike, the values a sequence of calls yields do not depend on calls made after them. So two callers agree on their first draws whenever they make the same first calls. |
| `NumpyRandom.DrawsAreReplay` | ffcv/augmentations/mixup.py:40-47 | Any caller that seeds a fresh generator and starts with `permutation(n)` then `random(n)` gets exactly `Draws`. This is the coupling both operators rely on. |
| `NumpyArrays.GatherInto` | ffcv/augmentations/mixup.py:44 | After `dst[:] = image_batch[order]`, row i of `dst` is row `order[i]` of the batch. The batch is only read. |
| `NumpyArrays.GatheredIsRearrangement` | ffcv/augmentations/mixup.py:43-44 | Gathering through a permutation yields a rearrangement of the rows: the same multiset. |
| `NumpyArrays.ScaleRowsInPlace` | ffcv/augmentations/mixup.py:50-51 | `a *= lam` with one weight per sample multiplies every element of row i by `lam[i]`. Nothing else changes. |
| `NumpyArrays.AddInPlace` | ffcv/augmentations/mixup.py:52 | `a += b` adds element by element. `b` is only read. |
| `Mixup.MixupBatch` | ffcv/augmentations/mixup.py:38-53 | Returns the batch it was given, with its shape unchanged. Afterwards the batch is `Mixed` of the original under the seed's draws: element j of sample i is `lam[i]*orig[i][j] + (1-lam[i])*orig[order[i]][j]`. `dst` holds the partners scaled by `1 - lam`. |
| `Mixup.InPlaceStepsMix` | ffcv/augmentations/mixup.py:50-52 | The three in-place steps (scale by `lam`, scale the gathered copy by `1 - lam`, add) compute exactly the mixup formula `Mixed`. |
| `Mixup.SelfPartnerUnchanged` | ffcv/augmentations/mixup.py:50-52 | A sample whose partner is itself comes out equal to the original, for any weight. |
| `Mixup.MixedBetween` | ffcv/augmentations/mixup.py:47-52 | With weights in `[0, 1)`, every mixed element lies between the two elements it blends. |
| `Mixup.LabelMixup` | ffcv/augmentations/mixup.py:18-25 | Returns `dst`. Row i of `dst` becomes `[lab[i], lab[order[i]], lam[i]]` under the same seed's draws as the image operator. The label batch is only read. |
| `Mixup.LabelTableConsistent` | ffcv/augmentations/mixup.py:22-23 | In the label table, the partner label of row i is the own label of row `order[i]`. Column 0 gives back the label batch. |
| `Mixup.LabelTableMatchesMixedLabels` | ffcv/augmentations/mixup.py:22-24 | Treat each label as a one-element sample. The mixup of label i equals `t[i][2]*t[i][0] + (1-t[i][2])*t[i][1]`, computed from the table row alone. |
| `Mixup.PartnersAgree` | ffcv/augmentations/mixup.py:19-24 | For every row i there is a sample p such that: the label table records p's label as row i's partner label, and image row i is `Blend(row i, row p, w)` with `w` the weight the table records. |
| `Mixup.MixupWithLabels` | ffcv/augmentations/mixup.py:39-47 | Runs both transforms on one batch with the same state. For every row i: the label buffer holds `lab[i]` and `lab[p]`, where p is the partner drawn for row i, and image row i is the original row i blended with the original row p at the weight in the label buffer. |
| `Mixup.SourceNamesMissing` | ffcv/augmentations/mixup.py:20-21 | `permtuation` and `rand` are not attributes of numpy's `Generator`. `permutation` and `random` are. |
| `Mixup.MixupBatchAsWritten` | ffcv/augmentations/mixup.py:40-47 | The image transform as written, run as interpreted Python. The lookup of `permutation` succeeds, the permutation is drawn and `dst` is overwritten with the gathered batch, a rearrangement of it. Then the lookup of `rand` fails, so the call ends with an attribute error for `rand`, and the batch itself is left untouched. |
| `Mixup.LabelMixupAsWritten` | ffcv/augmentations/mixup.py:19-21 | The label transform as written seeds a generator and looks up `permtuation`. The lookup fails, so every call ends with an attribute error for `permtuation`, before anything is drawn or written. |

## Left out

- numpy's `default_rng`, `permutation` and `random`, and attribute lookup on
  a `Generator`, are foreign calls. The drawn values come from the
  `BitGenerator` parameter. `Sound` is what numpy promises of them: a
  permutation of `[0, n)`, and values in `[0, 1)`. The actual pseudo-random
  algorithm is not modelled. Attribute lookup (`GetAttr`) is modelled for
  public names only, against the list `GeneratorAttributes`; underscore and
  dunder attributes, which a real `Generator` also has, are not modelled.
- Mixup.MixupDeclare: its two checks are Python `assert` statements. Under
  `python -O` they are removed, and planning then returns the state and a
  query of the sample shape for any state. The contract's "succeeds if and
  only if JIT and per-batch" holds only when assertions are enabled.
- Floating point and `float16` precision: images, weights and labels are
  `real`. The blend identities hold exactly only over reals. Storing a label
  or weight in a `float16` buffer would round it.
- Mixup.MixupBatch: the `array2<real>` batch stands for a floating-point
  batch only. For an integer batch such as `uint8`, `image_batch *= lam`
  multiplies in place by float64 weights, and numpy refuses to cast the
  result back to the integer type and raises an error. That error path is not
  modelled.
- Numba compilation and the closure mechanism of `generate_code`: each closure
  is a method taking the state, the batch and the buffer.
- The `Operation` base class, and `State`, `Stage` and `AllocationQuery`
  beyond the fields used here. `ffcv/pipeline/state.py`, `stage.py`,
  `allocation_query.py` and `operation.py` are not part of this model. `Stage`
  has only the per-sample and per-batch phases. The seed is an integer (no
  `None` or seed sequence).
- The `alpha` parameter of both operators is stored but never used by the
  source, so it is not modelled.
- The pipeline driver: buffer pooling, the batch axis it adds to each query,
  and multi-worker execution.
- Mixup.MixupBatch: the per-sample shape is flattened into one row. The
  weights' `(n, 1, 1, 1)` shape is modelled as one weight per row. The
  source's implicit need for a 4-D image batch is not modelled.
- Mixup.MixupBatch, Mixup.LabelMixup: a `dst` whose shape differs from the
  declared allocation is excluded by `requires`. In the source that is a numpy
  broadcasting error or silent broadcasting. The allocator's promise that
  `dst` is not aliased with the batch or with another operator's buffer is
  also a `requires`.
- Mixup.MixupBatchAsWritten: follows an interpreted run, which writes `dst`
  before the `rand` lookup fails. Under `jit_mode`, which the image operator
  requires, Numba compiles the closure, and the unknown attribute is a typing
  error at compile time: the call then fails before any write. The
  compile-time failure is not modelled.
- Mixup.LabelMixup: labels are one real per sample. Label batches of another
  shape, for which `dst[:, 0] = lab_batch` would not broadcast, are not
  modelled.

## Findings

| source | as written | input that shows it | evidently intended | confidence | as-written member | corrected member |
|---|---|---|---|---|---|---|
| ffcv/augmentations/mixup.py:20 | `rng.permtuation(lab_batch.shape[0])`: a misspelt attribute, which numpy's `Generator` does not have | any call of `label_mixup`, whatever the seed and batch | `rng.permutation(lab_batch.shape[0])`, the same draw as the image operator | high; not executed | `Mixup.LabelMixupAsWritten` | `Mixup.LabelMixup` |
| ffcv/augmentations/mixup.py:47 | `rng.rand(...)`: numpy's `Generator` has no `rand` method. The same call at line 21 is hidden behind the typo at line 20. | any call of `mixup_batch`. Run as interpreted Python, it fails after `dst` has already been overwritten; compiled by Numba, it fails before it runs. | `rng.random(n)`: n uniform weights in `[0, 1)`, drawn after the permutation | high; not executed | `Mixup.MixupBatchAsWritten` | `Mixup.MixupBatch` |
