# Transformer length-of-stay model: verified structural core

This project is a Dafny model of the discrete rules around the neural layers of the
Transformer length-of-stay predictor in `models/transformer_model.py`. The predictor works on
eICU admissions. The learnt and floating-point parts are passed in as function-typed
parameters. The Dafny verifier proves everything that is pure index and case logic:

- **Causal mask** (`CausalMask`). `TransformerEncoder._causal_mask` builds a T × T additive
  mask from `triu`, `transpose` and `masked_fill`. Entry (i, j) is 0 exactly when j ≤ i and −∞
  otherwise, so row i has i + 1 finite entries. The model also follows the mask through the
  softmax of one query row. The resulting distribution is zero on every later key. The output
  at position i is unchanged by anything at later positions.
- **Positional table** (`Positional`). The table is d_model × 336 (14 · 24 hourly steps).
  Building it fails for d_model = 0 (its frequency scale divides by d_model) and for an odd
  d_model above 1. Adding it to a B × d_model × T batch adds
  column t to step t of every sequence. The addition fails exactly when T > 336. The
  sine/cosine values are given functions.
- **Fusion layout** (`Fusion`). The first five timesteps are dropped. The static features and
  the diagnosis encoding are repeated T − 5 times per sequence (`repeat_interleave`). Time is
  folded into the batch axis. Rows are concatenated as static | diagnoses | encoder. Scores are
  reshaped back to B × (T − 5). Row b·(T − 5) + k belongs to step k + 5 of sequence b
  (`FlatIndex`).
- **Output link** (`Output`). The clamp to [1/48, 100] (`hardtanh`) is applied directly, or
  after a given `exp`.
- **Constructor and dispatch** (`Transformer`):
  - the batch-norm variant of each of the two head stages;
  - the momentum;
  - the layer widths;
  - the forward pass as a whole;
  - the loss dispatch, whose unknown names fail;
  - the order-preserving `remove_none` filter.

Tensors are nested sequences of `real`. A B × C × T tensor is a `seq` of B matrices of C rows
of length T. These failures of the original are modelled as `Err` values of `Common.Result`:

- a dropout rate outside [0, 1] when the model is constructed;
- d_model = 0 or an odd d_model above 1 when the positional table is built, and so when the
  model is constructed;
- more than 336 timesteps when the table is added;
- an empty prediction window in the forward pass;
- an unknown loss name (an unbound local).

Every other shape mismatch PyTorch would reject is excluded by a precondition instead (see
"## Left out").

Two behaviours at the edges follow from the code as written:

- The forward pass fails when T ≤ 5 or the batch is empty. `repeat_interleave` rejects a
  negative count. `view(0, -1)` of an empty tensor is ambiguous.
- An unknown `batchnorm` string silently selects the pass-through (`NoNorm`) for both stages.

## Model

| member | source | states |
|---|---|---|
| CausalMask.Mask | models/transformer_model.py:45-48 | the mask is T × T; entry (i, j) is 0 exactly when j ≤ i and −∞ exactly when j > i (so the diagonal is always finite) |
| CausalMask.MaskRowFiniteCount | models/transformer_model.py:45-48 | row i of the mask has exactly i + 1 finite entries, the keys 0..i |
| CausalMask.AttentionWeights | models/transformer_model.py:56 | the masked softmax of query i is a distribution: weights sum to 1, are 0 on every key j > i and positive on every key j ≤ i |
| CausalMask.FutureDoesNotLeak | models/transformer_model.py:56 | two inputs that agree on positions 0..i give the same attention weights and the same attention output at query i |
| Positional.BuildTable | models/transformer_model.py:15-24 | the table (a 336 × d_model block filled with sine values in even channels and cosine values in odd ones, then transposed) is d_model × 336 with entry [c][pos] the sine or cosine of pos at frequency c / 2; it fails with a zero-width error for d_model = 0 and with an odd-width error for an odd d_model above 1, and succeeds for every other width |
| Positional.AddPositional | models/transformer_model.py:26-30 | succeeds exactly when T ≤ 336; the result keeps shape B × d_model × T and entry [b][c][t] is x[b][c][t] plus table column t, the same for every batch element |
| Positional.PositionalPrefixConsistent | models/transformer_model.py:26-30 | encoding the first t′ steps of a batch gives the first t′ steps of encoding the whole batch: the signal at a step does not depend on the batch length |
| Output.Hardtanh | models/transformer_model.py:91 | the result lies in [1/48, 100]; values in range pass unchanged, values below become 1/48 and values above become 100 |
| Output.HardtanhIsNearest | models/transformer_model.py:91 | the clamp returns the point of [1/48, 100] nearest to its input |
| Output.HardtanhIdempotentMonotone | models/transformer_model.py:91 | clamping twice equals clamping once, and the clamp preserves order |
| Output.Transform | models/transformer_model.py:159-162 | every prediction lies in [1/48, 100] with or without `exp`; an in-range value (raw under no_exp, its exponential otherwise) passes unchanged, a value below the range becomes 1/48 and a value above it becomes 100 |
| Output.LogRecoversRaw | models/transformer_model.py:162 | with the exponential link, the logarithm of a prediction is the raw score unless the clamp cut it, and the logarithm of the bound it was cut to otherwise |
| Fusion.FlatIndex | models/transformer_model.py:153-155 | step k of sequence b sits at row b·n + k, below B·n, whose quotient and remainder by n are b and k |
| Fusion.FlatIndexCovers | models/transformer_model.py:153-155 | every row of a B·n-row layout is the flat index of its quotient (a sequence below B) and remainder (a step below n) |
| Fusion.Flatten | models/transformer_model.py:155 | laying B blocks of n rows one after another gives B·n rows, with row b·n + k holding row k of block b |
| Fusion.View | models/transformer_model.py:160 | reshaping B·n scores gives a B × n matrix |
| Fusion.ViewFlattenRoundTrip | models/transformer_model.py:155-160 | reshaping B·n scores to B × n and laying them out again gives back the scores |
| Fusion.FlattenViewRoundTrip | models/transformer_model.py:155-160 | laying out a B × n matrix and reshaping it to B × n gives back the matrix |
| Fusion.RetainedSteps | models/transformer_model.py:155 | the trimmed and permuted encoder output of one sequence has T − 5 rows of width d_model; row k holds the channels of step k + 5 |
| Fusion.RepeatInterleave | models/transformer_model.py:153-154 | repeating each of B rows n times gives B·n rows, and row b·n + k is row b |
| Fusion.Fuse | models/transformer_model.py:153-155 | the fused matrix is B·(T − 5) × (S + diagnosis_size + d_model); row b·(T − 5) + k is flat[b] ++ diagnoses[b] ++ encoder channels of step k + 5 of sequence b |
| Fusion.FusedRowParts | models/transformer_model.py:153-155 | every fused row i splits into the static features and diagnosis encoding of sequence i / (T − 5) and the encoder channels of its step i mod (T − 5) + 5 |
| Fusion.StaticPartShared | models/transformer_model.py:153-154 | any two fused rows of the same sequence carry the identical static and diagnosis sub-vector |
| Transformer.Momentum | models/transformer_model.py:88 | momentum is 0.01 exactly when the setting is 'low_momentum', else 0.1 |
| Transformer.DiagnosisNorm | models/transformer_model.py:110-115 | custom norm (with the setting's momentum) exactly for 'mybatchnorm'/'low_momentum', standard norm exactly for 'default', pass-through for every other string including 'pointonly' |
| Transformer.PointNorm | models/transformer_model.py:123-128 | custom norm exactly for 'mybatchnorm'/'pointonly'/'low_momentum', standard norm exactly for 'default', pass-through for every other string |
| Transformer.NormStagesDifferOnlyForPointOnly | models/transformer_model.py:110-128 | the two stages choose the same variant exactly when the setting is not 'pointonly'; for 'pointonly' the diagnosis stage is a pass-through and the point stage a custom norm with momentum 0.1 |
| Transformer.Init | models/transformer_model.py:74-132 | construction succeeds exactly when both dropout rates lie in [0, 1] and the positional table can be built; a transformer dropout rate out of range fails first, then a main dropout rate out of range, then d_model = 0 (zero width) or an odd d_model above 1 (odd width), in the order of lines 92, 93 and 101; on success the encoder sees 2F + 2 input channels, the point layer expects d_model + diagnosis_size + no_flat_features inputs, the momentum, both norm variants and the positional table are those the setting selects, and in consequence both custom norms share the momentum, the point stage normalises whenever the diagnosis stage does, and the standard norm is chosen for both stages or neither |
| Transformer.FusedWidthMatchesPointLayer | models/transformer_model.py:117-120 | whenever construction succeeds, every fused row is exactly as wide as the point layer's input size fixed by the constructor |
| Transformer.DiagnosisEncoding | models/transformer_model.py:150 | one encoded row per sequence, as wide as the diagnosis encoder's output for that sequence; entry [b][j] is the rectified j-th output of the encoder on diagnoses[b]: never negative, at least that output, and equal either to it or to 0 |
| Transformer.FusedFeatures | models/transformer_model.py:148-155 | the fused matrix has B·(T − 5) rows of width no_flat_features + diagnosis_size + d_model, and row b·(T − 5) + k holds flat[b], the rectified diagnosis encoding of b and the rectified encoder channels of step k + 5 of b |
| Transformer.Forward | models/transformer_model.py:144-164 | succeeds exactly when B > 0 and T > 5; predictions are B × (T − 5), prediction [b][k] is the output transform of the head's score on the features of step k + 5 of sequence b, and every prediction lies in [1/48, 100] |
| Transformer.EarlyStepsNeverUsed | models/transformer_model.py:152-155 | encoder outputs that agree on steps 5..T−1 give the same predictions: steps 0..4 never contribute |
| Transformer.LossKindOf | models/transformer_model.py:168-171 | 'msle' selects MSLE and 'mse' selects MSE; every other name is an error |
| Transformer.Loss | models/transformer_model.py:166-172 | the loss is the chosen criterion applied to the inputs for 'msle' and 'mse'; any other loss type fails with an unknown-loss error |
| Transformer.RemoveNone | models/transformer_model.py:98 | the result keeps only present values: each is present in the input, each present input value is in it, and nothing is lost when no entry is absent |
| Transformer.RemoveNoneAppend | models/transformer_model.py:98 | filtering a concatenation is the concatenation of the filtered parts, so the original order is kept |
| Transformer.RemoveNoneAllPresent | models/transformer_model.py:98 | with no absent entry the filter returns every value at its own position |

## Left out

- Neural arithmetic is left out because it is floating-point library code. This covers the
  Conv1d input embedding, the √d_model scaling, the attention and feed-forward layers, Linear
  and BatchNorm values, and dropout (models/transformer_model.py:38-43, 54-56, 148-157). The
  model has them only as the given functions in `Transformer.Layers`.
- Attention internals are modelled only as far as the mask reaches: one query row's masked
  softmax and weighted sum (`CausalMask.AttentionWeights`, `CausalMask.Mix`). The
  exponentials of the scores are given as positive numbers. Multi-head projections and layer
  stacking are not modelled.
- TransformerEncoder.forward is not modelled as a composition (models/transformer_model.py:50-57).
  Its two structural ingredients, the mask and the positional addition, are.
- Transformer.Forward: takes the encoder as a given function and requires that it returns
  B × d_model × T. The encoder's own failure for T > 336, shown by `Positional.AddPositional`,
  is therefore not propagated into `Forward`.
- Transformer.Forward: models the point head and the diagnosis stage (`DiagnosisEncoding`)
  row by row. This holds in evaluation mode, where batch norm uses running statistics and
  dropout is the identity. In training mode, batch statistics couple the rows of a batch in
  both the diagnosis-stage norm (lines 110-115, 150) and the point-stage norm.
- Shape mismatches other than the modelled failures are excluded by preconditions
  rather than modelled as errors: a batch whose channel count is not 2F + 2, an encoder output
  that is not B × d_model × T, diagnoses or static features whose width differs from the
  constructor's D or no_flat_features, a diagnosis encoding not diagnosis_size wide, and inputs
  whose batch sizes differ (`Transformer.Forward`, `Transformer.FusedFeatures`,
  `Positional.AddPositional`, `Fusion.Fuse`). PyTorch raises a shape error in each case.
- Transformer.Init: models the dropout-rate check of nn.Dropout and the failures of the
  positional table, but not the other checks library layers make on their own arguments,
  which can also make construction fail. One example is the attention layer's requirement
  that d_model is divisible by a positive n_heads. These checks belong to library code
  outside this model.
- The sine, cosine and exponential values are floating-point transcendental functions. They
  are given functions.
- Output.Hardtanh: uses the exact rational 1/48, while the source's bound is the nearest
  double. Floating-point rounding and NaN propagation are not modelled.
- MSLELoss, MSELoss, MyBatchNorm1d and EmptyModule are defined in models/tpc_model.py, which
  is not part of this model. The loss criteria enter `Transformer.Loss` as a given function.
  The masked, length-aware reductions are therefore not modelled. The norm layers are
  represented only by which variant is chosen.
- The device-dependent choice of the boolean mask tensor type (models/transformer_model.py:167)
  is backend plumbing. `Transformer.LossInputs` carries the mask as booleans.
- models/final_experiment_scripts/tpc_no_skip.py is an experiment driver: configuration,
  folder creation and a training run. It has no logic of its own.
