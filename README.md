# Transformer model function: configuration and teacher-forcing layer

This project models the deterministic, integer-and-configuration layer of the
Transformer estimator model function in
`nlp-models/tensorflow/attn_is_all_u_need/model.py`:

- the decoder-input shift used for teacher forcing (`_decoder_input_pip`):
  prepend `start_symbol` to each target row and drop the row's last token;
- the padding mask that weights the loss (`not_equal(targets, 0)`), and the
  fact that its total weight is the number of real target tokens;
- the decisions `_forward_pass` takes: positional-encoding variant (or
  `ValueError`), the embedding table the decoder reads under tying, the
  table the tied output projection reads (or the `ValueError` of a lookup
  in a scope that holds no table), and dropout's training flag
  (`not reuse`);
- the decisions of `_model_fn_train`: label-smoothed or plain loss,
  warmup schedule or the constant `1e-4`, the step `global_step + 1` (never
  zero), and which argument of the warmup `min` is the smaller one;
- the two-pass construction of `_model_fn_train` and `_model_fn_predict`,
  and the mode dispatch of `tf_estimator_model_fn`.

All of it is pure: Dafny datatypes, functions and lemmas. Modules:
`Outcomes` (Result/Option/Error), `Batches`, `Config`, `Schedule`, `ModelFn`.
Batches are `seq<seq<int>>`; a rectangular tensor of shape (B, T) is a batch
with `Rectangular(b, T)`. Python integer flags stay integers, because the
source tests `tied_embedding` both by truthiness (lines 40, 44) and by `== 1`
(line 74). A Python `raise` is `Err(ValueError(...))`; a function that falls
off its end returns `Ok(None)`.

## Model

| member | source | states |
|---|---|---|
| `Batches.ShiftRight` | nlp-models/tensorflow/attn_is_all_u_need/model.py:130-131 | a shifted row starts with the start symbol, has the target row's length (1 for an empty row), and holds target token i-1 at every position i >= 1 |
| `Batches.DecoderInput` | nlp-models/tensorflow/attn_is_all_u_need/model.py:129-131 | the decoder input has as many rows as the targets and each row is the teacher-forcing shift of the matching target row |
| `Batches.ShiftRightIsUnique` | nlp-models/tensorflow/attn_is_all_u_need/model.py:130-131 | a row satisfies the index-level shift description if and only if it equals the computed shift |
| `Batches.DecoderInputRectangular` | nlp-models/tensorflow/attn_is_all_u_need/model.py:130-131 | a rectangular target batch of width w gives a rectangular decoder input of width w, or of width 1 when w is 0 |
| `Batches.ShiftRightDropsOnlyLast` | nlp-models/tensorflow/attn_is_all_u_need/model.py:131 | the shifted row without its start symbol, followed by the dropped last token, is the original row: nothing else is lost or reordered |
| `Batches.ShiftRightExample` | nlp-models/tensorflow/attn_is_all_u_need/model.py:129-131 | [a, b, c, d] with start symbol s becomes [s, a, b, c] |
| `Batches.MaskRow` | nlp-models/tensorflow/attn_is_all_u_need/model.py:93 | a mask row has the row's length and is 1 exactly at non-padding tokens and 0 exactly at padding |
| `Batches.PaddingMask` | nlp-models/tensorflow/attn_is_all_u_need/model.py:93 | the mask has the targets' shape and each weight is 1 iff the target id is non-zero, 0 iff it is the padding id |
| `Batches.PaddingMaskRectangular` | nlp-models/tensorflow/attn_is_all_u_need/model.py:93 | the mask of a rectangular batch is rectangular with the same width |
| `Batches.MaskRowWeightIsTokenCount` | nlp-models/tensorflow/attn_is_all_u_need/model.py:93 | the weights of a row add up to its number of non-padding tokens |
| `Batches.MaskWeightIsTokenCount` | nlp-models/tensorflow/attn_is_all_u_need/model.py:93-100 | the total weight the loss is given is the number of non-padding tokens of the target batch |
| `Config.SelectPositionalEncoding` | nlp-models/tensorflow/attn_is_all_u_need/model.py:9-14 | 'sinusoidal' and 'learned' select their variant and every other string is the ValueError |
| `Config.EncodingNameRoundTrip` | nlp-models/tensorflow/attn_is_all_u_need/model.py:9-14 | selecting by a variant's configuration name returns that variant |
| `Config.DecoderEmbeddingTable` | nlp-models/tensorflow/attn_is_all_u_need/model.py:40-47 | the decoder reads 'encoder_embedding' iff tied_embedding is truthy, otherwise 'decoder_embedding' |
| `Config.CreatedTables` | nlp-models/tensorflow/attn_is_all_u_need/model.py:17-82 | a first pass creates the encoder table always, the decoder table iff the decoder reads it, and 'output_layer' iff the projection is not tied |
| `Config.OutputProjectionAsWritten` | nlp-models/tensorflow/attn_is_all_u_need/model.py:71-82 | tied_proj_weight == 1 selects the transposed lookup table of 'encoder_embedding' when tied_embedding == 1, else of 'decoder_embedding'; otherwise the own dense layer |
| `Config.AsWrittenProjectionMissesTable` | nlp-models/tensorflow/attn_is_all_u_need/model.py:74-76 | with a tied projection, the as-written choice names a table no pass created iff tied_embedding is neither 0 nor 1 |
| `Config.AsWrittenProjectionCounterexample` | nlp-models/tensorflow/attn_is_all_u_need/model.py:40-76 | with tied_embedding 2 and tied_proj_weight 1 the decoder reads 'encoder_embedding' while the projection looks up the never-created 'decoder_embedding' table |
| `Config.OutputProjection` | nlp-models/tensorflow/attn_is_all_u_need/model.py:71-82 | the projection is tied iff tied_proj_weight == 1, then reads the table the decoder embedding reads, and always reads a table the pass created |
| `Config.OutputProjectionAgreesOnBooleanFlags` | nlp-models/tensorflow/attn_is_all_u_need/model.py:74 | for tied_embedding 0 or 1 the corrected projection is the one the source selects |
| `Config.SelectLoss` | nlp-models/tensorflow/attn_is_all_u_need/model.py:95-100 | the label-smoothed loss is used iff label_smoothing == 1 |
| `Schedule.SelectLearningRate` | nlp-models/tensorflow/attn_is_all_u_need/model.py:102-108 | the warmup schedule is used iff warmup_steps > 0, at step global_step + 1 >= 1; otherwise the rate is the constant 1e-4 |
| `Schedule.WarmupPhase` | nlp-models/tensorflow/attn_is_all_u_need/model.py:104-106 | the schedule follows the decaying argument of the min exactly when that argument is not larger than the rising one |
| `Schedule.DecayingIffPastWarmup` | nlp-models/tensorflow/attn_is_all_u_need/model.py:104-106 | the decaying argument of the min is the smaller one iff the step has reached warmup_steps |
| `Schedule.TermsMeetAtWarmup` | nlp-models/tensorflow/attn_is_all_u_need/model.py:104-106 | at step warmup_steps the two arguments of the min are equal |
| `Schedule.SelectedScheduleDecaysPastWarmup` | nlp-models/tensorflow/attn_is_all_u_need/model.py:102-106 | with warmup configured, the rate the training builder selects follows the decaying argument of the min iff global_step + 1 >= warmup_steps |
| `ModelFn.ForwardPass` | nlp-models/tensorflow/attn_is_all_u_need/model.py:7-84 | of the errors modelled, a pass raises the encoding ValueError iff the encoding string is unknown, else the missing-variable ValueError iff the as-written projection names a table no pass created; otherwise dropout trains iff not reused, the decoder input is the shift of the targets, the decoder reads its selected table, and the projection is tied iff tied_proj_weight == 1, to the decoder's table |
| `ModelFn.ForwardPassFailsOnNonBooleanTie` | nlp-models/tensorflow/attn_is_all_u_need/model.py:71-76 | with a known encoding, a pass fails with the missing-variable ValueError iff the projection is tied and tied_embedding is neither 0 nor 1 |
| `ModelFn.ReusedPassMatchesFirst` | nlp-models/tensorflow/attn_is_all_u_need/model.py:88-89 | the first and the reused pass succeed together and agree on everything except dropout, which only the first runs in training mode |
| `ModelFn.ModelFnTrain` | nlp-models/tensorflow/attn_is_all_u_need/model.py:87-113 | training fails iff the first pass fails, with its error; otherwise the logits pass and the reused pass are the two forward passes over these features (dropout on, then off), the loss is weighted by the padding mask of the targets, and loss kind and learning rate are the ones the flags and global step select |
| `ModelFn.ModelFnPredict` | nlp-models/tensorflow/attn_is_all_u_need/model.py:116-119 | prediction fails iff the first pass fails, with its error; otherwise its passes are the two forward passes over these features and the ids come from the reused one, whose dropout is off |
| `ModelFn.EstimatorModelFn` | nlp-models/tensorflow/attn_is_all_u_need/model.py:122-126 | TRAIN returns exactly what the training builder returns (spec or error), PREDICT exactly what the prediction builder returns, any other mode nothing and no error |
| `ModelFn.DispatchFailsTogether` | nlp-models/tensorflow/attn_is_all_u_need/model.py:122-126 | TRAIN and PREDICT fail together, with the same error, the first forward pass's; any other mode never fails |
| `ModelFn.TrainAndPredictShareDecisions` | nlp-models/tensorflow/attn_is_all_u_need/model.py:87-119 | the pass whose ids are predicted takes the same decisions as the pass whose logits are trained, dropout aside |
| `ModelFn.TrainShapesAgree` | nlp-models/tensorflow/attn_is_all_u_need/model.py:88-100 | on a rectangular target batch of width w >= 1, the trained pass's decoder input and the loss weights both have the targets' shape (|targets| rows of width w) |

## Left out

- Embedding lookup, positional encodings, multi-head attention, feed-forward sublayers and the block loops (lines 18-35, 42-68): floating-point tensor code defined in `modules`; `modules` is not part of this model.
- The numeric value of the warmup learning rate (lines 104-106) and of the mask weights: floating point; the rate is represented by its inputs, the mask by integer 1/0, and only the ordering of the two `min` arguments is proved (through their squares).
- Loss computation, the Adam optimizer, `argmax` over logits and the logits themselves: foreign library calls over floats.
- TF variable scopes and `reuse` mechanics: only the name of the table a lookup reads and the set of tables a first pass creates are modelled, not variable storage or aliasing.
- `LoggingTensorHook`, `EstimatorSpec` construction details and dropout randomness: observability and nondeterminism; the spec is a datatype holding the modelled decisions.
- The global step is a parameter (`nat`): it is state owned by the training harness.
- The `labels` argument of `tf_estimator_model_fn` and the activation in `params`: unused or only passed into `modules`.
- `dropout_rate`, `num_heads`, `num_blocks`, and the vocabulary sizes in `params`: only passed into the left-out tensor code, whose errors are not modelled (next line).
- ModelFn.ForwardPass: errors raised inside the left-out tensor code are not modelled, so `Ok` means "no modelled error" (unknown encoding, line 14; missing tied table, line 76). Not modelled, for example: a tied embedding table whose vocabulary size differs from `target_vocab_size`, which fails the reuse lookup at lines 45-47 or the `xw_plus_b` shape check at line 78, a target batch with an empty time axis, whose decoder input has width 1 while the targets and weights handed to the loss at lines 96-100 have width 0 (the library rejects the mismatch), and the shape and divisibility checks inside `modules`. The same holds for `ModelFn.ForwardPassFailsOnNonBooleanTie`, `ModelFn.ModelFnTrain`, `ModelFn.ModelFnPredict` and `ModelFn.EstimatorModelFn`, whose errors are the forward pass's.

## Findings

| source | as written | input that shows it | evidently intended | confidence | as-written member | corrected member |
|---|---|---|---|---|---|---|
| nlp-models/tensorflow/attn_is_all_u_need/model.py:74 | the tied projection picks 'encoder_embedding' only when `tied_embedding == 1`, while lines 40 and 44 tie the decoder embedding whenever the flag is truthy | `tied_embedding = 2`, `tied_proj_weight = 1`: the decoder reads 'encoder_embedding', no 'decoder_embedding' table is created, and the projection looks up 'decoder_embedding/lookup_table' with reuse, which does not exist | the projection reads the table the decoder embedding reads | low, not executed; only reachable with flag values other than 0 and 1 | `Config.AsWrittenProjectionCounterexample` | `Config.OutputProjection` |

The forward pass and the entry points follow the source as written: on such flags they fail with the missing-variable `ValueError` (`ModelFn.ForwardPassFailsOnNonBooleanTie`). On every configuration where a pass succeeds, its projection equals the corrected one (`ModelFn.ForwardPass`).
