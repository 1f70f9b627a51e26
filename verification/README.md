# nnet_lib / SMV convolution core, modelled in Dafny

This project models three pieces of the smaug `nnet_lib` library:

- **The SMV convolution tile-pair execution loop** (`SmvConvolutionOp::runNHWC`) and the checks that come before it in `SmvConvolutionOp::run`. `run` rejects any operand not in NHWC layout. It then builds the halo vectors for the tiling: `{0, weightRows/2, weightCols/2, 0}` for the input and all zeros for the weights and the outputs. `runNHWC` walks the tile positions (N, H, W) in nested order. At each position it matches input channel tiles against weight channel tiles with two cursors, `iC` and `wC`:
  - lock-step when the two tile counts are equal;
  - only `wC` advances when the input has a single channel tile;
  - only `iC` advances in every other case.

  Each kernel invocation is recorded as a `KernelCall` event. The event holds:
  - the input, weight and output tile coordinates;
  - the weight-group index;
  - the input channel-tile index;
  - the "initialize" flag `iC == wC`.
- **The indexing and arithmetic helpers** of `nnet_fwd_defs.h`:
  - `FRAC_CEIL`, using C's truncating division;
  - `sub2ind`, `sub3ind` and `sub4ind`;
  - the `max2`…`max9` and `min2` trees;
  - the `layer_type` and `activation_type` enumerations and their `*_STR` name macros.
- **The MKL-DNN forward pass** (`mkl.cpp`): the per-layer wrappers, `run_layer` and `nnet_fwd`. `nnet_fwd` ping-pongs the latest result between two buffers, `activations.d` (`Act`) and `result.d` (`Res`). The buffer-selection logic works on buffer names only.

Files:

- `results.dfy` (module `Results`): the `Option`/`Result` types.
- `nnet_fwd_defs.dfy` (module `NnetFwdDefs`): the enumerations, name maps, maxima, ceiling division and flattening. It also defines the inverses `Ind2Sub`/`Ind3Sub`/`Ind4Sub`, which are used to state the bijections.
- `smv_convolution.dfy` (module `SmvConvolution`):
  - `ChannelPairs` gives the closed form of the pairs the cursor loop visits.
  - `Schedule` gives the whole sequence of kernel calls.
  - The methods `ChannelLoop`, `RowLoop`, `ImageLoop` and `RunNHWC` are the loops. One method covers each loop level, and each is proved to produce that schedule.
  - `ScheduleAt` places the call for position (n, h, w) and channel pair k at offset `sub4ind(n, h, w, k)` of the schedule. This ties the loop order to the flattening helpers.
- `mkl_arch.dfy` (module `MklArch`): the wrappers, `RunLayer`, `NnetFwd` and the reference `BufferAfter`.

Behaviour of the source worth knowing, as the model records it:

- **Convolution: call counts and the initialize flag.** The cursor advance in `runNHWC` (`smv_convolution_op.cpp:62-69`) has three branches, and the model follows each:
  - A single weight tile with more than one input tile falls into the final `else` branch, which advances `iC`. The input tiles are then paired with weight tile 0 in turn, mirroring the single-input case.
  - In lock-step every call has `iC == wC`, so every call carries the initialize flag passed at line 60 (`ChannelPairsInitializeFlag`).
  - When both counts are positive, differ, and neither is one, the loop makes `inputChanTiles` calls and never uses weight tiles 1 and up. It raises no fault (`ChannelPairsCount`, `ChannelPairsSkipWeightTiles`). The tiling optimizer that chooses the counts is not part of this model, so whether such counts can occur is left open.
- **Convolution: layout checks.** The layout checks in `run` are C `assert`s. The model follows a build with assertions enabled and reports the first non-NHWC operand as a `Failure`.
- **`run_layer`.** Suppose a layer reports its output in the `activations` buffer. The activation sublayer is then launched to read `activations` and write `result`. `run_layer` still returns `activations`, because the source does not reassign `result_loc` on that branch. The model records this as written (`RunLayer`). The model cannot tell whether the MKL activation routine works in place.
- **`FRAC_CEIL`.** For a positive divisor, the macro is the ceiling when the dividend is non-negative or divisible by the divisor, and one more than the ceiling otherwise, for example `FRAC_CEIL(-3, 2) == 0` (`FracCeilNegativeDividend`). For a negative divisor no general property is stated; `FracCeilNegativeDivisorExamples` shows it is then neither always the ceiling nor always one more.
- **The header.** `smv_convolution_op.h` declares `runNHMC`, but the `.cpp` defines `runNHWC`. The model follows the definition.

## Model

| member | source | states |
|---|---|---|
| NnetFwdDefs.LayerTypeStr | nnet_lib/src/core/nnet_fwd_defs.h:178-184 | an int code gets a name other than "UNKNOWN" exactly when it is the code of CONV, POOLING, FC, OUTPUT or INPUT |
| NnetFwdDefs.LayerTypeStrRoundTrip | nnet_lib/src/core/nnet_fwd_defs.h:46-62 | reading the printed name back recovers each of the five named layer types; BATCH_NORM and END, and only they, print as "UNKNOWN" |
| NnetFwdDefs.ActivationTypeStr | nnet_lib/src/core/nnet_fwd_defs.h:186-195 | an int code gets a name other than "UNKNOWN" exactly when it is one of the nine activation codes 0..8 |
| NnetFwdDefs.ActivationTypeStrRoundTrip | nnet_lib/src/core/nnet_fwd_defs.h:28-38 | every activation type's name reads back as that type and is never "UNKNOWN" |
| NnetFwdDefs.ActivationTypeStrInjective | nnet_lib/src/core/nnet_fwd_defs.h:186-195 | the nine activation names are pairwise distinct |
| NnetFwdDefs.Max2 | nnet_lib/src/core/nnet_fwd_defs.h:263 | the result is at least both arguments and equals one of them |
| NnetFwdDefs.Min2 | nnet_lib/src/core/nnet_fwd_defs.h:270 | the result is at most both arguments and equals one of them |
| NnetFwdDefs.Max4 | nnet_lib/src/core/nnet_fwd_defs.h:264 | the result is at least all four arguments and equals one of them |
| NnetFwdDefs.Max8 | nnet_lib/src/core/nnet_fwd_defs.h:265-266 | the result is at least all eight arguments and equals one of them |
| NnetFwdDefs.Max9 | nnet_lib/src/core/nnet_fwd_defs.h:267-268 | the result is at least all nine arguments and equals one of them |
| NnetFwdDefs.Max9IsSeqMax | nnet_lib/src/core/nnet_fwd_defs.h:263-268 | the max9 tree equals the maximum of the nine-element sequence computed by a left fold |
| NnetFwdDefs.FracCeilIsCeiling | nnet_lib/src/core/nnet_fwd_defs.h:272 | for A >= 0 and B > 0, FRAC_CEIL(A, B) is the least q with q*B >= A, and it equals A/B exactly when B divides A |
| NnetFwdDefs.FracCeilNegativeDividend | nnet_lib/src/core/nnet_fwd_defs.h:272 | with C truncation, B > 0 and a negative dividend A, the macro yields the ceiling plus one exactly when B does not divide A |
| NnetFwdDefs.FracCeilNegativeDivisorExamples | nnet_lib/src/core/nnet_fwd_defs.h:272 | with a negative divisor the truncating macro gives 0 for (3, -2), one above the ceiling -1, but 2 for (-3, -2), the ceiling itself |
| NnetFwdDefs.Sub2IndBounds | nnet_lib/src/core/nnet_fwd_defs.h:277 | for 0 <= r < R and 0 <= c < n, sub2ind(r, c, n) lies in [0, R*n) |
| NnetFwdDefs.Sub2IndLexOrder | nnet_lib/src/core/nnet_fwd_defs.h:277 | with columns in range, offsets compare exactly as (row, column) compares lexicographically |
| NnetFwdDefs.Sub2IndInjective | nnet_lib/src/core/nnet_fwd_defs.h:277 | distinct (r, c) with in-range columns give distinct offsets |
| NnetFwdDefs.Sub2IndRoundTrip | nnet_lib/src/core/nnet_fwd_defs.h:277 | every offset in [0, R*n) is sub2ind of the in-range pair recovered by division and remainder, so sub2ind maps the box onto [0, R*n) |
| NnetFwdDefs.Ind2SubRoundTrip | nnet_lib/src/core/nnet_fwd_defs.h:277 | dividing sub2ind(r, c, n) by n recovers (r, c) |
| NnetFwdDefs.Sub3IndBounds | nnet_lib/src/core/nnet_fwd_defs.h:282-283 | in-range (h, r, c) give offsets in [0, H*nr*nc) |
| NnetFwdDefs.Sub3IndLexOrder | nnet_lib/src/core/nnet_fwd_defs.h:282-283 | sub3ind orders in-range subscripts lexicographically, so it is injective on the box |
| NnetFwdDefs.Sub3IndRoundTrip | nnet_lib/src/core/nnet_fwd_defs.h:282-283 | every offset in [0, H*nr*nc) is sub3ind of an in-range triple: the map is onto |
| NnetFwdDefs.Ind3SubRoundTrip | nnet_lib/src/core/nnet_fwd_defs.h:282-283 | the inverse recovers (h, r, c) from sub3ind |
| NnetFwdDefs.Sub4IndBounds | nnet_lib/src/core/nnet_fwd_defs.h:311-312 | in-range (d, h, r, c) give offsets in [0, D*n_hgt*n_rows*n_cols) |
| NnetFwdDefs.Sub4IndLexOrder | nnet_lib/src/core/nnet_fwd_defs.h:311-312 | sub4ind orders in-range subscripts lexicographically by (d, h, r, c) |
| NnetFwdDefs.Sub4IndInjective | nnet_lib/src/core/nnet_fwd_defs.h:311-312 | distinct in-range subscripts give distinct offsets |
| NnetFwdDefs.Sub4IndRoundTrip | nnet_lib/src/core/nnet_fwd_defs.h:311-312 | every offset in [0, D*n_hgt*n_rows*n_cols) is sub4ind of an in-range subscript: the map is onto |
| NnetFwdDefs.Ind4SubRoundTrip | nnet_lib/src/core/nnet_fwd_defs.h:311-312 | the inverse recovers (d, h, r, c) from sub4ind |
| NnetFwdDefs.Sub4IndColumnStep | nnet_lib/src/core/nnet_fwd_defs.h:311-312 | increasing c by one increases the offset by one |
| SmvConvolution.CursorLeavesLoopAtPairCount | nnet_lib/src/operators/smv/smv_convolution_op.cpp:29-30 | the cursors satisfy the loop guard for exactly the first PairCount steps, so the channel loop always terminates |
| SmvConvolution.ChannelPairsIsCursorRun | nnet_lib/src/operators/smv/smv_convolution_op.cpp:29-69 | the closed-form pair list starts at (0,0), each pair passes the guard, each pair is the cursor advance of the previous one, and the advance after the last leaves the loop |
| SmvConvolution.ChannelPairsLockStep | nnet_lib/src/operators/smv/smv_convolution_op.cpp:62-64 | equal counts n give exactly the pairs (0,0), (1,1), ..., (n-1,n-1) in order |
| SmvConvolution.ChannelPairsBroadcastInput | nnet_lib/src/operators/smv/smv_convolution_op.cpp:65-66 | one input tile against a different weight count gives (0,0), (0,1), ..., so the input tile is reused |
| SmvConvolution.ChannelPairsAdvanceInputOnly | nnet_lib/src/operators/smv/smv_convolution_op.cpp:67-68 | every other mismatch with a positive weight count gives (0,0), (1,0), ..., (inputChanTiles-1, 0), with no fault even if neither count is one |
| SmvConvolution.ChannelPairsCount | nnet_lib/src/operators/smv/smv_convolution_op.cpp:30-70 | the calls per position are 0 if either count is 0, max of the counts when they agree or one is 1, and inputChanTiles otherwise |
| SmvConvolution.ChannelPairsInitializeFlag | nnet_lib/src/operators/smv/smv_convolution_op.cpp:60-69 | the flag iC == wC holds on every lock-step call, and on only the first call of a position when the counts differ |
| SmvConvolution.ChannelPairsCoverAllTiles | nnet_lib/src/operators/smv/smv_convolution_op.cpp:30-69 | with positive counts that agree or include a 1, every input channel tile and every weight channel tile is used |
| SmvConvolution.ChannelPairsSkipWeightTiles | nnet_lib/src/operators/smv/smv_convolution_op.cpp:67-68 | with differing counts, neither of them 1, weight channel tiles 1 and up are never used |
| SmvConvolution.TwoInputTilesOneWeightTile | nnet_lib/src/operators/smv/smv_convolution_op.cpp:60-69 | 2 input channel tiles against 1 weight channel tile visit (0,0) then (1,0), the first initializing and the second accumulating |
| SmvConvolution.TwoInputTilesThreeWeightTiles | nnet_lib/src/operators/smv/smv_convolution_op.cpp:62-69 | 2 input channel tiles against 3 weight channel tiles visit only (0,0) and (1,0) |
| SmvConvolution.PositionCalls | nnet_lib/src/operators/smv/smv_convolution_op.cpp:34-60 | one call per channel pair; every call at a position writes output tile (n,h,0,w) with weight group w, reads the channel tiles of its pair, passes iC as the channel index, and initializes exactly when iC == wC |
| SmvConvolution.ChannelLoop | nnet_lib/src/operators/smv/smv_convolution_op.cpp:27-70 | the two-cursor loop makes exactly the calls of the closed-form channel pairs, in order |
| SmvConvolution.RowLoop | nnet_lib/src/operators/smv/smv_convolution_op.cpp:26-71 | the W loop makes the calls of positions (N, H, 0) .. (N, H, W-1) in order |
| SmvConvolution.ImageLoop | nnet_lib/src/operators/smv/smv_convolution_op.cpp:25-72 | the H loop makes the calls of every row of image N in order |
| SmvConvolution.RunNHWC | nnet_lib/src/operators/smv/smv_convolution_op.cpp:18-74 | runNHWC makes exactly the schedule's calls; every call reads input tile (N,H,0,iC) and weight tile (W,0,0,wC), in range along N, H and the channel dimension, with column tile 0; it writes output tile (N,H,0,W) and passes group W, index iC and flag iC == wC |
| SmvConvolution.ScheduleWellShaped | nnet_lib/src/operators/smv/smv_convolution_op.cpp:34-60 | every scheduled call addresses input and weight tiles in range along N, H and the channel dimension, with column tile 0, and calls at one position share one output tile |
| SmvConvolution.RowCallsAt | nnet_lib/src/operators/smv/smv_convolution_op.cpp:26-36 | within a row, the call for (W, k) sits at offset sub2ind(W, k, pairs) |
| SmvConvolution.ImageCallsAt | nnet_lib/src/operators/smv/smv_convolution_op.cpp:25-36 | within an image, the call for (H, W, k) sits at offset sub3ind(H, W, k) |
| SmvConvolution.ScheduleAt | nnet_lib/src/operators/smv/smv_convolution_op.cpp:24-36 | the call for (N, H, W) and channel pair k sits at offset sub4ind(N, H, W, k) of the whole schedule |
| SmvConvolution.ScheduleInLexOrder | nnet_lib/src/operators/smv/smv_convolution_op.cpp:24-26 | each entry is the call of the in-range (N, H, W, k) that division recovers from its offset, and earlier entries belong to lexicographically earlier (N, H, W, k) |
| SmvConvolution.Run | nnet_lib/src/operators/smv/smv_convolution_op.cpp:76-99 | run fails exactly when some operand is not NHWC, naming the first; otherwise the input halos are {0, floor half of the kernel rows, floor half of the kernel columns, 0}, the other halos are zero, and the calls are runNHWC's schedule |
| MklArch.RunWrapper | nnet_lib/src/arch/mkl.cpp:28-141 | every wrapper launches its routine from activations into result and returns result; pooling launches max pooling exactly for MAX and average pooling exactly for AVG |
| MklArch.WrappersReturnOutput | nnet_lib/src/arch/mkl.cpp:44-141 | each wrapper reports the buffer it was told to write |
| MklArch.RunLayer | nnet_lib/src/arch/mkl.cpp:144-175 | with an activation the result is reported in activations whatever buffer the layer returned, and the sublayer reads the returned buffer; without one, the layer's returned buffer passes through unchanged |
| MklArch.NnetFwd | nnet_lib/src/arch/mkl.cpp:177-227 | layers 1..depth-1 run in order, starting from activations.d; each reads the buffer holding the latest result and writes the other; only the last layer's result_in_temp is written, as 1 exactly when the final buffer is result.d |
| MklArch.AllActivatedEndsInActivations | nnet_lib/src/arch/mkl.cpp:160-168 | if every layer after the first has an activation, the final buffer is activations.d, so result_in_temp is 0 |
| MklArch.FinalBufferParity | nnet_lib/src/arch/mkl.cpp:206-218 | when layers report their output buffer, the result ends in activations.d exactly when an even number of layers lack an activation |

## Left out

- The tiling optimizer is not part of this model: `TilingOptimizer::computeBasicTileShapes`, `generateTiledTensor` and the tile storage. The tile grids reach `RunNHWC` and `Run` as inputs. The halo vectors are produced, but not applied to any tile.
- `TiledTensor::startIndex` is not part of this model. Calls record tile coordinates, not linear tile indices.
- The convolution kernel `smv_conv3d_f32_nhwc_same_padding_vec_fxp` and every `nnet_mkl::*` routine are foreign floating-point code. They appear only as recorded events.
- Some arguments passed to the kernel are not recorded: the per-tile dimension vectors, channel paddings and strides. They come from tile shapes that are not part of this model.
- The `kNumPEs`/`kNumMaccsPerPE` constants are left out, because only the tiling optimizer consumes them.
- The debug tracing is left out: the `std::cout` line in `runNHWC`, `dout`, `PRINT_*` and the `DEBUG_LEVEL` branches.
- `MklSession` creation, `run`, `run_and_clear` and deletion are left out. They are library calls with deferred execution and do not affect the buffer selection.
- `flatten_input` is left out: it returns whatever the foreign `im2row` returns.
- `get_weights_loc_for_layer` (the weight offsets) is foreign and left out.
- The other definitions in the header are not used by the modelled code and are left out: the gem5 `MAP_ARRAY_TO_ACCEL`/`INVOKE_KERNEL` macros, `ARRAY_nD`, `ASSERT_MEMALIGN`, `sigmoid_table`, `data_init_mode`, `input_pp` and `io_req_t`.
- `farray_t` is reduced to the name of its `d` buffer: the `activations` and `result` arguments of `nnet_fwd` (`mkl.cpp:177-179`) become `Buffer.Act` and `Buffer.Res`, and their sizes are not modelled. The `weights` argument is only offset by `get_weights_loc_for_layer` and handed to the foreign routines.
- `device_t` is left out: the wrappers and `run_layer` take it (`mkl.cpp:33`, `mkl.cpp:149`) only to pass it on to foreign calls.
- `dims_t` is left out: the modelled code reads it only in debug printing (`mkl.cpp:170-172`).
- The layout enumeration is not part of this model: only "NHWC or not" matters to `run`.
- SmvConvolution.ScheduleWellShaped: the source indexes tile 0 of the input's column dimension and of the weights' H and W dimensions without checking that those dimensions have a tile (`smv_convolution_op.cpp:34-36`). The output tile grid is not an input of the model, so the bounds of the output tile (N,H,0,W) are not stated. The contract bounds only the input tile's N and H, the weight tile's N, and both channel indices.
- NnetFwdDefs.Max2: the max/min helpers are modelled on integers. The C macros are type-generic and are meant for pooling, which works on floats. With a NaN operand the macro is not symmetric: `max2(1.0, NaN)` is NaN and `max2(NaN, 1.0)` is 1.0, so "at least both arguments" does not hold for floats. The same applies to Min2, Max4, Max8 and Max9.
- NnetFwdDefs.Sub4IndBounds: the flattening lemmas use unbounded integers. They do not model 32-bit signed overflow of the products, which is undefined behaviour in C.
- NnetFwdDefs.FracCeilNegativeDividend: stated for B > 0 only; with a negative divisor the truncating macro is neither always the ceiling nor always one more (for example `FRAC_CEIL(3, -2) == 0` and `FRAC_CEIL(-3, -2) == 2`, shown by `FracCeilNegativeDivisorExamples`), so no general property is stated for negative divisors.
- NnetFwdDefs.FracCeilIsCeiling: the lemma is stated for A >= 0 and B > 0 only. Division by zero is undefined in C, so every modelled operation requires B != 0.
- MklArch.NnetFwd: requires depth >= 1, because the source writes `layers[depth - 1]` unconditionally.
