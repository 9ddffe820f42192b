# CausalCache-VDM: autoregressive chunk conditioning, in Dafny

This project models the control logic of a video diffusion system. The system generates long
videos one latent chunk at a time. Each chunk is denoised while conditioned on the frames
generated so far. The model also covers the training-time side that keeps training consistent
with that scheme: the frame masks that mark clean condition frames, and the prefix-length
curriculum.

Files:

- `wrappers.dfy`: `Option` and `Result`.
- `py_random.dfy` (module `PyRandom`): Python's `random.randint` and `random.choice`, with the
  random draw as a parameter.
- `train_utils.dfy` (module `TrainUtils`):
  - `MaskGenerator`: validating the ratio table, selecting a strategy, building masks.
  - `_get_prefix_len_choices`.
  - `PrefixLenSampler`, which memoises the choice list for each max length.
- `video_gen.dfy` (module `VideoGen`): the two generators, `autoregressive_sample` (recompute)
  and `autoregressive_sample_kv_cache`. Around them it models:
  - the conditioning-window policy;
  - the positional-range assertions;
  - noise padding;
  - the mask channel;
  - classifier-free-guidance duplication;
  - the cache protocol.
- `overfit_beach.dfy` (module `OverfitBeach`): the beach inference example, and the misaligned
  window budget that the controller's comment warns about.

Modelling choices:

- **Randomness.** Every `random.random()`, `randint` or `choice` draw is a parameter: a unit draw
  `r` in [0, 1).
  - `randint(lo, hi)` is `lo + floor((hi - lo + 1) * r)`.
  - `choice(s)` is `s[floor(|s| * r)]`.
  - Lemmas show both are uniform: for `randint` and for `choice`, each outcome's draws form an
    interval of width 1/m (m outcomes), and every outcome is reachable. So a selection stated
    as a function of the draw carries its probability with it.
  - The recompute loop's noise also comes in as parameters: `initNoise` is the
    `torch.randn(final_size)` block and `padNoise[s]` is the padding noise of step `s`.
- **Tensors.** A latent tensor (B, C, T, H, W) becomes a `Latents` value: the batch size B and
  the sequence of frames along T. A frame is opaque (`seq<real>`).
- **Text embedding.** `y` is a sequence of embedding rows: one per prompt, plus one
  unconditional row per prompt under guidance (unconditional rows first).
- **Foreign calls.** The denoising network, the scheduler's sampling loop and the text encoder
  are foreign.
  - `DenoisingModel` holds the capability flags the controller reads, plus the history of
    cache calls as mutable state.
  - `Scheduler.SampleV2` returns a result of its input's shape. Its frames are computed by an
    opaque function of the cache state, the input and the kwargs. It also keeps a ghost log of
    every call.
  - The generators' contracts describe each step through those logs. A step is described by
    the window it assembled, the kwargs it passed, and the chunk it cut out and appended.
- **Python semantics.** The model follows these points of Python's behaviour exactly:
  - `math.isclose` with its default `rel_tol`;
  - left-to-right float sums (as reals);
  - the slice `z[-m:]` (for m = 0 it is the whole sequence);
  - `randint(1, 0)` raising for 2- and 3-frame inputs under a quarter strategy;
  - `torch.stack([])` raising on an empty batch;
  - the unbound `y_null` under guidance without a text encoder. In the cache variant this
    error comes after the cache is registered.
- **Failures.** An assertion that fails becomes a `Failure` result naming it.
  - The recompute loop has four assertions per step
    (`opensora/utils/video_gen.py:251`, `:261`, `:278`, `:306`). The first three are checked in
    source order, and a failing run returns the error of the first failing step.
  - The fourth, on the sampler's result length, cannot fail here (see "## Left out").
  - Earlier steps have already called the sampler by the time a later step fails.

Points where the code's behaviour is easy to misread:

- **Guidance duplication.** In `autoregressive_sample` guidance doubles only `y` and
  `mask_channel`. The window `z_input` and `x_cond` go to the sampler undoubled. In the cache
  variant, the cache registration and every cache write use the doubled batch, and the sampler
  input does not.
- **Position range check.** The `cond_len + denoise_len <= temporal_max_len` check applies to
  every positional mode except `"cyclic"`, relative modes included.
- **When failures happen.** Configuration assertions fail at the step where they first fail,
  not before generation starts.
- **Ratio bounds.** The ratio table also requires every ratio to be at most 1.

## Model

| member | source | states |
|---|---|---|
| PyRandom.RandInt | opensora/utils/train_utils.py:84 | `randint(lo, hi)` raises exactly when hi < lo; otherwise its result lies in [lo, hi] |
| PyRandom.RandIntPreimage | opensora/utils/train_utils.py:84-85 | a unit draw gives k exactly when it lies in [(k - lo)/m, (k - lo + 1)/m), an interval of width 1/m: the choice is uniform |
| PyRandom.RandIntReaches | opensora/utils/train_utils.py:84-85 | every k in [lo, hi] is the result of some unit draw |
| PyRandom.Choice | opensora/utils/train_utils.py:159 | `random.choice` raises exactly on an empty list and otherwise returns a member of it |
| PyRandom.ChoicePreimage | opensora/utils/train_utils.py:159 | `choice` returns the element at the drawn position, and a draw picks position i exactly when it lies in [i/m, (i + 1)/m), an interval of width 1/m: the choice is uniform |
| PyRandom.ChoiceReaches | opensora/utils/train_utils.py:159 | every element of a non-empty list is chosen by some unit draw |
| TrainUtils.IsCloseToOne | opensora/utils/train_utils.py:59-61 | `math.isclose(s, 1.0, abs_tol=1e-6)` holds exactly when the sum is within 1e-6 of 1 |
| TrainUtils.CheckMaskRatios | opensora/utils/train_utils.py:49-61 | the constructor's checks pass exactly for a valid table (known names, ratios in [0, 1], sum within 1e-6 of 1); each error is reported exactly when its condition holds and every earlier check passed: an unknown name first, then a negative ratio, then a ratio above 1, then a sum off by more than 1e-6 |
| TrainUtils.NewMaskGenerator | opensora/utils/train_utils.py:36-63 | construction fails exactly on an invalid table, with the first failing assertion; otherwise the generator stores the table and records that it is valid |
| TrainUtils.MaskGenerator.constructor | opensora/utils/train_utils.py:63 | a valid table is stored as given, and the generator records that it is valid |
| TrainUtils.SelectedIndexIn | opensora/utils/train_utils.py:66-73 | a selected entry is the first whose running sum exceeds the draw; no selection means no running sum exceeds it |
| TrainUtils.SelectedName | opensora/utils/train_utils.py:66-73 | a name is selected exactly when some entry is |
| TrainUtils.SelectedIndexUnique | opensora/utils/train_utils.py:69-73 | an index whose running sum exceeds the draw while all earlier sums do not is the one selected |
| TrainUtils.PrefixSumMonotone | opensora/utils/train_utils.py:68-70 | with non-negative ratios the running sum never decreases |
| TrainUtils.SelectionInterval | opensora/utils/train_utils.py:66-73 | with non-negative ratios entry i is chosen exactly for draws in [sum of first i, sum of first i+1), an interval as wide as its ratio |
| TrainUtils.NoSelectionIffDrawAtLeastSum | opensora/utils/train_utils.py:67-73 | `mask_name` stays None exactly when the draw is at least the table's total |
| TrainUtils.MaskGenerator.SelectMaskName | opensora/utils/train_utils.py:66-73 | the accumulating loop returns the name the running-sum rule selects |
| TrainUtils.RunLength | opensora/utils/train_utils.py:77-108 | the quarter family draws a run length in [1, n // 4] and fails exactly when n // 4 is 0; the image family uses 1 |
| TrainUtils.RunStart | opensora/utils/train_utils.py:85-89 | a randomly placed run fits inside the mask |
| TrainUtils.ExpectedMask | opensora/utils/train_utils.py:75-112 | a mask has one entry per frame; up to one frame gives an all-true mask whatever the strategy; masking fails exactly for 2- and 3-frame inputs under a quarter strategy |
| TrainUtils.MaskConditionFrames | opensora/utils/train_utils.py:83-110 | head, tail and random placements clear exactly the drawn run length; head-and-tail clears twice that (the runs are disjoint); no strategy clears nothing |
| TrainUtils.ClearRange | opensora/utils/train_utils.py:86 | `mask[lo:hi] = 0` clears exactly [lo, hi) and leaves the rest |
| TrainUtils.MaskGenerator.GetMask | opensora/utils/train_utils.py:65-112 | the in-place mask construction returns the declarative mask for the selected strategy and the draws |
| TrainUtils.MaskGenerator.GetMasks | opensora/utils/train_utils.py:114-120 | a batch succeeds exactly when it is non-empty and every element's mask succeeds; there is one mask per element, each the expected one for its own draws; an empty batch fails on stacking |
| TrainUtils.PrefixLenChoices | opensora/utils/train_utils.py:125-137 | choice i is n_given + i * ar_size and below max_length, and the next value would reach max_length |
| TrainUtils.GetPrefixLenChoices | opensora/utils/train_utils.py:131-137 | the accumulating loop returns exactly the choice list |
| TrainUtils.ChoiceMembership | opensora/utils/train_utils.py:131-137 | n_given + i * ar_size is a choice (at position i) exactly when it is below max_length |
| TrainUtils.ChoicesIncreasing | opensora/utils/train_utils.py:133-135 | the choices strictly increase |
| TrainUtils.MinDenoiseLen | opensora/utils/train_utils.py:158 | the list is empty exactly when n_given >= max_length; otherwise the shortest denoised part `max_len - pL_choices[-1]` lies in [1, ar_size] |
| TrainUtils.PrefixLenSampler.constructor | opensora/utils/train_utils.py:140-145 | the sampler starts with an empty memo table and the given settings |
| TrainUtils.PrefixLenSampler.RandomChoose | opensora/utils/train_utils.py:147-161 | a set strategy raises NotImplementedError and changes nothing; otherwise the memo table gains the choice list for max_len (an existing entry is kept), the result is `random.choice` of that list, and an empty list raises |
| VideoGen.DenoisingModel.RegisterKvCache | opensora/utils/video_gen.py:137-141 | registering appends one registration with the given batch, length and dequeue flag to the cache history |
| VideoGen.DenoisingModel.WriteLatentsToCache | opensora/utils/video_gen.py:151-154 | a write appends the latents and the text embedding to the cache history |
| VideoGen.Scheduler.SampleV2 | opensora/utils/video_gen.py:297-306 | the sampler returns a result with the input's batch and length, and logs the call |
| VideoGen.TextConditioning | opensora/utils/video_gen.py:216-223 | it fails exactly under guidance without a text encoder; `y` is absent exactly without an encoder; otherwise it has one row per prompt, in order, preceded under guidance by as many unconditional rows |
| VideoGen.PySliceStart | opensora/utils/video_gen.py:243 | Python's `s[start:]` start index lies within the sequence; a negative start counts from the end |
| VideoGen.CondWindow | opensora/utils/video_gen.py:241-246 | the window is a suffix of the frames; all of them when there are at most `max_condion_frames`, otherwise the last `max_condion_frames`; all of them when `max_condion_frames` is 0 |
| VideoGen.WindowLength | opensora/utils/video_gen.py:241-247 | `cond_len` is min(predicted_len, max_condion_frames), and the temporal start predicted_len - cond_len is non-negative |
| VideoGen.StepCheck | opensora/utils/video_gen.py:249-278 | a step passes exactly when the position range holds (except under cyclic positions), the budget matches the range under absolute positions, and a non-causal model with absolute positions has a 33-frame range; errors are reported in that order |
| VideoGen.BudgetKeepsPositionsInRange | opensora/utils/video_gen.py:249-261 | when the window budget plus one chunk fits the positional range, every step passes whatever the number of frames so far |
| VideoGen.PadWithNoise | opensora/utils/video_gen.py:266-284 | a non-causal input shorter than 33 frames is padded with noise to exactly 33; otherwise it is untouched; the input frames stay first |
| VideoGen.BuildMaskChannel | opensora/utils/video_gen.py:287-292 | the mask channel holds one value per input frame, 1 on the condition frames and 0 after, for the guided batch |
| VideoGen.NoiseSliceInBounds | opensora/utils/video_gen.py:229-231 | every step's noise slice lies inside the `total_len` noise block, and each step starts one chunk after the previous one |
| VideoGen.RecomputeStepLoggedExtends | opensora/utils/video_gen.py:309 | appending frames never changes what an earlier step saw or produced |
| VideoGen.RecomputeLogAppend | opensora/utils/video_gen.py:309 | the log of the first s steps and one more logged step form the log of s + 1 steps |
| VideoGen.RecomputeStep | opensora/utils/video_gen.py:228-309 | a step fails exactly when its checks fail, returning the first failing check's error, with no sampler call; otherwise it consumes one noise slice, samples the assembled window once and returns a chunk of `chunk_len` frames, cut at `cond_len` out of the sampler's result |
| VideoGen.RecomputeStepLoggedIntro | opensora/utils/video_gen.py:307-309 | the chunk cut out of a step's sampler result, appended to the frames the step started from, is what the step's log records |
| VideoGen.RecomputeLoop | opensora/utils/video_gen.py:228-312 | the loop fails exactly when some step's checks fail, with the first failing check of a step all of whose earlier steps passed; otherwise it returns given + chunk_len * ar_steps frames, the given ones first, and step s's log entry for each step |
| VideoGen.AutoregressiveSample | opensora/utils/video_gen.py:196-317 | the run fails exactly when the text conditioning or some step's checks fail; the error is the unbound `y_null` when the text conditioning fails, and otherwise the first failing check of a step all of whose earlier steps passed; otherwise it returns given + chunk_len * ar_steps frames (the given ones first, unchanged) and `num_gen_frames` = chunk_len * ar_steps; step s sampled the window out of the frames before it, with its noise and padding, and appended the chunk it produced |
| VideoGen.KvLogAppend | opensora/utils/video_gen.py:179-184 | the cache log of the first s steps and one more logged step form the log of s + 1 steps |
| VideoGen.KvWritesGuided | opensora/utils/video_gen.py:179-182 | every per-step cache write holds latents of the guided batch size |
| VideoGen.AutoregressiveSampleKvCache | opensora/utils/video_gen.py:116-192 | the cache is registered first, for the guided batch; the run fails exactly when the text conditioning fails, after registration, and the error is then the unbound `y_null`; otherwise the cache is seeded once with the given frames and then written once per step (ar_steps + 1 writes, all of the guided batch); step s samples its noise chunk alone and appends the result; the frame and `num_gen_frames` totals are as in the recompute variant |
| OverfitBeach.BeachStepsPass | configs/baselines/infer_example_overfit_beach.py:15-21 | with chunks of 8, ten steps and a 25-frame window on a 33-position model, every step passes its checks |
| OverfitBeach.BeachWindowLengths | configs/baselines/infer_example_overfit_beach.py:21 | the window holds 1, 9 and 17 frames, then stays at 25 |
| OverfitBeach.BeachWindowAtStep4 | configs/baselines/infer_example_overfit_beach.py:21 | with 33 frames so far the window is the 25 most recent ones, frames 8 to 32 |
| OverfitBeach.BeachRun | configs/baselines/infer_example_overfit_beach.py:35-43 | the example run succeeds with 81 frames, 80 of them generated, the given frame first |
| OverfitBeach.MisalignedBudgetOverruns | opensora/utils/video_gen.py:257-258 | a 27-frame window with chunks of 8 after one given frame passes four steps and overruns a 33-position range at the fifth |

## Left out

- `update_ema`, `validation_visualize` and `denormalize` are not part of this model. They are training orchestration and visualisation.
- Progressive noise (`progressive_alpha > 0` and `build_progressive_noise`) is left out. It calls `q_sample` and a function that is not part of this model; the example configuration disables it.
- The text attention mask returned by `text_encoder.encode` is not modelled; only the embedding `y` is.
- Wall-clock timing (`time_used`), `tqdm`, `verbose`, the prints, the device and dtype, and `gc` and `empty_cache` are left out. They do not affect the frames produced.
- Channels, height and width are not modelled; a frame is opaque. Shape errors from ill-formed tensors are therefore not modelled.
- The generators require the conditioning clip's batch to equal the number of prompts. A missing clip (`cond_frame_latents=None`, which raises) is not modelled.
- The draws of the random stream are parameters. The stream's state, its seeding and how many values each call consumes are not modelled.
- Float arithmetic (sums of ratios, `cfg_scale > 1.0`) is modelled on reals, without rounding.
- TrainUtils.PrefixLenChoices: requires that the loop terminates (`ar_size > 0`, or no choices at all). The source loops forever otherwise.
- TrainUtils.PrefixLenSampler.RandomChoose: carries the same termination requirement when no sampling strategy is set.
- The default argument `n_given_frames=1` of `_get_prefix_len_choices` is not a default here; callers pass it.
- The prints of the new choice list and of the minimum denoise length are left out. That length is the subject of `TrainUtils.MinDenoiseLen`.
- VideoGen.RecomputeStep: the assertion `samples.shape[2] == cond_len + denoise_len` (`opensora/utils/video_gen.py:306`) cannot fail, because `Scheduler.SampleV2` returns exactly its input's length. A sampler result shorter than `cond_len + denoise_len` is therefore excluded; Python would silently slice it short at line 307.
- VideoGen.Scheduler.SampleV2: promises only the shape of its result and the call log. The denoising itself is an opaque function; the scheduler's internal handling of guidance is foreign.
- VideoGen.DenoisingModel: the representations the model stores in its cache are foreign. The cache is modelled as the history of register and write calls.
