/**
 * The autoregressive chunk-conditioning controller (opensora/utils/video_gen.py).
 *
 * A latent video tensor (B, C, T, H, W) is abstracted to its batch size and its
 * sequence of frames along T. The denoising network, the noise scheduler and the
 * text encoder are foreign: the model sees them only through the calls the
 * controller makes and the shapes those calls promise.
 */
module VideoGen {
  import opened Wrappers

  // ---------------------------------------------------------------------------
  // Data
  // ---------------------------------------------------------------------------

  /** One time step of a latent tensor, over all of B, C, H and W. */
  type Frame = seq<real>

  /** A latent tensor: its batch size and its frames along the temporal axis. */
  datatype Latents = Latents(batch: nat, frames: seq<Frame>)

  /** The batch size after classifier-free-guidance duplication. */
  function GuidedBatch(bsz: nat, guidance: bool): nat {
    if guidance then 2 * bsz else bsz
  }

  /** `torch.cat([z] * 2, dim=0)` under guidance, `z` otherwise. */
  function Guided(z: Latents, guidance: bool): Latents {
    Latents(GuidedBatch(z.batch, guidance), z.frames)
  }

  /** A row of the text embedding `y`: a prompt's encoding, or the unconditional one. */
  datatype EmbeddingRow = PromptEmbedding(prompt: string) | NullEmbedding
  type Embedding = seq<EmbeddingRow>

  /** The clean/noisy indicator channel: one value per frame of the model input. */
  datatype MaskChannel = MaskChannel(batch: nat, values: seq<int>)

  /** The `model_kwargs` dictionary; None is an absent key (or `y` set to None). */
  datatype ModelKwargs = ModelKwargs(
    y: Option<Embedding>,
    xTemporalStart: Option<int>,
    xCond: Option<Latents>,
    maskChannel: Option<MaskChannel>)

  /** The capability attributes the controller reads from the model. */
  datatype Capabilities = Capabilities(
    isCausal: bool,
    relativeTpeMode: Option<string>,
    temporalMaxLen: int,
    tempExtraInChannels: int)

  const Cyclic := "cyclic"

  /** The hard-coded window length of non-causal models. */
  const NumTrainingFrames := 33

  /** A call into the model's key/value cache. */
  datatype CacheCall =
    | Registered(batch: nat, maxSeqLen: int, dequeue: bool)
    | Written(latents: Latents, y: Option<Embedding>)

  /** One call of `scheduler.sample_v2`: its input, its keyword arguments and its result. */
  datatype SampleCall = SampleCall(z: Latents, kwargs: ModelKwargs, out: Latents)

  /** Why a sampler fails. */
  datatype GenError =
    | NullEmbeddingUnbound     // `y_null` read although no text encoder assigned it
    | TpeOutOfRange            // assertion `z_input.shape[2] <= model.temporal_max_len`
    | TpeLenMismatch           // assertion `max_condion_frames + denoise_len == model.temporal_max_len`
    | TrainingFramesMismatch   // assertion `num_training_frames == model.temporal_max_len`

  // ---------------------------------------------------------------------------
  // Foreign collaborators
  // ---------------------------------------------------------------------------

  /** The denoising model: its capabilities and the state of its key/value cache. */
  class DenoisingModel {
    const caps: Capabilities
    /** The cache, as the history of calls that built it. */
    var cacheCalls: seq<CacheCall>

    constructor (caps: Capabilities)
      ensures this.caps == caps && cacheCalls == []
    {
      this.caps := caps;
      cacheCalls := [];
    }

    method RegisterKvCache(batch: nat, maxSeqLen: int, kvCacheDequeue: bool)
      modifies this
      ensures cacheCalls == old(cacheCalls) + [Registered(batch, maxSeqLen, kvCacheDequeue)]
    {
      cacheCalls := cacheCalls + [Registered(batch, maxSeqLen, kvCacheDequeue)];
    }

    method WriteLatentsToCache(latents: Latents, y: Option<Embedding>)
      modifies this
      ensures cacheCalls == old(cacheCalls) + [Written(latents, y)]
    {
      cacheCalls := cacheCalls + [Written(latents, y)];
    }
  }

  /** The noise scheduler; `denoise` stands for its sampling loop over the network. */
  class Scheduler {
    const cfgScale: real
    const denoise: (seq<CacheCall>, Latents, ModelKwargs, nat) -> Frame
    ghost var calls: seq<SampleCall>

    constructor (cfgScale: real, denoise: (seq<CacheCall>, Latents, ModelKwargs, nat) -> Frame)
      ensures this.cfgScale == cfgScale && this.denoise == denoise && calls == []
    {
      this.cfgScale := cfgScale;
      this.denoise := denoise;
      calls := [];
    }

    /** `sample_v2`: a result of the input's shape. */
    method SampleV2(model: DenoisingModel, z: Latents, kwargs: ModelKwargs) returns (out: Latents)
      modifies this
      ensures out.batch == z.batch && |out.frames| == |z.frames|
      ensures calls == old(calls) + [SampleCall(z, kwargs, out)]
    {
      var cache := model.cacheCalls;
      out := Latents(z.batch, seq(|z.frames|, (t: int) requires 0 <= t => denoise(cache, z, kwargs, t)));
      calls := calls + [SampleCall(z, kwargs, out)];
    }
  }

  /**
   * The text conditioning `y`: the prompts' encodings, preceded under guidance by
   * as many unconditional rows. Without a text encoder `y` is None, and guidance
   * then reads the unassigned `y_null`.
   */
  function TextConditioning(hasTextEncoder: bool, prompts: seq<string>, guidance: bool): (r: Result<Option<Embedding>, GenError>)
    ensures r.Failure? <==> guidance && !hasTextEncoder
    ensures r.Success? ==> (r.value.Some? <==> hasTextEncoder)
    ensures r.Success? && r.value.Some? ==>
      var y := r.value.value;
      var bsz := |prompts|;
      && |y| == GuidedBatch(bsz, guidance)
      && (forall i :: 0 <= i < |y| - bsz ==> y[i] == NullEmbedding)
      && (forall i :: 0 <= i < bsz ==> y[|y| - bsz + i] == PromptEmbedding(prompts[i]))
  {
    if !hasTextEncoder then
      if guidance then Failure(NullEmbeddingUnbound) else Success(None)
    else
      var y := seq(|prompts|, i requires 0 <= i < |prompts| => PromptEmbedding(prompts[i]));
      var yNull := seq(|prompts|, _ => NullEmbedding);
      Success(Some(if guidance then yNull + y else y))
  }

  // ---------------------------------------------------------------------------
  // Conditioning window policy
  // ---------------------------------------------------------------------------

  /** Start index of the Python slice `s[start:]` on a sequence of length `len`. */
  function PySliceStart(start: int, len: nat): (i: nat)
    ensures i <= len
    ensures 0 < -start <= len ==> i == len + start
    ensures start == 0 ==> i == 0
  {
    if start < 0 then (if len + start < 0 then 0 else len + start)
    else if start > len then len
    else start
  }

  /** Index of the first condition frame when `predictedLen` frames exist. */
  function WindowStart(predictedLen: nat, maxCondionFrames: int): (s: nat)
    ensures s <= predictedLen
  {
    if predictedLen > maxCondionFrames then PySliceStart(-maxCondionFrames, predictedLen) else 0
  }

  /**
   * `z_cond`: the most recent `max_condion_frames` frames, or all of them if there
   * are no more. (With `max_condion_frames == 0` the slice `z[-0:]` is all of `z`.)
   */
  function CondWindow(z: seq<Frame>, maxCondionFrames: int): (w: seq<Frame>)
    ensures |w| <= |z| && w == z[|z| - |w|..]
    ensures maxCondionFrames >= 1 && |z| <= maxCondionFrames ==> w == z
    ensures maxCondionFrames >= 1 && |z| > maxCondionFrames ==> w == z[|z| - maxCondionFrames..]
    ensures maxCondionFrames == 0 ==> w == z
  {
    z[WindowStart(|z|, maxCondionFrames)..]
  }

  /** `cond_len` when `predictedLen` frames exist. */
  function CondLen(predictedLen: nat, maxCondionFrames: int): nat {
    predictedLen - WindowStart(predictedLen, maxCondionFrames)
  }

  /** The window length is min(predicted_len, max_condion_frames) and its temporal start is non-negative. */
  lemma WindowLength(z: seq<Frame>, maxCondionFrames: int)
    requires maxCondionFrames >= 1
    ensures |CondWindow(z, maxCondionFrames)| == CondLen(|z|, maxCondionFrames)
    ensures CondLen(|z|, maxCondionFrames) == if |z| < maxCondionFrames then |z| else maxCondionFrames
    ensures |z| - CondLen(|z|, maxCondionFrames) >= 0
  {
  }

  /**
   * The three assertions of one recompute step, in their order, for a window of
   * `condLen` frames and a chunk of `denoiseLen`; None when all hold.
   */
  function StepCheck(caps: Capabilities, condLen: nat, denoiseLen: nat, maxCondionFrames: int): (e: Option<GenError>)
    ensures e.None? <==>
      && (caps.relativeTpeMode != Some(Cyclic) ==> condLen + denoiseLen <= caps.temporalMaxLen)
      && (caps.relativeTpeMode.None? ==> maxCondionFrames + denoiseLen == caps.temporalMaxLen)
      && (!caps.isCausal && caps.relativeTpeMode.None? ==> caps.temporalMaxLen == NumTrainingFrames)
  {
    if caps.relativeTpeMode != Some(Cyclic) && condLen + denoiseLen > caps.temporalMaxLen then Some(TpeOutOfRange)
    else if caps.relativeTpeMode.None? && maxCondionFrames + denoiseLen != caps.temporalMaxLen then Some(TpeLenMismatch)
    else if !caps.isCausal && caps.relativeTpeMode.None? && caps.temporalMaxLen != NumTrainingFrames then Some(TrainingFramesMismatch)
    else None
  }

  /**
   * With a fixed positional scheme whose range is exactly the window budget plus one
   * chunk, no step ever overruns it: the window never exceeds the budget.
   */
  lemma BudgetKeepsPositionsInRange(caps: Capabilities, predictedLen: nat, denoiseLen: nat, maxCondionFrames: int)
    requires maxCondionFrames >= 1
    requires caps.relativeTpeMode.None? ==> maxCondionFrames + denoiseLen == caps.temporalMaxLen
    requires caps.relativeTpeMode.Some? && caps.relativeTpeMode != Some(Cyclic) ==> maxCondionFrames + denoiseLen <= caps.temporalMaxLen
    requires !caps.isCausal && caps.relativeTpeMode.None? ==> caps.temporalMaxLen == NumTrainingFrames
    ensures StepCheck(caps, CondLen(predictedLen, maxCondionFrames), denoiseLen, maxCondionFrames).None?
  {
  }

  /**
   * Non-causal input: shorter than the training window, it is padded with fresh
   * noise up to exactly 33 frames; otherwise, and for causal models, it is untouched.
   */
  function PadWithNoise(isCausal: bool, zInput: seq<Frame>, padNoise: seq<Frame>): (r: seq<Frame>)
    requires |padNoise| == NumTrainingFrames
    ensures |r| == if !isCausal && |zInput| < NumTrainingFrames then NumTrainingFrames else |zInput|
    ensures r[..|zInput|] == zInput
    ensures r[|zInput|..] == padNoise[..|r| - |zInput|]
  {
    if !isCausal && |zInput| < NumTrainingFrames then zInput + padNoise[..NumTrainingFrames - |zInput|]
    else zInput
  }

  /** The mask channel: `len` values, 1 on the first `condLen` and 0 after. */
  ghost predicate IsMaskChannel(m: MaskChannel, batch: nat, len: nat, condLen: nat) {
    && m.batch == batch
    && |m.values| == len
    && forall i :: 0 <= i < len ==> m.values[i] == if i < condLen then 1 else 0
  }

  /** `zeros_like(z_input[:, :1, :, :1, :1])`, then `[:cond_len] = 1`, then doubled under guidance. */
  method BuildMaskChannel(inputLen: nat, condLen: nat, bsz: nat, guidance: bool) returns (m: MaskChannel)
    ensures IsMaskChannel(m, GuidedBatch(bsz, guidance), inputLen, condLen)
  {
    var values := new int[inputLen](_ => 0);
    var ones := if condLen < inputLen then condLen else inputLen;
    forall i | 0 <= i < ones {
      values[i] := 1;
    }
    m := MaskChannel(bsz, values[..]);
    if guidance {
      m := MaskChannel(2 * bsz, m.values);
    }
  }

  // ---------------------------------------------------------------------------
  // Step arithmetic shared by both samplers
  // ---------------------------------------------------------------------------

  /** `predicted_len` at step `s`: the given frames plus `s` chunks. */
  function PredictedLenAt(numGivenFrames: nat, chunkLen: nat, s: nat): nat {
    numGivenFrames + chunkLen * s
  }

  /** At every step the noise slice [predicted_len, predicted_len + chunk_len) lies within total_len. */
  lemma NoiseSliceInBounds(numGivenFrames: nat, chunkLen: nat, arSteps: nat, s: nat)
    requires s < arSteps
    ensures PredictedLenAt(numGivenFrames, chunkLen, s) + chunkLen <= numGivenFrames + chunkLen * arSteps
    ensures PredictedLenAt(numGivenFrames, chunkLen, s + 1) == PredictedLenAt(numGivenFrames, chunkLen, s) + chunkLen
  {
    assert chunkLen * (s + 1) <= chunkLen * arSteps;
    assert chunkLen * (s + 1) == chunkLen * s + chunkLen;
  }

  /** Every step's checks pass over the first `steps` steps. */
  predicate StepsPass(caps: Capabilities, numGivenFrames: nat, chunkLen: nat, maxCondionFrames: int, steps: nat) {
    forall s :: 0 <= s < steps ==>
      StepCheck(caps, CondLen(PredictedLenAt(numGivenFrames, chunkLen, s), maxCondionFrames), chunkLen, maxCondionFrames).None?
  }

  // ---------------------------------------------------------------------------
  // Recompute-based generator: autoregressive_sample
  // ---------------------------------------------------------------------------

  /**
   * Step `s` of the recompute loop, started with `predictedLen` frames and read off
   * the later frames `z`: what it passed to the sampler and the chunk it appended.
   */
  ghost predicate RecomputeStepLogged(
    caps: Capabilities, bsz: nat, guidance: bool, y: Option<Embedding>, chunkLen: nat, maxCondionFrames: int,
    initNoise: seq<Frame>, padNoise: seq<Frame>, predictedLen: nat, z: seq<Frame>, call: SampleCall)
  {
    && predictedLen + chunkLen <= |z|
    && StepCall(caps, bsz, guidance, y, chunkLen, maxCondionFrames, initNoise, padNoise, z[..predictedLen], call)
    && z[predictedLen..predictedLen + chunkLen]
         == StepChunk(caps, bsz, guidance, y, chunkLen, maxCondionFrames, initNoise, padNoise, z[..predictedLen], call)
  }

  /**
   * The sampler call of a recompute step that starts from the frames `before`: the
   * window and the noise chunk, padded, with the kwargs the step sets.
   */
  ghost predicate StepCall(
    caps: Capabilities, bsz: nat, guidance: bool, y: Option<Embedding>, chunkLen: nat, maxCondionFrames: int,
    initNoise: seq<Frame>, padNoise: seq<Frame>, before: seq<Frame>, call: SampleCall)
  {
    var predictedLen := |before|;
    && predictedLen + chunkLen <= |initNoise|
    && |padNoise| == NumTrainingFrames
    && var window := CondWindow(before, maxCondionFrames);
       var condLen := |window|;
       var input := PadWithNoise(caps.isCausal, window + initNoise[predictedLen..predictedLen + chunkLen], padNoise);
       && call.z == Latents(bsz, input)
       && call.kwargs.y == y
       && call.kwargs.xTemporalStart == (if caps.relativeTpeMode.None? then None else Some(predictedLen - condLen))
       && call.kwargs.xCond == Some(Latents(bsz, window))
       && (if caps.tempExtraInChannels > 0
           then call.kwargs.maskChannel.Some?
                && IsMaskChannel(call.kwargs.maskChannel.value, GuidedBatch(bsz, guidance), |input|, condLen)
           else call.kwargs.maskChannel.None?)
       && |call.out.frames| == |input|
  }

  /** The chunk a recompute step keeps: `chunk_len` frames of the result, from `cond_len` on. */
  ghost function StepChunk(
    caps: Capabilities, bsz: nat, guidance: bool, y: Option<Embedding>, chunkLen: nat, maxCondionFrames: int,
    initNoise: seq<Frame>, padNoise: seq<Frame>, before: seq<Frame>, call: SampleCall): (chunk: seq<Frame>)
    requires StepCall(caps, bsz, guidance, y, chunkLen, maxCondionFrames, initNoise, padNoise, before, call)
    ensures |chunk| == chunkLen
  {
    var condLen := |CondWindow(before, maxCondionFrames)|;
    call.out.frames[condLen..condLen + chunkLen]
  }

  /** A step's call and chunk, appended to the frames it started from, are a logged step. */
  lemma RecomputeStepLoggedIntro(
    caps: Capabilities, bsz: nat, guidance: bool, y: Option<Embedding>, chunkLen: nat, maxCondionFrames: int,
    initNoise: seq<Frame>, padNoise: seq<Frame>, before: seq<Frame>, call: SampleCall)
    requires StepCall(caps, bsz, guidance, y, chunkLen, maxCondionFrames, initNoise, padNoise, before, call)
    ensures var chunk := StepChunk(caps, bsz, guidance, y, chunkLen, maxCondionFrames, initNoise, padNoise, before, call);
            RecomputeStepLogged(caps, bsz, guidance, y, chunkLen, maxCondionFrames, initNoise, padNoise,
              |before|, before + chunk, call)
  {
    var chunk := StepChunk(caps, bsz, guidance, y, chunkLen, maxCondionFrames, initNoise, padNoise, before, call);
    var z := before + chunk;
    assert z[..|before|] == before;
    assert z[|before|..|before| + chunkLen] == chunk;
  }

  /** A logged step stays logged when more frames are appended. */
  lemma RecomputeStepLoggedExtends(
    caps: Capabilities, bsz: nat, guidance: bool, y: Option<Embedding>, chunkLen: nat, maxCondionFrames: int,
    initNoise: seq<Frame>, padNoise: seq<Frame>, predictedLen: nat, z: seq<Frame>, z': seq<Frame>, call: SampleCall)
    requires RecomputeStepLogged(caps, bsz, guidance, y, chunkLen, maxCondionFrames, initNoise, padNoise, predictedLen, z, call)
    requires |z| <= |z'| && z'[..|z|] == z
    ensures RecomputeStepLogged(caps, bsz, guidance, y, chunkLen, maxCondionFrames, initNoise, padNoise, predictedLen, z', call)
  {
    var q := predictedLen + chunkLen;
    assert z'[..q] == z[..q] by {
      assert z'[..q] == z'[..|z|][..q];
    }
    assert z'[..predictedLen] == z[..predictedLen] by {
      assert z'[..predictedLen] == z'[..q][..predictedLen];
      assert z[..predictedLen] == z[..q][..predictedLen];
    }
    assert z'[predictedLen..q] == z[predictedLen..q] by {
      assert z'[predictedLen..q] == z'[..q][predictedLen..];
      assert z[predictedLen..q] == z[..q][predictedLen..];
    }
  }

  /** The first `steps` steps of the recompute loop, logged as `calls`, built the frames `z`. */
  ghost predicate RecomputeLog(
    caps: Capabilities, bsz: nat, guidance: bool, y: Option<Embedding>, chunkLen: nat, maxCondionFrames: int,
    initNoise: seq<Frame>, padNoise: seq<seq<Frame>>, numGivenFrames: nat, steps: nat, z: seq<Frame>, calls: seq<SampleCall>)
  {
    && steps <= |padNoise|
    && |calls| == steps
    && forall s :: 0 <= s < steps ==>
         RecomputeStepLogged(caps, bsz, guidance, y, chunkLen, maxCondionFrames, initNoise, padNoise[s],
           PredictedLenAt(numGivenFrames, chunkLen, s), z, calls[s])
  }

  /** Appending the frames and the call of one more logged step extends the log. */
  lemma RecomputeLogAppend(
    caps: Capabilities, bsz: nat, guidance: bool, y: Option<Embedding>, chunkLen: nat, maxCondionFrames: int,
    initNoise: seq<Frame>, padNoise: seq<seq<Frame>>, numGivenFrames: nat, steps: nat, z: seq<Frame>, calls: seq<SampleCall>,
    chunk: seq<Frame>, call: SampleCall)
    requires RecomputeLog(caps, bsz, guidance, y, chunkLen, maxCondionFrames, initNoise, padNoise, numGivenFrames, steps, z, calls)
    requires steps < |padNoise|
    requires RecomputeStepLogged(caps, bsz, guidance, y, chunkLen, maxCondionFrames, initNoise, padNoise[steps],
               PredictedLenAt(numGivenFrames, chunkLen, steps), z + chunk, call)
    ensures RecomputeLog(caps, bsz, guidance, y, chunkLen, maxCondionFrames, initNoise, padNoise, numGivenFrames,
              steps + 1, z + chunk, calls + [call])
  {
    var z' := z + chunk;
    assert z'[..|z|] == z;
    forall s | 0 <= s < steps
      ensures RecomputeStepLogged(caps, bsz, guidance, y, chunkLen, maxCondionFrames, initNoise, padNoise[s],
                PredictedLenAt(numGivenFrames, chunkLen, s), z', (calls + [call])[s])
    {
      RecomputeStepLoggedExtends(caps, bsz, guidance, y, chunkLen, maxCondionFrames, initNoise, padNoise[s],
        PredictedLenAt(numGivenFrames, chunkLen, s), z, z', calls[s]);
    }
  }

  /** The model kwargs a recompute step may start from. */
  ghost predicate KwargsBetweenSteps(caps: Capabilities, y: Option<Embedding>, kwargs: ModelKwargs) {
    && kwargs.y == y
    && (caps.relativeTpeMode.None? ==> kwargs.xTemporalStart.None?)
    && (caps.tempExtraInChannels <= 0 ==> kwargs.maskChannel.None?)
  }

  /** One iteration of the recompute loop: the new chunk and the updated kwargs. */
  method RecomputeStep(
    scheduler: Scheduler, model: DenoisingModel, bsz: nat, guidance: bool, y: Option<Embedding>, chunkLen: nat,
    maxCondionFrames: int, zPredicted: seq<Frame>, initNoise: seq<Frame>, padNoise: seq<Frame>, modelKwargs: ModelKwargs)
    returns (r: Result<(seq<Frame>, ModelKwargs), GenError>, ghost call: SampleCall)
    requires |zPredicted| + chunkLen <= |initNoise| && |padNoise| == NumTrainingFrames
    requires KwargsBetweenSteps(model.caps, y, modelKwargs)
    modifies scheduler
    ensures r.Failure? <==> StepCheck(model.caps, CondLen(|zPredicted|, maxCondionFrames), chunkLen, maxCondionFrames).Some?
    ensures r.Failure? ==> r.error == StepCheck(model.caps, CondLen(|zPredicted|, maxCondionFrames), chunkLen, maxCondionFrames).value
    ensures r.Failure? ==> scheduler.calls == old(scheduler.calls)
    ensures r.Success? ==>
      && |r.value.0| == chunkLen
      && KwargsBetweenSteps(model.caps, y, r.value.1)
      && scheduler.calls == old(scheduler.calls) + [call]
      && StepCall(model.caps, bsz, guidance, y, chunkLen, maxCondionFrames, initNoise, padNoise, zPredicted, call)
      && r.value.0 == StepChunk(model.caps, bsz, guidance, y, chunkLen, maxCondionFrames, initNoise, padNoise, zPredicted, call)
  {
    var predictedLen := |zPredicted|;
    var denoiseLen := chunkLen;
    var initNoiseChunk := initNoise[predictedLen..predictedLen + denoiseLen];
    var zCond := CondWindow(zPredicted, maxCondionFrames);
    var condLen := |zCond|;
    var zInput := zCond + initNoiseChunk;
    var check := StepCheck(model.caps, condLen, denoiseLen, maxCondionFrames);
    if check.Some? {
      return Failure(check.value), SampleCall(Latents(bsz, zInput), modelKwargs, Latents(bsz, zInput));
    }
    var kwargs := modelKwargs;
    if model.caps.relativeTpeMode.Some? {
      kwargs := kwargs.(xTemporalStart := Some(predictedLen - condLen));
    }
    zInput := PadWithNoise(model.caps.isCausal, zInput, padNoise);
    kwargs := kwargs.(xCond := Some(Latents(bsz, zCond)));
    if model.caps.tempExtraInChannels > 0 {
      var maskChannel := BuildMaskChannel(|zInput|, condLen, bsz, guidance);
      kwargs := kwargs.(maskChannel := Some(maskChannel));
    }
    var samples := scheduler.SampleV2(model, Latents(bsz, zInput), kwargs);
    if model.caps.isCausal {
      assert |samples.frames| == condLen + denoiseLen;
    }
    var chunk := samples.frames[condLen..condLen + denoiseLen];
    r, call := Success((chunk, kwargs)), SampleCall(Latents(bsz, zInput), kwargs, samples);
  }

  /**
   * The `for ar_step` loop of `autoregressive_sample`, from the given frames: it fails
   * at the first step whose checks fail, otherwise it returns all frames.
   */
  method RecomputeLoop(
    scheduler: Scheduler, model: DenoisingModel, bsz: nat, guidance: bool, y: Option<Embedding>, chunkLen: nat,
    maxCondionFrames: int, given: seq<Frame>, arSteps: nat, initNoise: seq<Frame>, padNoise: seq<seq<Frame>>)
    returns (r: Result<seq<Frame>, GenError>)
    requires |initNoise| == |given| + chunkLen * arSteps
    requires |padNoise| == arSteps && forall s :: 0 <= s < arSteps ==> |padNoise[s]| == NumTrainingFrames
    modifies scheduler
    ensures r.Failure? <==> !StepsPass(model.caps, |given|, chunkLen, maxCondionFrames, arSteps)
    ensures r.Failure? ==>
      exists s :: 0 <= s < arSteps && StepsPass(model.caps, |given|, chunkLen, maxCondionFrames, s) &&
        StepCheck(model.caps, CondLen(PredictedLenAt(|given|, chunkLen, s), maxCondionFrames),
                  chunkLen, maxCondionFrames) == Some(r.error)
    ensures r.Success? ==>
      && |r.value| == |given| + chunkLen * arSteps
      && r.value[..|given|] == given
      && |old(scheduler.calls)| <= |scheduler.calls|
      && scheduler.calls[..|old(scheduler.calls)|] == old(scheduler.calls)
      && RecomputeLog(model.caps, bsz, guidance, y, chunkLen, maxCondionFrames, initNoise, padNoise,
           |given|, arSteps, r.value, scheduler.calls[|old(scheduler.calls)|..])
  {
    var zPredicted := given;
    var numGivenFrames := |given|;
    var modelKwargs := ModelKwargs(y, None, None, None);
    ghost var calls0 := scheduler.calls;
    ghost var log: seq<SampleCall> := [];
    var arStep := 0;
    while arStep < arSteps
      invariant 0 <= arStep <= arSteps
      invariant |zPredicted| == PredictedLenAt(numGivenFrames, chunkLen, arStep)
      invariant zPredicted[..numGivenFrames] == given
      invariant KwargsBetweenSteps(model.caps, y, modelKwargs)
      invariant StepsPass(model.caps, numGivenFrames, chunkLen, maxCondionFrames, arStep)
      invariant scheduler.calls == calls0 + log
      invariant RecomputeLog(model.caps, bsz, guidance, y, chunkLen, maxCondionFrames, initNoise, padNoise,
                  numGivenFrames, arStep, zPredicted, log)
    {
      NoiseSliceInBounds(numGivenFrames, chunkLen, arSteps, arStep);
      var step, call := RecomputeStep(scheduler, model, bsz, guidance, y, chunkLen, maxCondionFrames,
                                      zPredicted, initNoise, padNoise[arStep], modelKwargs);
      if step.Failure? {
        assert StepCheck(model.caps, CondLen(PredictedLenAt(numGivenFrames, chunkLen, arStep), maxCondionFrames),
                         chunkLen, maxCondionFrames) == Some(step.error);
        return Failure(step.error);
      }
      var chunk := step.value.0;
      modelKwargs := step.value.1;
      RecomputeStepLoggedIntro(model.caps, bsz, guidance, y, chunkLen, maxCondionFrames, initNoise, padNoise[arStep],
        zPredicted, call);
      RecomputeLogAppend(model.caps, bsz, guidance, y, chunkLen, maxCondionFrames, initNoise, padNoise,
        numGivenFrames, arStep, zPredicted, log, chunk, call);
      assert (zPredicted + chunk)[..numGivenFrames] == zPredicted[..numGivenFrames];
      zPredicted := zPredicted + chunk;
      log := log + [call];
      arStep := arStep + 1;
    }
    assert scheduler.calls[|calls0|..] == log;
    r := Success(zPredicted);
  }

  /**
   * `autoregressive_sample`: `arSteps` chunks of `chunkLen` frames, each denoised
   * from a window re-assembled out of the frames so far. `initNoise` is the
   * `torch.randn(final_size)` block and `padNoise[s]` the padding noise of step `s`.
   * Returns the frames and `num_gen_frames`.
   */
  method AutoregressiveSample(
    scheduler: Scheduler, model: DenoisingModel, hasTextEncoder: bool, chunkLen: nat,
    prompts: seq<string>, cond: Latents, arSteps: nat, maxCondionFrames: int,
    initNoise: seq<Frame>, padNoise: seq<seq<Frame>>)
    returns (r: Result<(Latents, nat), GenError>)
    requires cond.batch == |prompts|
    requires |initNoise| == |cond.frames| + chunkLen * arSteps
    requires |padNoise| == arSteps && forall s :: 0 <= s < arSteps ==> |padNoise[s]| == NumTrainingFrames
    modifies scheduler
    ensures r.Failure? <==>
      TextConditioning(hasTextEncoder, prompts, scheduler.cfgScale > 1.0).Failure?
      || !StepsPass(model.caps, |cond.frames|, chunkLen, maxCondionFrames, arSteps)
    ensures r.Failure? && TextConditioning(hasTextEncoder, prompts, scheduler.cfgScale > 1.0).Failure? ==>
      r.error == NullEmbeddingUnbound
    ensures r.Failure? && TextConditioning(hasTextEncoder, prompts, scheduler.cfgScale > 1.0).Success? ==>
      exists s :: 0 <= s < arSteps && StepsPass(model.caps, |cond.frames|, chunkLen, maxCondionFrames, s) &&
        StepCheck(model.caps, CondLen(PredictedLenAt(|cond.frames|, chunkLen, s), maxCondionFrames),
                  chunkLen, maxCondionFrames) == Some(r.error)
    ensures r.Success? ==>
      var z := r.value.0;
      && z.batch == cond.batch
      && |z.frames| == |cond.frames| + chunkLen * arSteps
      && r.value.1 == chunkLen * arSteps
      && z.frames[..|cond.frames|] == cond.frames
      && |old(scheduler.calls)| <= |scheduler.calls|
      && scheduler.calls[..|old(scheduler.calls)|] == old(scheduler.calls)
      && RecomputeLog(model.caps, |prompts|, scheduler.cfgScale > 1.0,
           TextConditioning(hasTextEncoder, prompts, scheduler.cfgScale > 1.0).value,
           chunkLen, maxCondionFrames, initNoise, padNoise, |cond.frames|, arSteps, z.frames,
           scheduler.calls[|old(scheduler.calls)|..])
  {
    var bsz := |prompts|;
    var guidance := scheduler.cfgScale > 1.0;
    var numGivenFrames := |cond.frames|;
    var text := TextConditioning(hasTextEncoder, prompts, guidance);
    if text.Failure? {
      return Failure(text.error);
    }
    var frames := RecomputeLoop(scheduler, model, bsz, guidance, text.value, chunkLen, maxCondionFrames,
                                cond.frames, arSteps, initNoise, padNoise);
    if frames.Failure? {
      return Failure(frames.error);
    }
    var zPredicted := frames.value;
    r := Success((Latents(bsz, zPredicted), |zPredicted| - numGivenFrames));
  }

  // ---------------------------------------------------------------------------
  // Cached generator: autoregressive_sample_kv_cache
  // ---------------------------------------------------------------------------

  /**
   * Step `s` of the cached loop, started with `predictedLen` frames and read off
   * the later frames `z`: the sampler saw the noise chunk alone, its result was
   * appended, and that result (doubled under guidance) was written to the cache.
   */
  ghost predicate KvStepLogged(
    bsz: nat, guidance: bool, y: Option<Embedding>, chunkLen: nat, initNoise: seq<Frame>,
    predictedLen: nat, z: seq<Frame>, call: SampleCall, write: CacheCall)
  {
    && predictedLen + chunkLen <= |z|
    && predictedLen + chunkLen <= |initNoise|
    && call.z == Latents(bsz, initNoise[predictedLen..predictedLen + chunkLen])
    && call.kwargs == ModelKwargs(y, None, None, None)
    && call.out.batch == bsz
    && call.out.frames == z[predictedLen..predictedLen + chunkLen]
    && write == Written(Guided(call.out, guidance), y)
  }

  /** The first `steps` steps of the cached loop, logged as `calls` and `writes`, built the frames `z`. */
  ghost predicate KvLog(
    bsz: nat, guidance: bool, y: Option<Embedding>, chunkLen: nat, initNoise: seq<Frame>,
    numGivenFrames: nat, steps: nat, z: seq<Frame>, calls: seq<SampleCall>, writes: seq<CacheCall>)
  {
    && |calls| == steps
    && |writes| == steps
    && forall s :: 0 <= s < steps ==>
         KvStepLogged(bsz, guidance, y, chunkLen, initNoise, PredictedLenAt(numGivenFrames, chunkLen, s), z, calls[s], writes[s])
  }

  /** Appending the frames, the call and the write of one more logged step extends the log. */
  lemma KvLogAppend(
    bsz: nat, guidance: bool, y: Option<Embedding>, chunkLen: nat, initNoise: seq<Frame>,
    numGivenFrames: nat, steps: nat, z: seq<Frame>, calls: seq<SampleCall>, writes: seq<CacheCall>,
    chunk: seq<Frame>, call: SampleCall, write: CacheCall)
    requires KvLog(bsz, guidance, y, chunkLen, initNoise, numGivenFrames, steps, z, calls, writes)
    requires KvStepLogged(bsz, guidance, y, chunkLen, initNoise, PredictedLenAt(numGivenFrames, chunkLen, steps), z + chunk, call, write)
    ensures KvLog(bsz, guidance, y, chunkLen, initNoise, numGivenFrames, steps + 1, z + chunk, calls + [call], writes + [write])
  {
  }

  /** Every cache write of a logged run holds latents of the guided batch size. */
  lemma KvWritesGuided(
    bsz: nat, guidance: bool, y: Option<Embedding>, chunkLen: nat, initNoise: seq<Frame>,
    numGivenFrames: nat, steps: nat, z: seq<Frame>, calls: seq<SampleCall>, writes: seq<CacheCall>)
    requires KvLog(bsz, guidance, y, chunkLen, initNoise, numGivenFrames, steps, z, calls, writes)
    ensures forall k :: 0 <= k < |writes| ==> writes[k].Written? && writes[k].latents.batch == GuidedBatch(bsz, guidance)
  {
  }

  /**
   * `autoregressive_sample_kv_cache`: the cache is registered for the guided batch,
   * seeded with the given frames, and each step denoises one chunk of pure noise
   * against it, appends the result and writes it to the cache. Returns the frames
   * and `num_gen_frames`.
   */
  method AutoregressiveSampleKvCache(
    scheduler: Scheduler, model: DenoisingModel, hasTextEncoder: bool, chunkLen: nat,
    prompts: seq<string>, cond: Latents, arSteps: nat, kvCacheDequeue: bool, kvCacheMaxSeqlen: int,
    initNoise: seq<Frame>)
    returns (r: Result<(Latents, nat), GenError>)
    requires cond.batch == |prompts|
    requires |initNoise| == |cond.frames| + chunkLen * arSteps
    modifies scheduler, model
    ensures
      && |old(model.cacheCalls)| < |model.cacheCalls|
      && model.cacheCalls[..|old(model.cacheCalls)| + 1] ==
           old(model.cacheCalls) + [Registered(GuidedBatch(|prompts|, scheduler.cfgScale > 1.0), kvCacheMaxSeqlen, kvCacheDequeue)]
    ensures r.Failure? <==> TextConditioning(hasTextEncoder, prompts, scheduler.cfgScale > 1.0).Failure?
    ensures r.Failure? ==> r.error == NullEmbeddingUnbound
    ensures r.Failure? ==> |model.cacheCalls| == |old(model.cacheCalls)| + 1 && scheduler.calls == old(scheduler.calls)
    ensures r.Success? ==>
      var guidance := scheduler.cfgScale > 1.0;
      var y := TextConditioning(hasTextEncoder, prompts, guidance).value;
      var c0 := |old(model.cacheCalls)|;
      var z := r.value.0;
      && z.batch == cond.batch
      && |z.frames| == |cond.frames| + chunkLen * arSteps
      && r.value.1 == chunkLen * arSteps
      && z.frames[..|cond.frames|] == cond.frames
      && |model.cacheCalls| == c0 + 2 + arSteps
      && model.cacheCalls[c0 + 1] == Written(Guided(cond, guidance), y)
      && (forall k :: c0 + 1 <= k < |model.cacheCalls| ==>
            model.cacheCalls[k].Written? && model.cacheCalls[k].latents.batch == GuidedBatch(|prompts|, guidance))
      && |old(scheduler.calls)| <= |scheduler.calls|
      && scheduler.calls[..|old(scheduler.calls)|] == old(scheduler.calls)
      && KvLog(|prompts|, guidance, y, chunkLen, initNoise, |cond.frames|, arSteps, z.frames,
           scheduler.calls[|old(scheduler.calls)|..], model.cacheCalls[c0 + 2..])
  {
    var bsz := |prompts|;
    var zPredicted := cond.frames;
    var guidance := scheduler.cfgScale > 1.0;
    var numGivenFrames := |zPredicted|;
    model.RegisterKvCache(GuidedBatch(bsz, guidance), kvCacheMaxSeqlen, kvCacheDequeue);
    var text := TextConditioning(hasTextEncoder, prompts, guidance);
    if text.Failure? {
      return Failure(text.error);
    }
    var y := text.value;
    var modelKwargs := ModelKwargs(y, None, None, None);
    model.WriteLatentsToCache(Guided(Latents(bsz, zPredicted), guidance), y);
    ghost var cache0 := model.cacheCalls;
    ghost var calls0 := scheduler.calls;
    ghost var log: seq<SampleCall> := [];
    ghost var writes: seq<CacheCall> := [];
    var arStep := 0;
    while arStep < arSteps
      invariant 0 <= arStep <= arSteps
      invariant |zPredicted| == PredictedLenAt(numGivenFrames, chunkLen, arStep)
      invariant zPredicted[..numGivenFrames] == cond.frames
      invariant scheduler.calls == calls0 + log
      invariant model.cacheCalls == cache0 + writes
      invariant KvLog(bsz, guidance, y, chunkLen, initNoise, numGivenFrames, arStep, zPredicted, log, writes)
    {
      NoiseSliceInBounds(numGivenFrames, chunkLen, arSteps, arStep);
      var predictedLen := |zPredicted|;
      var denoiseLen := chunkLen;
      var initNoiseChunk := initNoise[predictedLen..predictedLen + denoiseLen];
      var samples := scheduler.SampleV2(model, Latents(bsz, initNoiseChunk), modelKwargs);
      model.WriteLatentsToCache(Guided(samples, guidance), y);
      ghost var call := SampleCall(Latents(bsz, initNoiseChunk), modelKwargs, samples);
      ghost var write := Written(Guided(samples, guidance), y);
      assert (zPredicted + samples.frames)[predictedLen..predictedLen + chunkLen] == samples.frames;
      KvLogAppend(bsz, guidance, y, chunkLen, initNoise, numGivenFrames, arStep, zPredicted, log, writes,
        samples.frames, call, write);
      assert (zPredicted + samples.frames)[..numGivenFrames] == zPredicted[..numGivenFrames];
      zPredicted := zPredicted + samples.frames;
      log := log + [call];
      writes := writes + [write];
      arStep := arStep + 1;
    }
    KvWritesGuided(bsz, guidance, y, chunkLen, initNoise, numGivenFrames, arSteps, zPredicted, log, writes);
    assert scheduler.calls[|calls0|..] == log;
    assert model.cacheCalls[|cache0|..] == writes;
    r := Success((Latents(bsz, zPredicted), |zPredicted| - numGivenFrames));
  }
}
