/**
 * The beach overfitting inference example (configs/baselines/infer_example_overfit_beach.py)
 * run through the recompute controller: one given latent frame, chunks of 8, ten
 * steps, a window of at most 25 condition frames, no guidance (cfg_scale 1.0), on a
 * model trained on 33-frame windows with absolute temporal positions.
 */
module OverfitBeach {
  import opened Wrappers
  import opened VideoGen

  const ChunkLen: nat := 8
  const ArSteps: nat := 10
  const MaxCondionFrames := 25
  const NumGivenFrames: nat := 1

  /** A model with absolute temporal positions over a 33-frame range. */
  predicate BeachModel(caps: Capabilities) {
    caps.relativeTpeMode.None? && caps.temporalMaxLen == NumTrainingFrames
  }

  /** Every one of the ten steps passes the controller's assertions. */
  lemma BeachStepsPass(caps: Capabilities)
    requires BeachModel(caps)
    ensures StepsPass(caps, NumGivenFrames, ChunkLen, MaxCondionFrames, ArSteps)
  {
  }

  /** The window grows 1, 9, 17, 25 frames and then slides at 25. */
  lemma BeachWindowLengths()
    ensures forall s :: 0 <= s < ArSteps ==>
      CondLen(PredictedLenAt(NumGivenFrames, ChunkLen, s), MaxCondionFrames) == if s < 3 then 1 + 8 * s else 25
  {
  }

  /** At step 4, with 33 frames so far, the window is the 25 most recent: frames 8 to 32. */
  lemma BeachWindowAtStep4(z: seq<Frame>)
    requires |z| == PredictedLenAt(NumGivenFrames, ChunkLen, 4)
    ensures CondWindow(z, MaxCondionFrames) == z[8..]
  {
  }

  /**
   * The example as a run: it succeeds with 81 frames and 80 generated ones, the
   * given frame first.
   */
  method BeachRun(scheduler: Scheduler, model: DenoisingModel, hasTextEncoder: bool,
                  prompts: seq<string>, cond: Latents, initNoise: seq<Frame>, padNoise: seq<seq<Frame>>)
    returns (z: Latents, numGenFrames: nat)
    requires BeachModel(model.caps) && scheduler.cfgScale == 1.0
    requires cond.batch == |prompts| && |cond.frames| == NumGivenFrames
    requires |initNoise| == 81
    requires |padNoise| == ArSteps && forall s :: 0 <= s < ArSteps ==> |padNoise[s]| == NumTrainingFrames
    modifies scheduler
    ensures |z.frames| == 81 && numGenFrames == 80
    ensures z.frames[..1] == cond.frames
  {
    BeachStepsPass(model.caps);
    var r := AutoregressiveSample(scheduler, model, hasTextEncoder, ChunkLen, prompts, cond, ArSteps,
                                  MaxCondionFrames, initNoise, padNoise);
    z, numGenFrames := r.value.0, r.value.1;
  }

  /**
   * The misaligned budget the controller's comment warns about: a 27-frame window
   * with chunks of 8 after one given frame passes four steps and overruns a
   * 33-position range at the fifth, when the window first reaches 27 frames.
   */
  lemma MisalignedBudgetOverruns(caps: Capabilities)
    requires caps.relativeTpeMode.Some? && caps.relativeTpeMode != Some(Cyclic)
    requires caps.isCausal && caps.temporalMaxLen == 33
    ensures StepsPass(caps, 1, 8, 27, 4)
    ensures StepCheck(caps, CondLen(PredictedLenAt(1, 8, 4), 27), 8, 27) == Some(TpeOutOfRange)
    ensures !StepsPass(caps, 1, 8, 27, 5)
  {
  }
}
