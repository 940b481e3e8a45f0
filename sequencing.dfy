/**
 What the handler's order of steps guarantees, stated over the outcome
 `Run` (server.js:127-510): which ffmpeg runs happen, with which arguments,
 what is uploaded, and which response follows.
 */
module Sequencing {
  import opened Wrappers
  import opened Caption
  import opened Probing
  import opened FfmpegArgs
  import opened Handler

  /** What happens after stage 1 succeeded with a demo. */
  lemma ConcatStageShape(req: Request, env: Env, paths: Paths, fmt: real -> string, args1: seq<string>)
    requires env.stage1.exitCode == 0 && HasDemo(req)
    ensures var c := ConcatStage(req, env, paths, fmt, args1);
      && 1 <= |c.transcodes| <= 2 && c.transcodes[0] == args1
      && |c.probed| >= 2 && c.probed[0] == paths.video && c.probed[1] == paths.output
      && (|c.transcodes| == 2 <==> ConcatRuns(req, env))
      && (ConcatRuns(req, env) ==>
            c.transcodes[1] == SecondStageArgs(req, paths, fmt, env.outputProbe.parsed.value, env.demoProbe.parsed.value)
            && c.probed == [paths.video, paths.output, paths.demo])
      && (c.uploaded.Some? <==> ConcatRuns(req, env) && env.concat.exitCode == 0)
      && (c.uploaded.Some? ==> c.uploaded.value == paths.intermediate)
      && (c.uploaded.Some? ==> c.response == if env.upload.Some? then Succeeded(env.upload.value) else Failed(500, UploadFailed))
      && (c.uploaded.None? ==> c.response.Failed? && c.response.status == 500)
  {
    if ConcatRuns(req, env) {
      var d1 := VideoDuration(env.outputProbe).value;
      var d2 := VideoDuration(env.demoProbe).value;
      assert ConcatStage(req, env, paths, fmt, args1) == ConcatAndUpload(req, env, paths, fmt, args1, d1, d2);
    }
  }

  /** What happens from the probe of the video on, for a caption plan. */
  lemma StagesShape(req: Request, env: Env, paths: Paths, fmt: real -> string, plan: seq<Overlay>)
    ensures var o := RunStages(req, env, paths, fmt, plan);
      && 1 <= |o.transcodes| <= 2 && o.transcodes[0] == FirstStageArgs(req, env, paths, fmt, plan)
      && |o.probed| >= 1 && o.probed[0] == paths.video
      && (|o.transcodes| == 2 <==> ConcatRuns(req, env))
      && (ConcatRuns(req, env) ==>
            o.transcodes[1] == SecondStageArgs(req, paths, fmt, env.outputProbe.parsed.value, env.demoProbe.parsed.value)
            && o.probed == [paths.video, paths.output, paths.demo])
      && (o.uploaded.Some? <==>
            env.stage1.exitCode == 0 && (HasDemo(req) ==> ConcatRuns(req, env) && env.concat.exitCode == 0))
      && (o.uploaded.Some? ==> o.uploaded.value == if HasDemo(req) then paths.intermediate else paths.output)
      && (o.uploaded.Some? ==> o.response == if env.upload.Some? then Succeeded(env.upload.value) else Failed(500, UploadFailed))
      && (o.uploaded.None? ==> o.response.Failed? && o.response.status == 500)
  {
    if env.stage1.exitCode == 0 && HasDemo(req) {
      ConcatStageShape(req, env, paths, fmt, FirstStageArgs(req, env, paths, fmt, plan));
    }
  }

  /** The request runs the stages exactly when it is prepared; otherwise it fails before probing anything. */
  lemma RunCases(req: Request, env: Env, paths: Paths, fmt: real -> string)
    ensures Prepared(req, env) ==>
      Layout(req.hookText, req.hookPosition).Success?
      && Run(req, env, paths, fmt) == RunStages(req, env, paths, fmt, Layout(req.hookText, req.hookPosition).value)
    ensures !Prepared(req, env) ==>
      var o := Run(req, env, paths, fmt);
      o.probed == [] && o.transcodes == [] && o.uploaded.None? && o.response.Failed?
  {
    LayoutFailsOnlyWithoutText(req.hookText, req.hookPosition);
  }

  /** Without an uploaded video or a non-empty `videoUrl` the answer is 400, and nothing is probed or run. */
  lemma NoVideoIsBadRequest(req: Request, env: Env, paths: Paths, fmt: real -> string)
    ensures var o := Run(req, env, paths, fmt);
      (o.response.Failed? && o.response.status == 400) <==> !HasVideo(req)
    ensures var o := Run(req, env, paths, fmt);
      !HasVideo(req) ==> o.probed == [] && o.transcodes == [] && o.uploaded.None? && o.response.error == NoVideoSource
  {
    RunCases(req, env, paths, fmt);
    if Prepared(req, env) {
      StagesShape(req, env, paths, fmt, Layout(req.hookText, req.hookPosition).value);
    }
  }

  /** A failed download ends the request with 500 before anything is probed or run. */
  lemma FetchFailureIsFatal(req: Request, env: Env, paths: Paths, fmt: real -> string)
    requires HasVideo(req)
    ensures var o := Run(req, env, paths, fmt);
      !env.videoFetched ==> o == Outcome([], [], None, Failed(500, FetchFailed(VideoInput)))
    ensures var o := Run(req, env, paths, fmt);
      (env.videoFetched && HasAudio(req) && !env.audioFetched) ==>
        o == Outcome([], [], None, Failed(500, FetchFailed(AudioInput)))
    ensures var o := Run(req, env, paths, fmt);
      (env.videoFetched && (HasAudio(req) ==> env.audioFetched) && HasDemo(req) && !env.demoFetched) ==>
        o == Outcome([], [], None, Failed(500, FetchFailed(DemoInput)))
  {
  }

  /**
   The first transcode runs exactly when every input was fetched and the
   caption was laid out (a missing `hookText` makes `.replace` throw), and
   it runs the stage-1 vector for the caption's drawtext chain.
   */
  lemma FirstTranscodeRunsIffPrepared(req: Request, env: Env, paths: Paths, fmt: real -> string)
    ensures var o := Run(req, env, paths, fmt);
      |o.transcodes| >= 1 <==> Prepared(req, env)
    ensures var o := Run(req, env, paths, fmt);
      Prepared(req, env) ==>
        Layout(req.hookText, req.hookPosition).Success?
        && o.transcodes[0] == FirstStageArgs(req, env, paths, fmt, Layout(req.hookText, req.hookPosition).value)
        && o.probed[0] == paths.video
    ensures var o := Run(req, env, paths, fmt);
      (HasVideo(req) && FetchError(req, env).None? && req.hookText.None?) ==>
        o == Outcome([], [], None, Failed(500, CaptionFailed(MissingHookText)))
  {
    RunCases(req, env, paths, fmt);
    if Prepared(req, env) {
      StagesShape(req, env, paths, fmt, Layout(req.hookText, req.hookPosition).value);
    }
    if HasVideo(req) && FetchError(req, env).None? && req.hookText.None? {
      LayoutFailsOnlyWithoutText(req.hookText, req.hookPosition);
      assert Layout(req.hookText, req.hookPosition) == Failure(MissingHookText);
    }
  }

  /** A non-zero exit of stage 1 is fatal: no probe of the output, no concatenation, no upload. */
  lemma Stage1FailureIsFatal(req: Request, env: Env, paths: Paths, fmt: real -> string)
    requires Prepared(req, env) && env.stage1.exitCode != 0
    ensures var o := Run(req, env, paths, fmt);
      o.probed == [paths.video] && |o.transcodes| == 1 && o.uploaded.None?
      && o.response == Failed(500, TranscodeFailed(env.stage1.exitCode))
  {
    RunCases(req, env, paths, fmt);
  }

  /**
   With a demo, a failed duration probe of the stage-1 output or of the demo
   (a non-zero exit, or output that is not a number) is fatal: the second
   transcode does not run and nothing is uploaded.
   */
  lemma ConcatProbeFailureIsFatal(req: Request, env: Env, paths: Paths, fmt: real -> string)
    requires Prepared(req, env) && env.stage1.exitCode == 0 && HasDemo(req)
    ensures var o := Run(req, env, paths, fmt);
      VideoDuration(env.outputProbe).Failure? ==>
        o.probed == [paths.video, paths.output] && |o.transcodes| == 1 && o.uploaded.None?
        && o.response == Failed(500, ConcatProbeFailed(VideoDuration(env.outputProbe).error))
    ensures var o := Run(req, env, paths, fmt);
      VideoDuration(env.outputProbe).Success? && VideoDuration(env.demoProbe).Failure? ==>
        o.probed == [paths.video, paths.output, paths.demo] && |o.transcodes| == 1 && o.uploaded.None?
        && o.response == Failed(500, ConcatProbeFailed(VideoDuration(env.demoProbe).error))
  {
    RunCases(req, env, paths, fmt);
  }

  /**
   The second transcode runs exactly when stage 1 exited 0, a demo was
   given, and both durations were read; its audio is trimmed to the sum of
   the two durations. No request runs more than two transcodes.
   */
  lemma SecondTranscodeRunsIffConcatRuns(req: Request, env: Env, paths: Paths, fmt: real -> string)
    ensures var o := Run(req, env, paths, fmt);
      |o.transcodes| <= 2
    ensures var o := Run(req, env, paths, fmt);
      |o.transcodes| == 2 <==> Prepared(req, env) && ConcatRuns(req, env)
    ensures var o := Run(req, env, paths, fmt);
      Prepared(req, env) && ConcatRuns(req, env) ==>
        o.transcodes[1] == SecondStageArgs(req, paths, fmt, env.outputProbe.parsed.value, env.demoProbe.parsed.value)
        && o.probed == [paths.video, paths.output, paths.demo]
  {
    RunCases(req, env, paths, fmt);
    if Prepared(req, env) {
      StagesShape(req, env, paths, fmt, Layout(req.hookText, req.hookPosition).value);
    }
  }

  /**
   The upload happens exactly when every stage that runs succeeded, and it
   uploads the concatenated file when there is a demo, the stage-1 output
   otherwise.
   */
  lemma UploadIffStagesSucceeded(req: Request, env: Env, paths: Paths, fmt: real -> string)
    ensures var o := Run(req, env, paths, fmt);
      o.uploaded.Some? <==>
        Prepared(req, env) && env.stage1.exitCode == 0
        && (HasDemo(req) ==> ConcatRuns(req, env) && env.concat.exitCode == 0)
    ensures var o := Run(req, env, paths, fmt);
      o.uploaded.Some? ==> o.uploaded.value == if HasDemo(req) then paths.intermediate else paths.output
  {
    RunCases(req, env, paths, fmt);
    if Prepared(req, env) {
      StagesShape(req, env, paths, fmt, Layout(req.hookText, req.hookPosition).value);
    }
  }

  /** The request succeeds exactly when the final file was uploaded and the upload returned a URL, which is answered. */
  lemma SucceedsIffUploaded(req: Request, env: Env, paths: Paths, fmt: real -> string)
    ensures var o := Run(req, env, paths, fmt);
      o.response.Succeeded? <==> o.uploaded.Some? && env.upload.Some?
    ensures var o := Run(req, env, paths, fmt);
      o.response.Succeeded? ==> o.response.videoUrl == env.upload.value
    ensures var o := Run(req, env, paths, fmt);
      o.uploaded.Some? && env.upload.None? ==> o.response == Failed(500, UploadFailed)
  {
    RunCases(req, env, paths, fmt);
    if Prepared(req, env) {
      StagesShape(req, env, paths, fmt, Layout(req.hookText, req.hookPosition).value);
    }
  }

  /** Every file the request creates is one of its five fresh temp paths. */
  lemma CreatedAreTempPaths(req: Request, env: Env, paths: Paths)
    ensures Created(req, env, paths) <= {paths.output, paths.video, paths.audio, paths.demo, paths.intermediate}
    ensures paths.video in Created(req, env, paths) <==> HasVideo(req) && env.videoFetched
  {
  }
}
