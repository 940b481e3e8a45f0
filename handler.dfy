/**
 The `POST /api/ugc/process-video` handler (server.js:127-510) as a sequence
 of decisions. Everything it talks to is an input: whether each download
 succeeded, the exit codes and parsed outputs of the ffprobe runs, the exit
 code of each ffmpeg run and whether it wrote its output file, and the URL the
 upload returned (or its failure). The result records which paths were
 probed, the argument vector of each ffmpeg run, the path uploaded, and the
 response sent.
 */
module Handler {
  import opened Wrappers
  import opened Caption
  import opened Probing
  import opened FfmpegArgs
  import opened TempFiles

  /** The request fields the handler reads; an uploaded file is only "present". */
  datatype Request = Request(
    uploadedVideo: bool,
    videoUrl: Option<string>,
    uploadedAudio: bool,
    audioUrl: Option<string>,
    demoUrl: Option<string>,
    hookText: Option<string>,
    hookPosition: Option<string>)

  /** A body field tested with `if (x)`: present and not the empty string. */
  predicate Truthy(o: Option<string>)
  {
    o.Some? && o.value != ""
  }

  predicate HasVideo(req: Request) { req.uploadedVideo || Truthy(req.videoUrl) }
  predicate HasAudio(req: Request) { req.uploadedAudio || Truthy(req.audioUrl) }
  predicate HasDemo(req: Request) { Truthy(req.demoUrl) }

  /** One ffmpeg run: its exit code and whether it left its output file behind. */
  datatype StageRun = StageRun(exitCode: int, wroteOutput: bool)

  /** What the outside world does during the request. */
  datatype Env = Env(
    videoFetched: bool,
    audioFetched: bool,
    demoFetched: bool,
    videoProbe: ProbeRun,
    stage1: StageRun,
    outputProbe: ProbeRun,
    demoProbe: ProbeRun,
    concat: StageRun,
    upload: Option<string>)

  /** The fresh temp paths (`uuidv4` names in the temp directory) and the font file. */
  datatype Paths = Paths(
    output: string,
    video: string,
    audio: string,
    demo: string,
    intermediate: string,
    fontFile: string)

  datatype InputKind = VideoInput | AudioInput | DemoInput

  datatype JobError =
    | NoVideoSource
    | FetchFailed(input: InputKind)
    | CaptionFailed(cause: CaptionError)
    | TranscodeFailed(code: int)
    | ConcatProbeFailed(probe: ProbeError)
    | ConcatFailed(code: int)
    | UploadFailed

  datatype Response = Succeeded(videoUrl: string) | Failed(status: int, error: JobError)

  /** The paths probed, the ffmpeg argument vectors run, the path uploaded, and the response. */
  datatype Outcome = Outcome(
    probed: seq<string>,
    transcodes: seq<seq<string>>,
    uploaded: Option<string>,
    response: Response)

  function AudioPath(req: Request, paths: Paths): Option<string>
  {
    if HasAudio(req) then Some(paths.audio) else None
  }

  /** The inputs were fetched and the caption was laid out, so the first transcode runs. */
  predicate Prepared(req: Request, env: Env)
  {
    HasVideo(req) && env.videoFetched
    && (HasAudio(req) ==> env.audioFetched)
    && (HasDemo(req) ==> env.demoFetched)
    && req.hookText.Some?
  }

  /** The argument vector of the first transcode. */
  function FirstStageArgs(req: Request, env: Env, paths: Paths, fmt: real -> string, plan: seq<Overlay>): seq<string>
  {
    var shape := SelectStage1Shape(AudioPath(req, paths), Stage1Duration(env.videoProbe));
    Flatten(Stage1Args(shape, paths.video, TextStyle(paths.fontFile, plan), paths.output, fmt))
  }

  /** The argument vector of the concatenation, for the two probed durations. */
  function SecondStageArgs(req: Request, paths: Paths, fmt: real -> string, d1: real, d2: real): seq<string>
  {
    Flatten(ConcatArgs(paths.output, paths.demo, AudioPath(req, paths), d1 + d2, paths.intermediate, fmt))
  }

  /** The upload of the final file, and the response that follows from it. */
  function UploadOutcome(probed: seq<string>, transcodes: seq<seq<string>>, path: string, env: Env): Outcome
  {
    Outcome(probed, transcodes, Some(path),
      if env.upload.Some? then Succeeded(env.upload.value) else Failed(500, UploadFailed))
  }

  /** The concatenation runs: stage 1 succeeded, a demo was given, and both durations were read. */
  predicate ConcatRuns(req: Request, env: Env)
  {
    env.stage1.exitCode == 0 && HasDemo(req)
    && VideoDuration(env.outputProbe).Success? && VideoDuration(env.demoProbe).Success?
  }

  /** After stage 1 succeeded with a demo: probe both clips, concatenate, upload. */
  function ConcatStage(req: Request, env: Env, paths: Paths, fmt: real -> string, args1: seq<string>): Outcome
  {
    match VideoDuration(env.outputProbe)
    case Failure(e) =>
      Outcome([paths.video, paths.output], [args1], None, Failed(500, ConcatProbeFailed(e)))
    case Success(d1) =>
      match VideoDuration(env.demoProbe)
      case Failure(e) =>
        Outcome([paths.video, paths.output, paths.demo], [args1], None, Failed(500, ConcatProbeFailed(e)))
      case Success(d2) => ConcatAndUpload(req, env, paths, fmt, args1, d1, d2)
  }

  /** Both durations read: concatenate, then upload the intermediate file. */
  function ConcatAndUpload(req: Request, env: Env, paths: Paths, fmt: real -> string, args1: seq<string>,
                           d1: real, d2: real): Outcome
  {
    var args2 := SecondStageArgs(req, paths, fmt, d1, d2);
    var probed := [paths.video, paths.output, paths.demo];
    if env.concat.exitCode != 0 then
      Outcome(probed, [args1, args2], None, Failed(500, ConcatFailed(env.concat.exitCode)))
    else
      UploadOutcome(probed, [args1, args2], paths.intermediate, env)
  }

  /** From the probe of the video to the response, once the caption plan exists. */
  function RunStages(req: Request, env: Env, paths: Paths, fmt: real -> string, plan: seq<Overlay>): Outcome
  {
    var args1 := FirstStageArgs(req, env, paths, fmt, plan);
    if env.stage1.exitCode != 0 then
      Outcome([paths.video], [args1], None, Failed(500, TranscodeFailed(env.stage1.exitCode)))
    else if !HasDemo(req) then
      UploadOutcome([paths.video], [args1], paths.output, env)
    else
      ConcatStage(req, env, paths, fmt, args1)
  }

  /** The first input that could not be fetched, in the order the handler fetches them. */
  function FetchError(req: Request, env: Env): Option<JobError>
  {
    if !env.videoFetched then Some(FetchFailed(VideoInput))
    else if HasAudio(req) && !env.audioFetched then Some(FetchFailed(AudioInput))
    else if HasDemo(req) && !env.demoFetched then Some(FetchFailed(DemoInput))
    else None
  }

  function Fail(e: JobError): Outcome
  {
    Outcome([], [], None, Failed(500, e))
  }

  /** The whole request. */
  function Run(req: Request, env: Env, paths: Paths, fmt: real -> string): Outcome
  {
    if !HasVideo(req) then Outcome([], [], None, Failed(400, NoVideoSource))
    else if FetchError(req, env).Some? then Fail(FetchError(req, env).value)
    else
      match Layout(req.hookText, req.hookPosition)
      case Failure(e) => Fail(CaptionFailed(e))
      case Success(plan) => RunStages(req, env, paths, fmt, plan)
  }

  /** The input files the fetches write: each one up to the first that fails. */
  function Fetched(req: Request, env: Env, paths: Paths): set<string>
  {
    if !env.videoFetched then {}
    else if HasAudio(req) && !env.audioFetched then {paths.video}
    else
      {paths.video}
      + (if HasAudio(req) then {paths.audio} else {})
      + (if HasDemo(req) && env.demoFetched then {paths.demo} else {})
  }

  /** The files the ffmpeg runs write. */
  function Transcoded(req: Request, env: Env, paths: Paths): set<string>
  {
    (if env.stage1.wroteOutput then {paths.output} else {})
    + (if ConcatRuns(req, env) && env.concat.wroteOutput then {paths.intermediate} else {})
  }

  /** The temp files the request writes. */
  function Created(req: Request, env: Env, paths: Paths): set<string>
  {
    if !HasVideo(req) then {}
    else if FetchError(req, env).Some? || req.hookText.None? then Fetched(req, env, paths)
    else Fetched(req, env, paths) + Transcoded(req, env, paths)
  }

  /** `uuidv4` names: non-empty, and no such file exists yet. */
  predicate Fresh(paths: Paths, files: set<string>)
  {
    paths.output != "" && paths.output !in files
    && paths.video != "" && paths.video !in files
    && paths.audio != "" && paths.audio !in files
    && paths.demo != "" && paths.demo !in files
    && paths.intermediate != "" && paths.intermediate !in files
  }

  /** What the handler keeps true between steps: everything it created is listed in `tempFiles`. */
  ghost predicate Tracked(fs: FileSystem, tempFiles: seq<string>, before: set<string>, created: set<string>)
    reads fs
  {
    fs.files == before + created
    && (forall p | p in created :: p in tempFiles)
    && (forall p | p in tempFiles :: p != "" && p !in before)
  }

  /** The `catch` block: delete every temp file, then answer 500 with the error. */
  method Abort(fs: FileSystem, tempFiles: seq<string>, e: JobError,
               ghost before: set<string>, ghost created: set<string>) returns (r: Response)
    requires Tracked(fs, tempFiles, before, created)
    modifies fs
    ensures r == Failed(500, e)
    ensures fs.files == before + (created * fs.undeletable)
  {
    CleanupTempFiles(fs, tempFiles);
    CleanupRestores(before, created, tempFiles, fs.undeletable);
    r := Failed(500, e);
  }

  /**
   A failed duration probe of the concatenation: its own error path deletes
   the temp files, then the rethrown error reaches the `catch` block, which
   deletes them again and answers 500.
   */
  method AbortTwice(fs: FileSystem, tempFiles: seq<string>, e: JobError,
                    ghost before: set<string>, ghost created: set<string>) returns (r: Response)
    requires Tracked(fs, tempFiles, before, created)
    modifies fs
    ensures r == Failed(500, e)
    ensures fs.files == before + (created * fs.undeletable)
  {
    CleanupTempFiles(fs, tempFiles);
    CleanupRestores(before, created, tempFiles, fs.undeletable);
    r := Abort(fs, tempFiles, e, before, created * fs.undeletable);
  }

  /** Upload the final file; clean up on both outcomes. */
  method Upload(fs: FileSystem, tempFiles: seq<string>, path: string, env: Env,
                ghost before: set<string>, ghost created: set<string>) returns (r: Response)
    requires Tracked(fs, tempFiles, before, created)
    modifies fs
    ensures r == UploadOutcome([], [], path, env).response
    ensures fs.files == before + (created * fs.undeletable)
  {
    if env.upload.None? {
      r := Abort(fs, tempFiles, UploadFailed, before, created);
    } else {
      CleanupTempFiles(fs, tempFiles);
      CleanupRestores(before, created, tempFiles, fs.undeletable);
      r := Succeeded(env.upload.value);
    }
  }

  /** Fetch the video, the audio and the demo clip in turn, registering each file written. */
  method FetchInputs(fs: FileSystem, req: Request, env: Env, paths: Paths, registered: seq<string>,
                     ghost before: set<string>)
    returns (err: Option<JobError>, tempFiles: seq<string>, audioFilePath: Option<string>, ghost created: set<string>)
    requires Fresh(paths, before)
    requires Tracked(fs, registered, before, {})
    modifies fs
    ensures err == FetchError(req, env)
    ensures created == Fetched(req, env, paths)
    ensures Tracked(fs, tempFiles, before, created)
    ensures forall p | p in registered :: p in tempFiles
    ensures audioFilePath ==
      if err == Some(FetchFailed(VideoInput)) || err == Some(FetchFailed(AudioInput)) then None
      else AudioPath(req, paths)
  {
    tempFiles := registered;
    created := {};
    audioFilePath := None;
    if !env.videoFetched {
      return Some(FetchFailed(VideoInput)), tempFiles, audioFilePath, created;
    }
    fs.WriteFile(paths.video);
    tempFiles := tempFiles + [paths.video];
    created := created + {paths.video};
    if HasAudio(req) {
      if !env.audioFetched {
        return Some(FetchFailed(AudioInput)), tempFiles, audioFilePath, created;
      }
      fs.WriteFile(paths.audio);
      tempFiles := tempFiles + [paths.audio];
      created := created + {paths.audio};
      audioFilePath := Some(paths.audio);
    }
    if HasDemo(req) {
      if !env.demoFetched {
        return Some(FetchFailed(DemoInput)), tempFiles, audioFilePath, created;
      }
      fs.WriteFile(paths.demo);
      tempFiles := tempFiles + [paths.demo];
      created := created + {paths.demo};
    }
    err := None;
  }

  /**
   The handler, step by step: register the output path, fetch the inputs,
   lay out the caption, then run the stages; every exit after the inputs
   were fetched cleans up `tempFiles`.
   */
  method HandleRequest(fs: FileSystem, req: Request, env: Env, paths: Paths, fmt: real -> string)
    returns (o: Outcome)
    requires Fresh(paths, fs.files)
    modifies fs
    ensures o == Run(req, env, paths, fmt)
    ensures fs.files == old(fs.files) + (Created(req, env, paths) * fs.undeletable)
  {
    ghost var before := fs.files;
    var tempFiles := [paths.output];
    if !HasVideo(req) {
      return Outcome([], [], None, Failed(400, NoVideoSource));
    }
    var err, audioFilePath;
    ghost var created;
    err, tempFiles, audioFilePath, created := FetchInputs(fs, req, env, paths, tempFiles, before);
    if err.Some? {
      var r := Abort(fs, tempFiles, err.value, before, created);
      return Outcome([], [], None, r);
    }
    var layout := LayoutCaption(req.hookText, req.hookPosition);
    if layout.Failure? {
      var r := Abort(fs, tempFiles, CaptionFailed(layout.error), before, created);
      return Outcome([], [], None, r);
    }
    o := HandleStages(fs, req, env, paths, fmt, layout.value, tempFiles, audioFilePath, before, created);
  }

  /** Stage 1, then the upload of its output or the concatenation. */
  method HandleStages(fs: FileSystem, req: Request, env: Env, paths: Paths, fmt: real -> string,
                      plan: seq<Overlay>, registered: seq<string>, audioFilePath: Option<string>,
                      ghost before: set<string>, ghost fetched: set<string>) returns (o: Outcome)
    requires Fresh(paths, before)
    requires Tracked(fs, registered, before, fetched)
    requires paths.output in registered
    requires audioFilePath == AudioPath(req, paths)
    modifies fs
    ensures o == RunStages(req, env, paths, fmt, plan)
    ensures fs.files == before + ((fetched + Transcoded(req, env, paths)) * fs.undeletable)
  {
    var tempFiles := registered;
    ghost var created := fetched;
    var textStyle := TextStyle(paths.fontFile, plan);
    var videoDuration := Stage1Duration(env.videoProbe);
    var shape := SelectStage1Shape(audioFilePath, videoDuration);
    var args1 := Flatten(Stage1Args(shape, paths.video, textStyle, paths.output, fmt));
    if env.stage1.wroteOutput {
      fs.WriteFile(paths.output);
      created := created + {paths.output};
    }
    if env.stage1.exitCode != 0 {
      var r := Abort(fs, tempFiles, TranscodeFailed(env.stage1.exitCode), before, created);
      return Outcome([paths.video], [args1], None, r);
    }
    if !HasDemo(req) {
      var r := Upload(fs, tempFiles, paths.output, env, before, created);
      return Outcome([paths.video], [args1], Some(paths.output), r);
    }
    o := HandleConcat(fs, req, env, paths, fmt, args1, tempFiles, audioFilePath, before, created);
  }

  /** Register the intermediate path, probe both clips, concatenate, upload. */
  method HandleConcat(fs: FileSystem, req: Request, env: Env, paths: Paths, fmt: real -> string,
                      args1: seq<string>, registered: seq<string>, audioFilePath: Option<string>,
                      ghost before: set<string>, ghost created0: set<string>) returns (o: Outcome)
    requires Fresh(paths, before)
    requires Tracked(fs, registered, before, created0)
    requires audioFilePath == AudioPath(req, paths)
    requires env.stage1.exitCode == 0 && HasDemo(req)
    modifies fs
    ensures o == ConcatStage(req, env, paths, fmt, args1)
    ensures fs.files == before + ((created0
      + (if ConcatRuns(req, env) && env.concat.wroteOutput then {paths.intermediate} else {})) * fs.undeletable)
  {
    var tempFiles := registered + [paths.intermediate];
    ghost var created := created0;
    var d1 := VideoDuration(env.outputProbe);
    if d1.Failure? {
      var r := AbortTwice(fs, tempFiles, ConcatProbeFailed(d1.error), before, created);
      return Outcome([paths.video, paths.output], [args1], None, r);
    }
    var d2 := VideoDuration(env.demoProbe);
    if d2.Failure? {
      var r := AbortTwice(fs, tempFiles, ConcatProbeFailed(d2.error), before, created);
      return Outcome([paths.video, paths.output, paths.demo], [args1], None, r);
    }
    o := RunConcat(fs, req, env, paths, fmt, args1, tempFiles, audioFilePath, d1.value, d2.value, before, created);
  }

  /** Both durations read: build the concat arguments, run ffmpeg, upload. */
  method RunConcat(fs: FileSystem, req: Request, env: Env, paths: Paths, fmt: real -> string,
                   args1: seq<string>, tempFiles: seq<string>, audioFilePath: Option<string>, d1: real, d2: real,
                   ghost before: set<string>, ghost created0: set<string>) returns (o: Outcome)
    requires Tracked(fs, tempFiles, before, created0)
    requires paths.intermediate in tempFiles
    requires audioFilePath == AudioPath(req, paths)
    modifies fs
    ensures o == ConcatAndUpload(req, env, paths, fmt, args1, d1, d2)
    ensures fs.files == before + ((created0
      + (if env.concat.wroteOutput then {paths.intermediate} else {})) * fs.undeletable)
  {
    ghost var created := created0;
    var totalDuration := d1 + d2;
    var concatArgs := BuildConcatArgs(paths.output, paths.demo, audioFilePath, totalDuration, paths.intermediate, fmt);
    var args2 := Flatten(concatArgs);
    if env.concat.wroteOutput {
      fs.WriteFile(paths.intermediate);
      created := created + {paths.intermediate};
    }
    var probed := [paths.video, paths.output, paths.demo];
    if env.concat.exitCode != 0 {
      var r := Abort(fs, tempFiles, ConcatFailed(env.concat.exitCode), before, created);
      return Outcome(probed, [args1, args2], None, r);
    }
    var r := Upload(fs, tempFiles, paths.intermediate, env, before, created);
    return Outcome(probed, [args1, args2], Some(paths.intermediate), r);
  }
}
