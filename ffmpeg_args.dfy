/**
 The argument vectors of the two ffmpeg invocations (server.js:283-332 and
 380-419). All four vectors the handler can build put their arguments in the
 same order: inputs, filter graph, stream maps, video codec, audio codec,
 `-shortest`, `-vf`, `-y`, output path. A vector is therefore described by an
 `Invocation` (which inputs, which filter graph, and so on) and `Render` lays
 it out as a sequence of options, switches and the output path; `Flatten`
 spells that out as the array of strings handed to `spawn`. The properties
 then speak of flags and their values rather than of positions in an array
 of arbitrary strings.
 */
module FfmpegArgs {
  import opened Wrappers

  /** The ffmpeg flags the handler uses. */
  datatype Flag =
    | Input | FilterComplex | Map | VideoCodec | Preset | Crf
    | AudioCodec | AudioBitrate | Shortest | VideoFilterFlag | Overwrite

  function FlagName(f: Flag): string
  {
    match f
    case Input => "-i"
    case FilterComplex => "-filter_complex"
    case Map => "-map"
    case VideoCodec => "-c:v"
    case Preset => "-preset"
    case Crf => "-crf"
    case AudioCodec => "-c:a"
    case AudioBitrate => "-b:a"
    case Shortest => "-shortest"
    case VideoFilterFlag => "-vf"
    case Overwrite => "-y"
  }

  datatype Arg = Opt(flag: Flag, value: string) | Switch(flag: Flag) | Output(path: string)

  function Tokens(a: Arg): seq<string>
  {
    match a
    case Opt(f, v) => [FlagName(f), v]
    case Switch(f) => [FlagName(f)]
    case Output(p) => [p]
  }

  /** The string vector passed to `spawn('ffmpeg', ...)`. */
  function Flatten(args: seq<Arg>): seq<string>
  {
    if |args| == 0 then [] else Tokens(args[0]) + Flatten(args[1..])
  }

  /** The value `a` gives to `flag`, if any. */
  function OwnValue(a: Arg, flag: Flag): seq<string>
  {
    if a.Opt? && a.flag == flag then [a.value] else []
  }

  /** The values given to `flag`, in order. */
  function Values(args: seq<Arg>, flag: Flag): seq<string>
  {
    if |args| == 0 then [] else OwnValue(args[0], flag) + Values(args[1..], flag)
  }

  lemma {:induction false} ValuesAppend(a: seq<Arg>, b: seq<Arg>, flag: Flag)
    ensures Values(a + b, flag) == Values(a, flag) + Values(b, flag)
  {
    if |a| > 0 {
      assert (a + b)[1..] == a[1..] + b;
      ValuesAppend(a[1..], b, flag);
    } else {
      assert a + b == b;
    }
  }

  lemma ValuesSingle(a: Arg, flag: Flag)
    ensures Values([a], flag) == OwnValue(a, flag)
  {
    assert [a][1..] == [];
  }

  lemma {:induction false} FlattenAppend(a: seq<Arg>, b: seq<Arg>)
    ensures Flatten(a + b) == Flatten(a) + Flatten(b)
  {
    if |a| > 0 {
      assert (a + b)[1..] == a[1..] + b;
      FlattenAppend(a[1..], b);
    } else {
      assert a + b == b;
    }
  }

  /** One option `flag value` per value, in order (`'-i', a, '-i', b`, ...). */
  function Opts(flag: Flag, values: seq<string>): seq<Arg>
  {
    if |values| == 0 then [] else [Opt(flag, values[0])] + Opts(flag, values[1..])
  }

  /** An `Opts` block gives its flag exactly its values, and no other flag any. */
  lemma {:induction false} ValuesOfOpts(f: Flag, values: seq<string>, flag: Flag)
    ensures Values(Opts(f, values), flag) == if f == flag then values else []
  {
    if |values| > 0 {
      ValuesAppend([Opt(f, values[0])], Opts(f, values[1..]), flag);
      ValuesSingle(Opt(f, values[0]), flag);
      ValuesOfOpts(f, values[1..], flag);
      assert values == [values[0]] + values[1..];
    }
  }

  lemma {:induction false} OptsHaveNoSwitch(f: Flag, values: seq<string>, s: Flag)
    ensures Switch(s) !in Opts(f, values)
  {
    if |values| > 0 {
      OptsHaveNoSwitch(f, values[1..], s);
    }
  }

  /** The two-element input list of the shapes with audio, and of the concatenation. */
  lemma OptsPair(f: Flag, x: string, y: string)
    ensures Opts(f, [x, y]) == [Opt(f, x), Opt(f, y)]
  {
    assert [x, y][1..] == [y];
    assert [y][1..] == [];
    assert Opts(f, [y]) == [Opt(f, y)] + Opts(f, []) == [Opt(f, y)];
  }

  lemma OptsTriple(f: Flag, x: string, y: string, z: string)
    ensures Opts(f, [x, y, z]) == [Opt(f, x), Opt(f, y), Opt(f, z)]
  {
    assert [x, y, z][1..] == [y, z];
    OptsPair(f, y, z);
  }

  function OptionValues(o: Option<string>): seq<string>
  {
    if o.Some? then [o.value] else []
  }

  /** How the audio stream is encoded: not mentioned, `-c:a copy`, or `-c:a aac -b:a 192k`. */
  datatype AudioEncoding = NoAudioArgs | CopyAudio | EncodeAac

  /** What one ffmpeg invocation asks for, in the order its arguments appear. */
  datatype Invocation = Invocation(
    inputs: seq<string>,
    filterComplex: Option<string>,
    maps: seq<string>,
    audio: AudioEncoding,
    shortest: bool,
    videoFilter: Option<string>,
    output: string)

  const VIDEO_CODEC: seq<Arg> := [Opt(VideoCodec, "libx264"), Opt(Preset, "medium"), Opt(Crf, "23")]

  function AudioArgs(e: AudioEncoding): seq<Arg>
  {
    match e
    case NoAudioArgs => []
    case CopyAudio => [Opt(AudioCodec, "copy")]
    case EncodeAac => [Opt(AudioCodec, "aac"), Opt(AudioBitrate, "192k")]
  }

  function OptionalOpt(flag: Flag, o: Option<string>): seq<Arg>
  {
    if o.Some? then [Opt(flag, o.value)] else []
  }

  /** Everything before `-y output`. */
  function RenderOptions(inv: Invocation): seq<Arg>
  {
    Opts(Input, inv.inputs)
      + OptionalOpt(FilterComplex, inv.filterComplex)
      + Opts(Map, inv.maps)
      + VIDEO_CODEC
      + AudioArgs(inv.audio)
      + (if inv.shortest then [Switch(Shortest)] else [])
      + OptionalOpt(VideoFilterFlag, inv.videoFilter)
  }

  function Render(inv: Invocation): seq<Arg>
  {
    RenderOptions(inv) + [Switch(Overwrite), Output(inv.output)]
  }

  /** The values each flag receives in a rendered invocation, read off the invocation. */
  function ExpectedValues(inv: Invocation, flag: Flag): seq<string>
  {
    match flag
    case Input => inv.inputs
    case FilterComplex => OptionValues(inv.filterComplex)
    case Map => inv.maps
    case VideoCodec => ["libx264"]
    case Preset => ["medium"]
    case Crf => ["23"]
    case AudioCodec =>
      (match inv.audio case NoAudioArgs => [] case CopyAudio => ["copy"] case EncodeAac => ["aac"])
    case AudioBitrate => if inv.audio == EncodeAac then ["192k"] else []
    case Shortest => []
    case VideoFilterFlag => OptionValues(inv.videoFilter)
    case Overwrite => []
  }

  lemma ValuesOfOptionalOpt(f: Flag, o: Option<string>, flag: Flag)
    ensures Values(OptionalOpt(f, o), flag) == if f == flag then OptionValues(o) else []
  {
    if o.Some? { ValuesSingle(Opt(f, o.value), flag); }
  }

  lemma ValuesOfVideoCodec(flag: Flag)
    ensures Values(VIDEO_CODEC, flag) ==
      if flag == VideoCodec then ["libx264"] else if flag == Preset then ["medium"] else if flag == Crf then ["23"] else []
  {
    assert VIDEO_CODEC == [Opt(VideoCodec, "libx264")] + ([Opt(Preset, "medium")] + [Opt(Crf, "23")]);
    ValuesAppend([Opt(VideoCodec, "libx264")], [Opt(Preset, "medium")] + [Opt(Crf, "23")], flag);
    ValuesAppend([Opt(Preset, "medium")], [Opt(Crf, "23")], flag);
    ValuesSingle(Opt(VideoCodec, "libx264"), flag);
    ValuesSingle(Opt(Preset, "medium"), flag);
    ValuesSingle(Opt(Crf, "23"), flag);
  }

  function AudioValues(e: AudioEncoding, flag: Flag): seq<string>
  {
    match e
    case NoAudioArgs => []
    case CopyAudio => if flag == AudioCodec then ["copy"] else []
    case EncodeAac => if flag == AudioCodec then ["aac"] else if flag == AudioBitrate then ["192k"] else []
  }

  lemma ValuesOfAudioArgs(e: AudioEncoding, flag: Flag)
    ensures Values(AudioArgs(e), flag) == AudioValues(e, flag)
  {
    match e
    case NoAudioArgs =>
    case CopyAudio => ValuesSingle(Opt(AudioCodec, "copy"), flag);
    case EncodeAac =>
      assert AudioArgs(e) == [Opt(AudioCodec, "aac")] + [Opt(AudioBitrate, "192k")];
      ValuesAppend([Opt(AudioCodec, "aac")], [Opt(AudioBitrate, "192k")], flag);
      ValuesSingle(Opt(AudioCodec, "aac"), flag);
      ValuesSingle(Opt(AudioBitrate, "192k"), flag);
  }

  lemma ValuesOfSwitches(inv: Invocation, flag: Flag)
    ensures Values(if inv.shortest then [Switch(Shortest)] else [], flag) == []
    ensures Values([Switch(Overwrite), Output(inv.output)], flag) == []
  {
    ValuesSingle(Switch(Shortest), flag);
    assert [Switch(Overwrite), Output(inv.output)] == [Switch(Overwrite)] + [Output(inv.output)];
    ValuesAppend([Switch(Overwrite)], [Output(inv.output)], flag);
    ValuesSingle(Switch(Overwrite), flag);
    ValuesSingle(Output(inv.output), flag);
  }

  /** The values of a rendered invocation are those of its segments, in order. */
  lemma RenderSegments(inv: Invocation, flag: Flag)
    ensures Values(Render(inv), flag) ==
      Values(Opts(Input, inv.inputs), flag)
      + Values(OptionalOpt(FilterComplex, inv.filterComplex), flag)
      + Values(Opts(Map, inv.maps), flag)
      + Values(VIDEO_CODEC, flag)
      + Values(AudioArgs(inv.audio), flag)
      + Values(if inv.shortest then [Switch(Shortest)] else [], flag)
      + Values(OptionalOpt(VideoFilterFlag, inv.videoFilter), flag)
      + Values([Switch(Overwrite), Output(inv.output)], flag)
  {
    var a := Opts(Input, inv.inputs);
    var b := OptionalOpt(FilterComplex, inv.filterComplex);
    var c := Opts(Map, inv.maps);
    var d := VIDEO_CODEC;
    var e := AudioArgs(inv.audio);
    var f: seq<Arg> := if inv.shortest then [Switch(Shortest)] else [];
    var g := OptionalOpt(VideoFilterFlag, inv.videoFilter);
    var h := [Switch(Overwrite), Output(inv.output)];
    assert Render(inv) == a + b + c + d + e + f + g + h;
    ValuesAppend(a + b + c + d + e + f + g, h, flag);
    ValuesAppend(a + b + c + d + e + f, g, flag);
    ValuesAppend(a + b + c + d + e, f, flag);
    ValuesAppend(a + b + c + d, e, flag);
    ValuesAppend(a + b + c, d, flag);
    ValuesAppend(a + b, c, flag);
    ValuesAppend(a, b, flag);
  }

  /** The segments' values add up to the values the invocation asks for. */
  lemma SegmentValues(inv: Invocation, flag: Flag)
    ensures Values(Opts(Input, inv.inputs), flag)
      + Values(OptionalOpt(FilterComplex, inv.filterComplex), flag)
      + Values(Opts(Map, inv.maps), flag)
      + Values(VIDEO_CODEC, flag)
      + Values(AudioArgs(inv.audio), flag)
      + Values(if inv.shortest then [Switch(Shortest)] else [], flag)
      + Values(OptionalOpt(VideoFilterFlag, inv.videoFilter), flag)
      + Values([Switch(Overwrite), Output(inv.output)], flag)
      == ExpectedValues(inv, flag)
  {
    ValuesOfOpts(Input, inv.inputs, flag);
    ValuesOfOptionalOpt(FilterComplex, inv.filterComplex, flag);
    ValuesOfOpts(Map, inv.maps, flag);
    ValuesOfVideoCodec(flag);
    ValuesOfAudioArgs(inv.audio, flag);
    ValuesOfSwitches(inv, flag);
    ValuesOfOptionalOpt(VideoFilterFlag, inv.videoFilter, flag);
    AddUp(inv, flag,
      Values(Opts(Input, inv.inputs), flag),
      Values(OptionalOpt(FilterComplex, inv.filterComplex), flag),
      Values(Opts(Map, inv.maps), flag),
      Values(VIDEO_CODEC, flag),
      Values(AudioArgs(inv.audio), flag),
      Values(if inv.shortest then [Switch(Shortest)] else [], flag),
      Values(OptionalOpt(VideoFilterFlag, inv.videoFilter), flag),
      Values([Switch(Overwrite), Output(inv.output)], flag));
  }

  lemma AddUp(inv: Invocation, flag: Flag, a: seq<string>, b: seq<string>, c: seq<string>, d: seq<string>,
              e: seq<string>, f: seq<string>, g: seq<string>, h: seq<string>)
    requires a == (if flag == Input then inv.inputs else [])
    requires b == (if flag == FilterComplex then OptionValues(inv.filterComplex) else [])
    requires c == (if flag == Map then inv.maps else [])
    requires d == (if flag == VideoCodec then ["libx264"] else if flag == Preset then ["medium"] else if flag == Crf then ["23"] else [])
    requires e == AudioValues(inv.audio, flag)
    requires f == [] && h == []
    requires g == (if flag == VideoFilterFlag then OptionValues(inv.videoFilter) else [])
    ensures a + b + c + d + e + f + g + h == ExpectedValues(inv, flag)
  {
    var none: seq<string> := [];
    match flag
    case Input => assert a + b + c + d + e + f + g + h == inv.inputs + none + none + none + none + none + none + none;
    case FilterComplex => assert a + b + c + d + e + f + g + h == none + b + none + none + none + none + none + none;
    case Map => assert a + b + c + d + e + f + g + h == none + none + inv.maps + none + none + none + none + none;
    case VideoCodec => assert a + b + c + d + e + f + g + h == none + none + none + d + none + none + none + none;
    case Preset => assert a + b + c + d + e + f + g + h == none + none + none + d + none + none + none + none;
    case Crf => assert a + b + c + d + e + f + g + h == none + none + none + d + none + none + none + none;
    case AudioCodec => assert a + b + c + d + e + f + g + h == none + none + none + none + e + none + none + none;
    case AudioBitrate => assert a + b + c + d + e + f + g + h == none + none + none + none + e + none + none + none;
    case Shortest =>
    case VideoFilterFlag => assert a + b + c + d + e + f + g + h == none + none + none + none + none + none + g + none;
    case Overwrite =>
  }

  /**
   Reading a rendered invocation back: every flag receives exactly the values
   the invocation asks for, in order, and nothing else.
   */
  lemma RenderValues(inv: Invocation, flag: Flag)
    ensures Values(Render(inv), flag) == ExpectedValues(inv, flag)
  {
    RenderSegments(inv, flag);
    SegmentValues(inv, flag);
  }

  /** `-shortest` appears in a rendered invocation exactly when the invocation asks for it. */
  lemma RenderShortest(inv: Invocation)
    ensures Switch(Shortest) in Render(inv) <==> inv.shortest
  {
    OptsHaveNoSwitch(Input, inv.inputs, Shortest);
    OptsHaveNoSwitch(Map, inv.maps, Shortest);
    var rest := OptionalOpt(FilterComplex, inv.filterComplex) + VIDEO_CODEC + AudioArgs(inv.audio)
      + OptionalOpt(VideoFilterFlag, inv.videoFilter) + [Switch(Overwrite), Output(inv.output)];
    assert forall i | 0 <= i < |rest| :: rest[i] != Switch(Shortest);
  }

  /** The spawned vector ends with `-y` and the invocation's output path. */
  lemma RenderEndsWithOutput(inv: Invocation)
    ensures var v := Flatten(Render(inv));
      |v| >= 2 && v[|v| - 2] == "-y" && v[|v| - 1] == inv.output
  {
    var tail := [Switch(Overwrite), Output(inv.output)];
    FlattenAppend(RenderOptions(inv), tail);
    assert tail[1..] == [Output(inv.output)];
    assert [Output(inv.output)][1..] == [];
    assert Flatten([Output(inv.output)]) == Tokens(Output(inv.output)) + Flatten([]) == [inv.output];
    assert Flatten(tail) == Tokens(Switch(Overwrite)) + Flatten([Output(inv.output)]) == ["-y", inv.output];
  }

  // ---------------------------------------------------------------------------
  // Stage 1: scale, pad, burn in the caption, and mux the audio

  const SCALE_PAD: string :=
    "scale=720:1280:force_original_aspect_ratio=decrease,pad=720:1280:(ow-iw)/2:(oh-ih)/2,setsar=1:1"

  /** The `-vf` chain: scale and pad to 720x1280, then the caption filters. */
  function VideoFilter(textStyle: string): string
  {
    SCALE_PAD + "," + textStyle
  }

  /** The three shapes of the first transcode. */
  datatype Stage1Shape =
    | VideoOnly
    | TrimmedAudio(audio: string, duration: real)
    | ShortestAudio(audio: string)

  /** `if (audioFilePath) { if (videoDuration) ... else ... } else ...`. */
  function SelectStage1Shape(audio: Option<string>, duration: Option<real>): (shape: Stage1Shape)
    ensures audio.None? <==> shape.VideoOnly?
    ensures shape.TrimmedAudio? <==> audio.Some? && duration.Some?
    ensures shape.TrimmedAudio? ==> shape == TrimmedAudio(audio.value, duration.value)
    ensures shape.ShortestAudio? ==> shape == ShortestAudio(audio.value) && duration.None?
  {
    match audio
    case None => VideoOnly
    case Some(a) =>
      match duration
      case Some(d) => TrimmedAudio(a, d)
      case None => ShortestAudio(a)
  }

  /** The audio filter of the trimmed shape; `fmt` renders a number as JavaScript does. */
  function Stage1AudioFilter(duration: real, fmt: real -> string): string
  {
    "[1:a]atrim=0:" + fmt(duration) + ",asetpts=PTS-STARTPTS[a]"
  }

  /** The three argument literals of the first transcode, as invocations. */
  function Stage1Invocation(shape: Stage1Shape, video: string, textStyle: string, output: string,
                            fmt: real -> string): Invocation
  {
    match shape
    case VideoOnly =>
      Invocation([video], None, [], CopyAudio, false, Some(VideoFilter(textStyle)), output)
    case TrimmedAudio(a, d) =>
      Invocation([video, a], Some(Stage1AudioFilter(d, fmt)), ["0:v", "[a]"], EncodeAac, false,
                 Some(VideoFilter(textStyle)), output)
    case ShortestAudio(a) =>
      Invocation([video, a], None, ["0:v", "1:a"], EncodeAac, true, Some(VideoFilter(textStyle)), output)
  }

  function Stage1Args(shape: Stage1Shape, video: string, textStyle: string, output: string,
                      fmt: real -> string): seq<Arg>
  {
    Render(Stage1Invocation(shape, video, textStyle, output, fmt))
  }

  /**
   In every shape the output path is the last string, after `-y`; `-vf` is
   given once, as the scale/pad/setsar prefix followed by the caption filters;
   the video is encoded with libx264 at CRF 23.
   */
  lemma Stage1ArgsCommon(shape: Stage1Shape, video: string, textStyle: string, output: string, fmt: real -> string)
    ensures var v := Flatten(Stage1Args(shape, video, textStyle, output, fmt));
      |v| >= 2 && v[|v| - 2] == "-y" && v[|v| - 1] == output
    ensures Values(Stage1Args(shape, video, textStyle, output, fmt), VideoFilterFlag) == [SCALE_PAD + "," + textStyle]
    ensures Values(Stage1Args(shape, video, textStyle, output, fmt), VideoCodec) == ["libx264"]
    ensures Values(Stage1Args(shape, video, textStyle, output, fmt), Crf) == ["23"]
    ensures Values(Stage1Args(shape, video, textStyle, output, fmt), Input)[0] == video
  {
    var inv := Stage1Invocation(shape, video, textStyle, output, fmt);
    RenderEndsWithOutput(inv);
    RenderValues(inv, VideoFilterFlag);
    RenderValues(inv, VideoCodec);
    RenderValues(inv, Crf);
    RenderValues(inv, Input);
  }

  /** Without audio: a single input, the audio stream copied, no mapping, no filter graph, no `-shortest`. */
  lemma Stage1VideoOnly(video: string, textStyle: string, output: string, fmt: real -> string)
    ensures Values(Stage1Args(VideoOnly, video, textStyle, output, fmt), Input) == [video]
    ensures Values(Stage1Args(VideoOnly, video, textStyle, output, fmt), AudioCodec) == ["copy"]
    ensures Values(Stage1Args(VideoOnly, video, textStyle, output, fmt), Map) == []
    ensures Values(Stage1Args(VideoOnly, video, textStyle, output, fmt), FilterComplex) == []
    ensures Switch(Shortest) !in Stage1Args(VideoOnly, video, textStyle, output, fmt)
  {
    var inv := Stage1Invocation(VideoOnly, video, textStyle, output, fmt);
    RenderValues(inv, Input);
    RenderValues(inv, AudioCodec);
    RenderValues(inv, Map);
    RenderValues(inv, FilterComplex);
    RenderShortest(inv);
  }

  /**
   Audio with a duration d: the second input is trimmed to d by `atrim=0:d`,
   the video of input 0 and the trimmed `[a]` are mapped, the audio is
   encoded as AAC, and there is no `-shortest`.
   */
  lemma Stage1TrimmedAudio(audio: string, d: real, video: string, textStyle: string, output: string, fmt: real -> string)
    ensures Values(Stage1Args(TrimmedAudio(audio, d), video, textStyle, output, fmt), Input) == [video, audio]
    ensures Values(Stage1Args(TrimmedAudio(audio, d), video, textStyle, output, fmt), FilterComplex)
      == ["[1:a]atrim=0:" + fmt(d) + ",asetpts=PTS-STARTPTS[a]"]
    ensures Values(Stage1Args(TrimmedAudio(audio, d), video, textStyle, output, fmt), Map) == ["0:v", "[a]"]
    ensures Values(Stage1Args(TrimmedAudio(audio, d), video, textStyle, output, fmt), AudioCodec) == ["aac"]
    ensures Values(Stage1Args(TrimmedAudio(audio, d), video, textStyle, output, fmt), AudioBitrate) == ["192k"]
    ensures Switch(Shortest) !in Stage1Args(TrimmedAudio(audio, d), video, textStyle, output, fmt)
  {
    var inv := Stage1Invocation(TrimmedAudio(audio, d), video, textStyle, output, fmt);
    RenderValues(inv, AudioBitrate);
    RenderValues(inv, Input);
    RenderValues(inv, FilterComplex);
    RenderValues(inv, Map);
    RenderValues(inv, AudioCodec);
    RenderShortest(inv);
  }

  /** Audio without a usable duration: the streams `0:v` and `1:a` are mapped and `-shortest` ends the output. */
  lemma Stage1ShortestAudio(audio: string, video: string, textStyle: string, output: string, fmt: real -> string)
    ensures Values(Stage1Args(ShortestAudio(audio), video, textStyle, output, fmt), Input) == [video, audio]
    ensures Values(Stage1Args(ShortestAudio(audio), video, textStyle, output, fmt), FilterComplex) == []
    ensures Values(Stage1Args(ShortestAudio(audio), video, textStyle, output, fmt), Map) == ["0:v", "1:a"]
    ensures Values(Stage1Args(ShortestAudio(audio), video, textStyle, output, fmt), AudioCodec) == ["aac"]
    ensures Values(Stage1Args(ShortestAudio(audio), video, textStyle, output, fmt), AudioBitrate) == ["192k"]
    ensures Switch(Shortest) in Stage1Args(ShortestAudio(audio), video, textStyle, output, fmt)
  {
    var inv := Stage1Invocation(ShortestAudio(audio), video, textStyle, output, fmt);
    RenderValues(inv, AudioBitrate);
    RenderValues(inv, Input);
    RenderValues(inv, FilterComplex);
    RenderValues(inv, Map);
    RenderValues(inv, AudioCodec);
    RenderShortest(inv);
  }

  /** The exact string vector of the video-only shape, as spawned. */
  lemma Stage1VideoOnlyVector(video: string, textStyle: string, output: string, fmt: real -> string)
    ensures Flatten(Stage1Args(VideoOnly, video, textStyle, output, fmt)) ==
      ["-i", video, "-c:v", "libx264", "-preset", "medium", "-crf", "23", "-c:a", "copy",
       "-vf", SCALE_PAD + "," + textStyle, "-y", output]
  {
    var inv := Stage1Invocation(VideoOnly, video, textStyle, output, fmt);
    assert [video][1..] == [];
    assert Opts(Input, [video]) == [Opt(Input, video)] + Opts(Input, []) == [Opt(Input, video)];
    var a, b, c := [Opt(Input, video)], VIDEO_CODEC, [Opt(AudioCodec, "copy")];
    var d, e := [Opt(VideoFilterFlag, VideoFilter(textStyle))], [Switch(Overwrite), Output(output)];
    assert Render(inv) == a + b + c + d + e;
    FlattenAppend(a + b + c + d, e);
    FlattenAppend(a + b + c, d);
    FlattenAppend(a + b, c);
    FlattenAppend(a, b);
    FlattenPieces(video, textStyle, output);
  }

  /** `Flatten` of the pieces of a vector, each a short literal. */
  lemma FlattenPieces(video: string, textStyle: string, output: string)
    ensures Flatten([Opt(Input, video)]) == ["-i", video]
    ensures Flatten(VIDEO_CODEC) == ["-c:v", "libx264", "-preset", "medium", "-crf", "23"]
    ensures Flatten([Opt(AudioCodec, "copy")]) == ["-c:a", "copy"]
    ensures Flatten([Opt(VideoFilterFlag, VideoFilter(textStyle))]) == ["-vf", SCALE_PAD + "," + textStyle]
    ensures Flatten([Switch(Overwrite), Output(output)]) == ["-y", output]
  {
    FlattenSingle(Opt(Input, video));
    FlattenSingle(Opt(AudioCodec, "copy"));
    FlattenSingle(Opt(VideoFilterFlag, VideoFilter(textStyle)));
    FlattenSingle(Output(output));
    FlattenSingle(Switch(Overwrite));
    FlattenAppend([Switch(Overwrite)], [Output(output)]);
    assert [Switch(Overwrite), Output(output)] == [Switch(Overwrite)] + [Output(output)];
    FlattenSingle(Opt(VideoCodec, "libx264"));
    FlattenSingle(Opt(Preset, "medium"));
    FlattenSingle(Opt(Crf, "23"));
    assert VIDEO_CODEC == [Opt(VideoCodec, "libx264")] + ([Opt(Preset, "medium")] + [Opt(Crf, "23")]);
    FlattenAppend([Opt(VideoCodec, "libx264")], [Opt(Preset, "medium")] + [Opt(Crf, "23")]);
    FlattenAppend([Opt(Preset, "medium")], [Opt(Crf, "23")]);
  }

  lemma FlattenSingle(a: Arg)
    ensures Flatten([a]) == Tokens(a)
  {
    assert [a][1..] == [];
  }

  /** The strings of an option: the flag's name, then the value. */
  lemma FlattenOpt(f: Flag, x: string)
    ensures Flatten([Opt(f, x)]) == [FlagName(f), x]
  {
    FlattenSingle(Opt(f, x));
  }

  /** The strings of an optional option: the flag and the value, or nothing. */
  lemma FlattenOptionalOpt(f: Flag, o: Option<string>)
    ensures Flatten(OptionalOpt(f, o)) == if o.Some? then [FlagName(f), o.value] else []
  {
    if o.Some? {
      FlattenOpt(f, o.value);
    }
  }

  /** The strings of two options of one flag. */
  lemma FlattenOptsPair(f: Flag, x: string, y: string)
    ensures Flatten(Opts(f, [x, y])) == [FlagName(f), x, FlagName(f), y]
  {
    OptsPair(f, x, y);
    assert [Opt(f, x), Opt(f, y)] == [Opt(f, x)] + [Opt(f, y)];
    FlattenAppend([Opt(f, x)], [Opt(f, y)]);
    FlattenOpt(f, x);
    FlattenOpt(f, y);
  }

  /** The strings of three options of one flag. */
  lemma FlattenOptsTriple(f: Flag, x: string, y: string, z: string)
    ensures Flatten(Opts(f, [x, y, z])) == [FlagName(f), x, FlagName(f), y, FlagName(f), z]
  {
    OptsTriple(f, x, y, z);
    OptsPair(f, x, y);
    assert [Opt(f, x), Opt(f, y), Opt(f, z)] == Opts(f, [x, y]) + [Opt(f, z)];
    FlattenAppend(Opts(f, [x, y]), [Opt(f, z)]);
    FlattenOptsPair(f, x, y);
    FlattenOpt(f, z);
  }

  /** The strings of each audio encoding. */
  lemma FlattenAudioArgs(e: AudioEncoding)
    ensures Flatten(AudioArgs(e)) ==
      match e
      case NoAudioArgs => []
      case CopyAudio => ["-c:a", "copy"]
      case EncodeAac => ["-c:a", "aac", "-b:a", "192k"]
  {
    match e
    case NoAudioArgs =>
    case CopyAudio => FlattenOpt(AudioCodec, "copy");
    case EncodeAac =>
      assert AudioArgs(e) == [Opt(AudioCodec, "aac")] + [Opt(AudioBitrate, "192k")];
      FlattenAppend([Opt(AudioCodec, "aac")], [Opt(AudioBitrate, "192k")]);
      FlattenOpt(AudioCodec, "aac");
      FlattenOpt(AudioBitrate, "192k");
  }

  /** The string vector of an invocation, segment by segment in the order `Render` lays them out. */
  lemma FlattenRender(inv: Invocation)
    ensures Flatten(Render(inv)) ==
      Flatten(Opts(Input, inv.inputs))
      + Flatten(OptionalOpt(FilterComplex, inv.filterComplex))
      + Flatten(Opts(Map, inv.maps))
      + ["-c:v", "libx264", "-preset", "medium", "-crf", "23"]
      + Flatten(AudioArgs(inv.audio))
      + (if inv.shortest then ["-shortest"] else [])
      + Flatten(OptionalOpt(VideoFilterFlag, inv.videoFilter))
      + ["-y", inv.output]
  {
    var a, b, c := Opts(Input, inv.inputs), OptionalOpt(FilterComplex, inv.filterComplex), Opts(Map, inv.maps);
    var d, e := VIDEO_CODEC, AudioArgs(inv.audio);
    var f: seq<Arg> := if inv.shortest then [Switch(Shortest)] else [];
    var g, h := OptionalOpt(VideoFilterFlag, inv.videoFilter), [Switch(Overwrite), Output(inv.output)];
    assert Render(inv) == a + b + c + d + e + f + g + h;
    FlattenAppend(a + b + c + d + e + f + g, h);
    FlattenAppend(a + b + c + d + e + f, g);
    FlattenAppend(a + b + c + d + e, f);
    FlattenAppend(a + b + c + d, e);
    FlattenAppend(a + b + c, d);
    FlattenAppend(a + b, c);
    FlattenAppend(a, b);
    FlattenPieces("", "", inv.output);
    if inv.shortest {
      FlattenSingle(Switch(Shortest));
    }
  }

  /** `FlattenRender` with each segment's strings given by the caller. */
  lemma FlattenRenderAs(inv: Invocation, a: seq<string>, b: seq<string>, c: seq<string>, e: seq<string>,
                        f: seq<string>, g: seq<string>)
    requires a == Flatten(Opts(Input, inv.inputs))
    requires b == Flatten(OptionalOpt(FilterComplex, inv.filterComplex))
    requires c == Flatten(Opts(Map, inv.maps))
    requires e == Flatten(AudioArgs(inv.audio))
    requires f == if inv.shortest then ["-shortest"] else []
    requires g == Flatten(OptionalOpt(VideoFilterFlag, inv.videoFilter))
    ensures Flatten(Render(inv)) ==
      a + b + c + ["-c:v", "libx264", "-preset", "medium", "-crf", "23"] + e + f + g + ["-y", inv.output]
  {
    FlattenRender(inv);
  }

  /** The exact string vector of the trimmed-audio shape, as spawned, grouped as the literal lists it. */
  lemma Stage1TrimmedAudioVector(audio: string, d: real, video: string, textStyle: string, output: string,
                                 fmt: real -> string)
    ensures Flatten(Stage1Args(TrimmedAudio(audio, d), video, textStyle, output, fmt)) ==
      ["-i", video, "-i", audio]
      + ["-filter_complex", "[1:a]atrim=0:" + fmt(d) + ",asetpts=PTS-STARTPTS[a]"]
      + ["-map", "0:v", "-map", "[a]"]
      + ["-c:v", "libx264", "-preset", "medium", "-crf", "23"]
      + ["-c:a", "aac", "-b:a", "192k"]
      + ["-vf", SCALE_PAD + "," + textStyle]
      + ["-y", output]
  {
    var inv := Stage1Invocation(TrimmedAudio(audio, d), video, textStyle, output, fmt);
    FlattenOptsPair(Input, video, audio);
    FlattenOptionalOpt(FilterComplex, inv.filterComplex);
    FlattenOptsPair(Map, "0:v", "[a]");
    FlattenAudioArgs(EncodeAac);
    FlattenOptionalOpt(VideoFilterFlag, inv.videoFilter);
    FlattenRenderAs(inv, ["-i", video, "-i", audio],
      ["-filter_complex", "[1:a]atrim=0:" + fmt(d) + ",asetpts=PTS-STARTPTS[a]"],
      ["-map", "0:v", "-map", "[a]"], ["-c:a", "aac", "-b:a", "192k"], [],
      ["-vf", SCALE_PAD + "," + textStyle]);
  }

  /** The exact string vector of the `-shortest` shape, as spawned, grouped as the literal lists it. */
  lemma Stage1ShortestAudioVector(audio: string, video: string, textStyle: string, output: string,
                                  fmt: real -> string)
    ensures Flatten(Stage1Args(ShortestAudio(audio), video, textStyle, output, fmt)) ==
      ["-i", video, "-i", audio]
      + ["-map", "0:v", "-map", "1:a"]
      + ["-c:v", "libx264", "-preset", "medium", "-crf", "23"]
      + ["-c:a", "aac", "-b:a", "192k"]
      + ["-shortest"]
      + ["-vf", SCALE_PAD + "," + textStyle]
      + ["-y", output]
  {
    var inv := Stage1Invocation(ShortestAudio(audio), video, textStyle, output, fmt);
    FlattenOptsPair(Input, video, audio);
    FlattenOptsPair(Map, "0:v", "1:a");
    FlattenAudioArgs(EncodeAac);
    FlattenOptionalOpt(FilterComplex, inv.filterComplex);
    FlattenOptionalOpt(VideoFilterFlag, inv.videoFilter);
    FlattenRenderAs(inv, ["-i", video, "-i", audio], [], ["-map", "0:v", "-map", "1:a"],
      ["-c:a", "aac", "-b:a", "192k"], ["-shortest"], ["-vf", SCALE_PAD + "," + textStyle]);
  }

  // ---------------------------------------------------------------------------
  // Stage 2: append the demo clip, and re-mux the original audio

  const CONCAT_VIDEO_FILTER: string :=
    "[0:v:0]scale=720:1280:force_original_aspect_ratio=decrease,pad=720:1280:(ow-iw)/2:(oh-ih)/2,setsar=1:1[v0scaled];" +
    "[1:v:0]scale=720:1280:force_original_aspect_ratio=decrease,pad=720:1280:(ow-iw)/2:(oh-ih)/2,setsar=1:1,settb=AVTB,fps=30[v1scaled];" +
    "[v0scaled][v1scaled]concat=n=2:v=1:a=0,fps=30,format=yuv420p[outv]"

  /** The audio filter of the concatenation, trimming the original audio (input 2) to `total`. */
  function ConcatAudioFilter(total: real, fmt: real -> string): string
  {
    "[2:a:0]atrim=0:" + fmt(total) + ",asetpts=PTS-STARTPTS[outa]"
  }

  /** The concatenation as an invocation: the audio parts are there only when audio was supplied. */
  function ConcatInvocation(output: string, demo: string, audio: Option<string>, total: real,
                            intermediate: string, fmt: real -> string): Invocation
  {
    match audio
    case None =>
      Invocation([output, demo], Some(CONCAT_VIDEO_FILTER), ["[outv]"], NoAudioArgs, false, None, intermediate)
    case Some(a) =>
      Invocation([output, demo, a], Some(CONCAT_VIDEO_FILTER + ";" + ConcatAudioFilter(total, fmt)),
                 ["[outv]", "[outa]"], EncodeAac, false, None, intermediate)
  }

  function ConcatArgs(output: string, demo: string, audio: Option<string>, total: real,
                      intermediate: string, fmt: real -> string): seq<Arg>
  {
    Render(ConcatInvocation(output, demo, audio, total, intermediate, fmt))
  }

  /**
   The concatenation arguments as the handler assembles them: the input and
   map arrays get their audio entries pushed, and the audio codec arguments
   are set, only when background audio was supplied; the filter graph gets
   `;` and the audio filter only when that filter is non-empty.
   */
  method BuildConcatArgs(output: string, demo: string, audio: Option<string>, totalDuration: real,
                         intermediate: string, fmt: real -> string) returns (args: seq<Arg>)
    ensures args == ConcatArgs(output, demo, audio, totalDuration, intermediate, fmt)
  {
    var inputArgs := [Opt(Input, output), Opt(Input, demo)];
    var audioProcessingFilter := "";
    var mapArgs := [Opt(Map, "[outv]")];
    var codecVideoArgs := [Opt(VideoCodec, "libx264"), Opt(Preset, "medium"), Opt(Crf, "23")];
    var codecAudioArgs: seq<Arg> := [];
    if audio.Some? {
      inputArgs := inputArgs + [Opt(Input, audio.value)];
      audioProcessingFilter := ConcatAudioFilter(totalDuration, fmt);
      mapArgs := mapArgs + [Opt(Map, "[outa]")];
      codecAudioArgs := [Opt(AudioCodec, "aac"), Opt(AudioBitrate, "192k")];
    }
    var filterComplex := CONCAT_VIDEO_FILTER;
    if |audioProcessingFilter| > 0 {
      filterComplex := filterComplex + ";" + audioProcessingFilter;
    }
    args := inputArgs + [Opt(FilterComplex, filterComplex)] + mapArgs + codecVideoArgs + codecAudioArgs
      + [Switch(Overwrite), Output(intermediate)];
    if audio.Some? {
      OptsTriple(Input, output, demo, audio.value);
      OptsPair(Map, "[outv]", "[outa]");
    } else {
      OptsPair(Input, output, demo);
      assert ["[outv]"][1..] == [];
    }
  }

  /**
   The audio input, the audio part of the filter graph, the `[outa]` map and
   the AAC codec arguments are present exactly when audio was supplied; the
   audio is trimmed to `total`; the last string is the intermediate path.
   */
  lemma ConcatArgsShape(output: string, demo: string, audio: Option<string>, total: real,
                        intermediate: string, fmt: real -> string)
    ensures var v := Flatten(ConcatArgs(output, demo, audio, total, intermediate, fmt));
      |v| >= 2 && v[|v| - 2] == "-y" && v[|v| - 1] == intermediate
    ensures Values(ConcatArgs(output, demo, audio, total, intermediate, fmt), Input)
      == [output, demo] + (if audio.Some? then [audio.value] else [])
    ensures Values(ConcatArgs(output, demo, audio, total, intermediate, fmt), FilterComplex)
      == [if audio.Some? then CONCAT_VIDEO_FILTER + ";" + ConcatAudioFilter(total, fmt) else CONCAT_VIDEO_FILTER]
    ensures Values(ConcatArgs(output, demo, audio, total, intermediate, fmt), Map)
      == ["[outv]"] + (if audio.Some? then ["[outa]"] else [])
    ensures Values(ConcatArgs(output, demo, audio, total, intermediate, fmt), AudioCodec)
      == (if audio.Some? then ["aac"] else [])
    ensures Values(ConcatArgs(output, demo, audio, total, intermediate, fmt), AudioBitrate)
      == (if audio.Some? then ["192k"] else [])
    ensures Values(ConcatArgs(output, demo, audio, total, intermediate, fmt), VideoFilterFlag) == []
  {
    var inv := ConcatInvocation(output, demo, audio, total, intermediate, fmt);
    RenderEndsWithOutput(inv);
    RenderValues(inv, Input);
    RenderValues(inv, FilterComplex);
    RenderValues(inv, Map);
    RenderValues(inv, AudioCodec);
    RenderValues(inv, AudioBitrate);
    RenderValues(inv, VideoFilterFlag);
  }

  /**
   The exact string vector of the concatenation, as spawned: the input
   arguments, the filter graph, the map arguments, the video codec
   arguments, the audio codec arguments, then `-y` and the intermediate path;
   the audio parts are there exactly when audio was supplied.
   */
  lemma ConcatVector(output: string, demo: string, audio: Option<string>, total: real,
                     intermediate: string, fmt: real -> string)
    ensures Flatten(ConcatArgs(output, demo, audio, total, intermediate, fmt)) ==
      (["-i", output, "-i", demo] + (if audio.Some? then ["-i", audio.value] else []))
      + ["-filter_complex",
         if audio.Some? then CONCAT_VIDEO_FILTER + ";" + ConcatAudioFilter(total, fmt) else CONCAT_VIDEO_FILTER]
      + (["-map", "[outv]"] + (if audio.Some? then ["-map", "[outa]"] else []))
      + ["-c:v", "libx264", "-preset", "medium", "-crf", "23"]
      + (if audio.Some? then ["-c:a", "aac", "-b:a", "192k"] else [])
      + ["-y", intermediate]
  {
    var inv := ConcatInvocation(output, demo, audio, total, intermediate, fmt);
    var fc := if audio.Some? then CONCAT_VIDEO_FILTER + ";" + ConcatAudioFilter(total, fmt) else CONCAT_VIDEO_FILTER;
    var ins := ["-i", output, "-i", demo] + (if audio.Some? then ["-i", audio.value] else []);
    var maps := ["-map", "[outv]"] + (if audio.Some? then ["-map", "[outa]"] else []);
    var aud: seq<string> := if audio.Some? then ["-c:a", "aac", "-b:a", "192k"] else [];
    FlattenOptionalOpt(FilterComplex, inv.filterComplex);
    FlattenOptionalOpt(VideoFilterFlag, inv.videoFilter);
    FlattenAudioArgs(inv.audio);
    if audio.Some? {
      FlattenOptsTriple(Input, output, demo, audio.value);
      FlattenOptsPair(Map, "[outv]", "[outa]");
    } else {
      FlattenOptsPair(Input, output, demo);
      assert ["[outv]"][1..] == [];
      assert Opts(Map, ["[outv]"]) == [Opt(Map, "[outv]")];
      FlattenOpt(Map, "[outv]");
    }
    assert Flatten(Opts(Input, inv.inputs)) == ins;
    assert Flatten(Opts(Map, inv.maps)) == maps;
    FlattenRenderAs(inv, ins, ["-filter_complex", fc], maps, aud, [], []);
  }
}
