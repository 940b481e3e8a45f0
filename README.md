# UGC video processing endpoint — a verified model

`server.js` is an Express server with one endpoint, `POST /api/ugc/process-video`.
The endpoint:

1. takes a video (an upload or a Cloudinary URL), optional background audio,
   an optional demo clip, and a caption (`hookText`) with its position;
2. burns the caption into the video with ffmpeg `drawtext` filters, mixing
   in the audio;
3. when a demo clip is given, appends it in a second ffmpeg run;
4. uploads the result to Cloudinary and returns its URL.

Each temp file is registered in `tempFiles` once it is written. Every exit
after the first file is written deletes them all. The 400 answer for a
missing video source comes earlier, when nothing has been written, and it
deletes nothing.

This project models the deterministic core of that handler in Dafny and
proves what it promises:

- `Text`: `split(' ')` and `join`, with their round trips.
- `Caption`: the caption layout.
  - The quote escape, and its inverse.
  - The anchor switches.
  - The greedy word wrap: a loop, proved against a fold.
  - The per-line `drawtext` plan and its y expressions.
- `Probing`: the two ways a duration probe is read.
  - `getVideoDuration` rejects a non-zero exit or NaN.
  - The inline probe is read through JavaScript truthiness.
- `FfmpegArgs`: ffmpeg argument vectors.
  - A vector is a list of flagged arguments (`Opt`, `Switch`, `Output`).
  - `Flatten` gives the exact strings.
  - `Values(args, flag)` reads back the values given to one flag.
  - Covers the three stage-1 shapes and the concatenation vector. The
    concatenation vector is built by `push` in a method, proved equal to
    its specification.
- `TempFiles`: a `FileSystem` class with the set of existing paths,
  `deleteTempFile`, and the cleanup loop over `tempFiles`.
- `Handler`: the handler as step methods over the file system.
  - Fetch the inputs.
  - Lay out the caption.
  - Stage 1.
  - Duration probes and concatenation.
  - Upload.
  - Each method is proved to produce the outcome of a specification
    function `Run`, and to leave the file system as it found it, minus
    nothing and plus only the created files whose `unlink` fails.
- `Sequencing`: lemmas over `Run`.
  - Which ffmpeg runs happen, and with which arguments.
  - When the upload happens, and which file it uploads.
  - Which response follows.

The outside world is a parameter, not code:

- whether each download succeeds;
- the exit code and parsed output of each ffprobe run;
- the exit code of each ffmpeg run, and whether it left its output file;
- the result of the Cloudinary upload;
- which paths `unlink` cannot remove;
- the rendering of a number into a filter string (`fmt`).

Strings are JavaScript strings: sequences of UTF-16 code units. A Dafny
`string` here stands for that sequence, with one `char` per code unit. So
`.length`, the 27-character budget and `split(' ')` count code units, and
an emoji is two `char`s. A caption of 14 emoji has length 28 and is
wrapped (`Caption.LongSingleWordCaption`). A Dafny `char` cannot hold a lone
surrogate half. The two halves of a pair are therefore written as two other
non-ASCII `char`s, one for one. The model compares characters only with a
space, a quote or a digit, so this changes no length and no result.

## Model

| member | source | states |
|---|---|---|
| Text.JoinSnoc | server.js:256 | joining one more part appends the separator and the part |
| Text.Split | server.js:213 | `split` always yields at least one piece |
| Text.SplitPiecesHaveNoSeparator | server.js:213 | no piece of `split(' ')` contains a space |
| Text.JoinSplit | server.js:213 | joining the pieces of a split with the same separator gives back the string |
| Text.SplitJoin | server.js:213 | splitting a join of separator-free parts gives back the parts |
| Text.SplitOfSeparatorsOnly | server.js:213 | a string of spaces only splits into empty words |
| Text.NatToString | server.js:232 | the decimal rendering of a line count or index is non-empty |
| Text.NatToStringValue | server.js:232-251 | the rendering is all decimal digits, reads back as the number, and has no leading zero except for 0 itself |
| Caption.Escape | server.js:202 | the quote escape of `hookText`: every `'` becomes `'\''`; its properties are `UnescapeEscape` and `EscapeLength` |
| Caption.UnescapeEscape | server.js:202 | undoing the `'` → `'\''` replacement gives back `hookText` exactly |
| Caption.EscapeLength | server.js:202 | each quote grows by three characters; a caption without quotes is unchanged |
| Caption.WrapStep | server.js:217-224 | one turn of the loop over `words`: push the current line and restart at the word when the word does not fit, extend the line otherwise; stated by `WrapFoldShape` and `WrapFoldGreedy` |
| Caption.WrapFold | server.js:217-224 | the loop state after every word, as a left fold of `WrapStep`; stated by `WrapFoldJoin` and `WrapFoldGreedy` |
| Caption.Wrap | server.js:217-228 | the lines of the wrap: the fold's finished lines plus the last line when it is non-empty; stated by `WrapWords`, `WrapLinesAreWordsOrFit`, `WrapPreservesText` and `WrapIsGreedy` |
| Caption.WrapWords | server.js:213-228 | the loop over `words`, pushing onto `lines` and rebuilding `currentLine`, yields exactly the greedy wrap `Wrap` |
| Caption.WrapFoldShape | server.js:217-224 | during the loop, every finished line is non-empty |
| Caption.WrapLinesAreWordsOrFit | server.js:217-228 | every emitted line is non-empty and is either one word or several words in at most 28 characters |
| Caption.JoinExtendLast | server.js:222 | appending `' ' + word` to the current line appends it to the joined text |
| Caption.WrapFoldJoin | server.js:217-224 | with no empty word, the loop state joined by spaces is the words seen so far joined by spaces |
| Caption.WrapPreservesText | server.js:213-228 | with no empty word, the lines joined by single spaces reproduce the words joined by single spaces |
| Caption.WrapFoldGreedy | server.js:218-220 | a line is closed only when the next word did not fit after it |
| Caption.WrapIsGreedy | server.js:218-228 | in the final lines, each line plus the next line's first word exceeds the budget |
| Caption.WrapOfEmptyWords | server.js:217-228 | words that are all empty give no line |
| Caption.FirstWordOfWord | server.js:220 | a line made of one space-free word starts with that word |
| Caption.FirstWordExtend | server.js:222 | extending a line keeps its first word |
| Caption.AnchorOf | server.js:188-199 | `'top'` and `'bottom'` select their anchor and any other or missing position the centre; used by `ShortCaptionIsOneLine` and `BlockStartByAnchor` |
| Caption.SingleLineY | server.js:188-199 | the y expression of a single-line caption for each anchor; stated by `ShortCaptionIsOneLine` |
| Caption.BlockStart | server.js:236-247 | the y expression of the first line of a block of n lines; stated by `BlockStartByAnchor` |
| Caption.LayoutEscaped | server.js:206-252 | the plan for an escaped caption: one overlay at the single-line y when it fits in 27 characters, one overlay per wrapped line otherwise; stated by `ShortCaptionIsOneLine`, `LongCaptionIsWrapped` and `LongCaptionKeepsWords` |
| Caption.Layout | server.js:187-256 | the caption plan, or the error for a missing `hookText`; stated by `LayoutCaption` and `LayoutFailsOnlyWithoutText` |
| Caption.DrawText | server.js:210-251 | the `drawtext` filter of one overlay: font file, quoted text, white at `FONT_SIZE` with a black border and no box, centred in x, at the overlay's y; its join is `TextStyle` |
| Caption.TextStyle | server.js:256 | `textCommands.join(',')`, the caption's part of `-vf`; stated by `TextStyleSnoc` |
| Caption.TextStyleSnoc | server.js:250-256 | adding an overlay appends `,` and its filter, or is that filter alone for the first overlay |
| Caption.SplitOfWord | server.js:213 | a word without spaces splits into itself |
| Caption.WrapOfOneWord | server.js:217-228 | a single non-empty word wraps into one line, whatever its length |
| Caption.PlacedOne | server.js:250-252 | a block of one line puts it at the block start for one line |
| Caption.LongSingleWordCaption | server.js:206-252 | a caption longer than 27 code units with no space and no quote is one overlay, the whole caption, at the block start for one line; 14 emoji are 28 code units and take this branch |
| Caption.Placed | server.js:250-252 | one overlay per line |
| Caption.Texts | server.js:250-252 | one text per overlay |
| Caption.LayoutCaption | server.js:187-256 | the anchor switch, the escape, and the pushes onto `textCommands` produce exactly the plan `Layout`, including the error for a missing `hookText` |
| Caption.LayoutFailsOnlyWithoutText | server.js:202 | the layout fails exactly when `hookText` is missing |
| Caption.ShortCaptionIsOneLine | server.js:187-210 | an escaped caption of at most 27 characters gives one overlay, the whole escaped text, at `(h/10)` for top, `(h*9/10)` for bottom, `(h/2)` otherwise |
| Caption.BlockStartByAnchor | server.js:231-247 | a block of n lines starts at `(h/8)` for top, `(h*7/8)-(n*lineHeight)` for bottom, `(h-n*lineHeight)/2` otherwise |
| Caption.PlacedLines | server.js:250-252 | the i-th overlay carries the i-th line at `(startY+i*lineHeight)` |
| Caption.LongCaptionIsWrapped | server.js:206-252 | a longer caption gives one overlay per wrapped line, at its block position, each line non-empty and a single word or at most 28 characters |
| Caption.LongCaptionKeepsWords | server.js:213-252 | with no empty word, the overlay texts joined by spaces reproduce the escaped caption, and the wrap is greedy |
| Caption.BlankCaptionHasNoLines | server.js:209-228 | a caption of more than 27 spaces yields no `drawtext` filter at all |
| Probing.VideoDuration | server.js:77-89 | resolves exactly when ffprobe exits 0 and its output parses, with that value; a non-zero exit or NaN rejects with the matching error |
| Probing.Stage1Duration | server.js:271-287 | the inline probe before stage 1: its output parsed when it exited 0, kept only when truthy (not NaN, not 0); stated by `Stage1DurationVersusVideoDuration` |
| Probing.Stage1DurationVersusVideoDuration | server.js:271-287 | the inline probe read through `if (videoDuration)` gives a duration exactly when `getVideoDuration` would resolve with a non-zero one |
| FfmpegArgs.ValuesAppend | server.js:411-419 | the values of a flag in a concatenated vector are those of each part in order |
| FfmpegArgs.FlattenAppend | server.js:411-419 | flattening a concatenation concatenates the flattened parts |
| FfmpegArgs.ValuesSingle | server.js:283-332 | the values of a flag in a one-argument vector are that argument's value for the flag |
| FfmpegArgs.ValuesOfOpts | server.js:381-397 | a run of options of one flag gives its values for that flag and nothing for any other flag |
| FfmpegArgs.OptsHaveNoSwitch | server.js:381-397 | a run of options contains no bare switch |
| FfmpegArgs.OptsPair | server.js:381 | two options of one flag are the two arguments |
| FfmpegArgs.OptsTriple | server.js:394 | three options of one flag are the three arguments |
| FfmpegArgs.ValuesOfOptionalOpt | server.js:413 | an optional option contributes its value only to its own flag |
| FfmpegArgs.ValuesOfVideoCodec | server.js:390 | the video codec block gives `libx264`, `medium`, `23` to `-c:v`, `-preset`, `-crf` |
| FfmpegArgs.ValuesOfAudioArgs | server.js:297-298 | the audio encoding block gives `-c:a`/`-b:a` exactly the values of its encoding |
| FfmpegArgs.ValuesOfSwitches | server.js:300-301 | `-shortest`, `-y` and the output path carry no flag value |
| FfmpegArgs.RenderSegments | server.js:283-332 | the values of a flag in a rendered invocation are the sum of its segments' values |
| FfmpegArgs.SegmentValues | server.js:283-332 | each segment's contribution for a flag |
| FfmpegArgs.AddUp | server.js:283-332 | the segment contributions add up to the invocation's value list for the flag |
| FfmpegArgs.RenderValues | server.js:283-332 | reading any flag back from a rendered invocation gives that invocation's values for it |
| FfmpegArgs.RenderShortest | server.js:314 | `-shortest` is present exactly when the invocation asks for it |
| FfmpegArgs.RenderEndsWithOutput | server.js:300-301 | every vector ends with `-y` and the output path |
| FfmpegArgs.SelectStage1Shape | server.js:285-287 | no audio gives the video-only shape; audio and a truthy duration give the trimmed shape with that duration; audio without one gives the `-shortest` shape |
| FfmpegArgs.Stage1ArgsCommon | server.js:283-332 | in every shape the first input is the video, the last argument is the output path after `-y`, `-vf` is the scale/pad/setsar prefix followed by the caption filters, and the codec is `libx264` at crf 23 |
| FfmpegArgs.Stage1Invocation | server.js:283-332 | the stage-1 invocation for each shape, segment by segment; stated by `Stage1ArgsCommon` and the three per-shape lemmas |
| FfmpegArgs.Stage1Args | server.js:283-332 | the flattened stage-1 vector; its exact strings are `Stage1VideoOnlyVector`, `Stage1TrimmedAudioVector` and `Stage1ShortestAudioVector` |
| FfmpegArgs.Stage1VideoOnly | server.js:320-331 | without audio: one `-i`, `-c:a copy`, no `-map`, no `-filter_complex`, no `-shortest` |
| FfmpegArgs.Stage1TrimmedAudio | server.js:288-302 | audio and duration d: inputs video and audio, filter `atrim=0:d`, maps `0:v` and `[a]`, `aac` at `-b:a 192k`, no `-shortest` |
| FfmpegArgs.Stage1ShortestAudio | server.js:304-318 | audio without a duration: inputs video and audio, maps `0:v` and `1:a`, `aac` at `-b:a 192k`, `-shortest`, no filter |
| FfmpegArgs.Stage1VideoOnlyVector | server.js:322-331 | the exact argument vector of the video-only shape |
| FfmpegArgs.FlattenPieces | server.js:322-331 | the exact strings of each video-only segment |
| FfmpegArgs.Stage1TrimmedAudioVector | server.js:288-302 | the exact argument vector of the trimmed-audio shape, from the two `-i` to `-y` and the output |
| FfmpegArgs.Stage1ShortestAudioVector | server.js:304-318 | the exact argument vector of the `-shortest` shape |
| FfmpegArgs.FlattenOpt | server.js:283-332 | an option flattens to its flag and value |
| FfmpegArgs.FlattenOptionalOpt | server.js:413 | an optional option flattens to its flag and value when set, to nothing otherwise |
| FfmpegArgs.FlattenOptsPair | server.js:381 | two options of one flag flatten to flag, value, flag, value |
| FfmpegArgs.FlattenOptsTriple | server.js:394 | three options of one flag flatten likewise |
| FfmpegArgs.FlattenAudioArgs | server.js:297-298 | the audio block flattens to `-c:a copy`, or to `-c:a aac -b:a 192k` |
| FfmpegArgs.FlattenRender | server.js:283-332 | a rendered invocation flattens to its segments' strings in order |
| FfmpegArgs.FlattenRenderAs | server.js:283-332 | given each segment's strings, the vector is their concatenation |
| FfmpegArgs.FlattenSingle | server.js:283-332 | a single argument flattens to its tokens |
| FfmpegArgs.ConcatInvocation | server.js:380-419 | the concatenation invocation segment by segment; stated by `ConcatArgsShape` |
| FfmpegArgs.ConcatArgs | server.js:380-419 | the flattened concatenation vector; its exact strings are `ConcatVector` |
| FfmpegArgs.ConcatVector | server.js:380-419 | the exact concatenation vector: inputs output, demo and then audio; the filter graph; maps `[outv]` and with audio `[outa]`; the codec, then `aac`/`192k` with audio; `-y` and the intermediate path |
| FfmpegArgs.BuildConcatArgs | server.js:380-419 | building the inputs and maps by `push` and spreading the blocks yields exactly the concatenation vector |
| FfmpegArgs.ConcatArgsShape | server.js:377-419 | the concat vector ends with the intermediate path. Its inputs are output, demo and then audio. The audio filter appears, after `;`, exactly when audio is set, and trims to the summed duration. Its maps are `[outv]`, plus `[outa]` exactly with audio. It has `aac`/`192k` exactly with audio, and no `-vf` |
| TempFiles.FileSystem.constructor | server.js:49-57 | a file system with the given existing and undeletable paths |
| TempFiles.FileSystem.WriteFile | server.js:36 | the written path exists afterwards, and nothing else changes |
| TempFiles.FileSystem.Unlink | server.js:52 | the unlink fails exactly on an undeletable path, and removes only its path otherwise |
| TempFiles.Deleted | server.js:49-57 | the files left after one `deleteTempFile`; stated by `DeletedRemovesOnlyItsPath` and `DeleteTwice` |
| TempFiles.Cleaned | server.js:465 | the files left after deleting each path of `tempFiles` in turn; stated by `CleanedRemovesRemovable` and `CleanupTwice` |
| TempFiles.DeleteTempFile | server.js:49-57 | an empty or missing path is skipped, an undeletable path is left with the error swallowed, any other path is removed |
| TempFiles.DeletedRemovesOnlyItsPath | server.js:49-57 | a deletion removes at most its own path, and removes it unless it is empty or undeletable |
| TempFiles.DeleteTwice | server.js:49-57 | deleting a path a second time changes nothing |
| TempFiles.CleanedRemovesRemovable | server.js:504 | cleaning up removes exactly the listed non-empty deletable paths, whatever the order |
| TempFiles.CleanupTwice | server.js:373 | cleaning up twice leaves the same files as cleaning up once |
| TempFiles.CleanupTempFiles | server.js:465 | deleting each registered path in turn leaves the files as the cleanup specification says |
| TempFiles.CleanupRestores | server.js:132-183 | when every created path was registered and is fresh, a cleanup leaves the files that existed before plus the created ones that could not be deleted |
| Handler.FetchError | server.js:156-185 | the first failed download, video then audio then demo, or none; stated by `FetchInputs` and `FetchFailureIsFatal` |
| Handler.Run | server.js:127-510 | the outcome of a request: probes, transcodes, upload and response; stated by `HandleRequest` and the lemmas of `Sequencing` |
| Handler.RunStages | server.js:258-493 | the outcome from the probe of the video on, for a caption plan; stated by `HandleStages` and `StagesShape` |
| Handler.ConcatStage | server.js:355-376 | the outcome after stage 1 with a demo: the two duration probes, then the concatenation; stated by `HandleConcat` and `ConcatStageShape` |
| Handler.ConcatAndUpload | server.js:377-493 | the concatenation for the summed duration and the upload of its output; stated by `RunConcat` and `ConcatStageShape` |
| Handler.Abort | server.js:495-510 | the catch block deletes every temp file and answers 500 with the error |
| Handler.AbortTwice | server.js:371-375 | a failed concat probe deletes the temp files, rethrows, and the catch block deletes them again; the end state is that of one cleanup |
| Handler.Upload | server.js:446-492 | a successful upload cleans up and answers with the URL; a failed one goes through the catch block |
| Handler.FetchInputs | server.js:156-185 | the video, audio and demo are fetched in order, each written file is registered, and the first failure is reported; the audio path is set only once the audio was written |
| Handler.HandleRequest | server.js:127-510 | the handler produces exactly the outcome `Run`, and afterwards the files are those that existed before plus only the created files whose unlink failed |
| Handler.HandleStages | server.js:258-353 | stage 1 on its argument vector; a non-zero exit is fatal, otherwise upload or concatenate, with the files restored |
| Handler.HandleConcat | server.js:355-376 | registers the intermediate path; a failed probe of either clip is fatal after a double cleanup |
| Handler.RunConcat | server.js:377-441 | concatenation with the summed duration; a non-zero exit is fatal, otherwise the intermediate file is uploaded |
| Sequencing.ConcatStageShape | server.js:355-441 | after stage 1, with a demo, the concat runs exactly when both durations are read. It runs the vector for their sum. The upload happens exactly when the concat exits 0 |
| Sequencing.StagesShape | server.js:258-493 | from the probe on: one or two transcodes, the first being the stage-1 vector; an upload exactly when every stage run exited 0; the response follows the upload |
| Sequencing.RunCases | server.js:156-256 | the stages run exactly when the inputs were fetched and `hookText` is present; otherwise nothing is probed, run or uploaded |
| Sequencing.NoVideoIsBadRequest | server.js:157-165 | status 400 exactly when there is no video source, and then nothing is probed, run or uploaded |
| Sequencing.FetchFailureIsFatal | server.js:156-185 | a failed download of the video, audio or demo ends in 500 before any probe or transcode |
| Sequencing.FirstTranscodeRunsIffPrepared | server.js:202-335 | stage 1 runs exactly when every input was fetched and `hookText` is present, on the stage-1 vector for the caption's filters; a missing `hookText` ends in 500 |
| Sequencing.Stage1FailureIsFatal | server.js:349-353 | a non-zero stage-1 exit ends in 500 with one transcode, no concat and no upload |
| Sequencing.ConcatProbeFailureIsFatal | server.js:363-375 | a failed duration probe of the output or of the demo ends in 500 with no concat and no upload |
| Sequencing.SecondTranscodeRunsIffConcatRuns | server.js:355-441 | at most two transcodes. The second runs exactly when stage 1 exited 0, a demo was given, and both durations were read. It trims the audio to their sum |
| Sequencing.UploadIffStagesSucceeded | server.js:437-493 | the upload happens exactly when every stage that runs exited 0; it is of the intermediate file with a demo, of the stage-1 output without |
| Sequencing.SucceedsIffUploaded | server.js:446-510 | success exactly when the final file was uploaded and the upload returned a URL, which is the response |
| Sequencing.CreatedAreTempPaths | server.js:132-183 | the request creates only its own five temp paths, and the video file exactly when the video was fetched |

## Left out

- HTTP plumbing: express, multer, cors, the JSON envelopes and `headersSent`.
  A request is the record of the body fields and uploads the handler reads.
- Downloads and file writes (`createTempFile`, `createTempFileFromUrl`) are
  inputs: each either writes its fresh file or fails without writing it.
  A partial write after a failed download is not modelled.
- `uuidv4` names: each temp path is taken to be non-empty and not yet
  existing (`Fresh`). The proofs do not need the five paths to differ.
  The font file path is never written or deleted.
- ffprobe and ffmpeg processes are inputs. So are their stream buffering,
  `kill('SIGKILL')` and the `'error'` events. A spawn failure is not
  modelled.
  Whether a failed ffmpeg run leaves its output file is an input.
- `parseFloat` and the decimal rendering of a duration: a parsed duration is
  a `real`, NaN is `None`, and the text of a number is the parameter `fmt`.
- The Cloudinary upload: an input, either a URL or a failure.
- `hasAudioStream` (server.js:97-124): the handler never calls it.
- What ffmpeg does with the filter expressions.
- Handler.HandleRequest: `Promise.all` over the deletions is modelled as one
  deletion after the other. `CleanedRemovesRemovable` shows the result does
  not depend on the order.
- Caption.WrapLinesAreWordsOrFit: a line of several words may be 28
  characters long, not 27. The test `(currentLine + word).length >
  lineLength` omits the joining space. The contract states the bound the
  code gives.
- Caption.BlankCaptionHasNoLines: a caption of more than 27 spaces produces
  an empty filter list. `-vf` then ends with a trailing comma. What ffmpeg
  makes of that is not modelled.
