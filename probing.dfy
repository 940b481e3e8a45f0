/**
 The two readings of an `ffprobe -show_entries format=duration` run: the
 inline probe before the first transcode, whose result is only tested for
 truthiness, and the close handler of `getVideoDuration`, which rejects.
 The process itself is not run: its exit code and `parseFloat` of its trimmed
 standard output are inputs.
 */
module Probing {
  import opened Wrappers

  /** An ffprobe run: its exit code and the parsed output (`None` stands for NaN). */
  datatype ProbeRun = ProbeRun(exitCode: int, parsed: Option<real>)

  datatype ProbeError = ProbeExited(code: int) | UnparsableDuration

  /** The `close` handler of `getVideoDuration`: reject on a non-zero exit or NaN, else resolve. */
  function VideoDuration(p: ProbeRun): (r: Result<real, ProbeError>)
    ensures r.Success? <==> p.exitCode == 0 && p.parsed.Some?
    ensures r.Success? ==> r.value == p.parsed.value
    ensures p.exitCode != 0 ==> r == Failure(ProbeExited(p.exitCode))
    ensures p.exitCode == 0 && p.parsed.None? ==> r == Failure(UnparsableDuration)
  {
    if p.exitCode != 0 then Failure(ProbeExited(p.exitCode))
    else match p.parsed
      case None => Failure(UnparsableDuration)
      case Some(d) => Success(d)
  }

  /**
   The inline probe before the first transcode, read through the truthiness
   test `if (videoDuration)`: a non-zero exit (null), NaN and 0 all count as
   no duration.
   */
  function Stage1Duration(p: ProbeRun): Option<real>
  {
    if p.exitCode != 0 then None
    else match p.parsed
      case None => None
      case Some(d) => if d == 0.0 then None else Some(d)
  }

  /**
   The two readings agree except on a zero duration, which `getVideoDuration`
   accepts and the truthiness test treats as missing.
   */
  lemma Stage1DurationVersusVideoDuration(p: ProbeRun, d: real)
    ensures Stage1Duration(p) == Some(d) <==> VideoDuration(p) == Success(d) && d != 0.0
    ensures Stage1Duration(p).None? <==> VideoDuration(p).Failure? || VideoDuration(p) == Success(0.0)
  {
  }
}
