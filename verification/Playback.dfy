/** The editor's state: what is cut from which source, in whole milliseconds. */
module Playback {
  import opened GoInts

  /** A video effect as an ffmpeg clause, or one the exporter does not know. */
  datatype Effect = Clause(text: string) | UnknownEffect

  datatype VideoSection = VideoSection(
    start: uint64, end: uint64, asset: string, sourceStart: uint64, hasAudio: bool, effects: seq<Effect>)

  datatype AudioSection = AudioSection(start: uint64, end: uint64, asset: string, sourceStart: uint64)

  datatype State = State(video: seq<VideoSection>, audio: seq<AudioSection>)

  /** One millisecond of a source. */
  datatype Sample = Sample(asset: string, ms: int)

  /** The milliseconds `from`, ..., `to - 1` of a source. */
  function Samples(asset: string, from: int, to: int): (s: seq<Sample>)
    ensures |s| == if from <= to then to - from else 0
    ensures forall i | 0 <= i < |s| :: s[i] == Sample(asset, from + i)
  {
    if from <= to then seq(to - from, i => Sample(asset, from + i)) else []
  }
}
