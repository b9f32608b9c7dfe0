/** ffmpeg filter graphs as the exporter writes them, and what they compute. */
module FilterGraph {
  import opened Wrappers
  import opened Playback

  /** A link label of the graph. */
  datatype Label =
    | CutVideo(k: nat)          // [vK]
    | CutAudio(k: nat)          // [aK]
    | Video                     // [video]
    | VideoAudio                // [videoaudio]
    | BackgroundAudio(k: nat)   // [backgroundaudioK]
    | Audio                     // [audio]

  /** One chain of the graph, times in milliseconds; inputs are numbered. */
  datatype Chain =
    | TrimVideo(input: nat, from: int, to: int, effects: seq<string>, out: Label)
    | TrimAudio(input: nat, from: int, to: int, out: Label)
    | Silence(ms: int, out: Label)
    | Concat(ins: seq<Label>, n: nat, outVideo: Label, outAudio: Label)
    | Background(input: nat, from: int, to: int, volume: int, delay: nat, out: Label)
    | Mix(ins: seq<Label>, inputs: nat, out: Label)

  /** An input file: an asset, its length, and the kinds of stream it has. */
  datatype Source = Source(asset: string, length: nat, hasVideo: bool, hasAudio: bool)

  /** A stream, millisecond by millisecond: the picture shown, or the samples sounding together. */
  datatype Stream = Pictures(shown: seq<Sample>) | Sound(heard: seq<set<Sample>>)

  /** The labels waiting to be consumed, and all labels defined so far. */
  datatype Bench = Bench(live: map<Label, Stream>, defined: set<Label>)

  /** The part of a stream between two times, cut short where the stream ends. */
  function Clip<T>(s: seq<T>, from: nat, to: nat): seq<T>
    requires from <= to
  {
    if to <= |s| then s[from..to] else if from <= |s| then s[from..] else []
  }

  function Tone(asset: string, from: nat, to: nat): (s: seq<set<Sample>>)
    requires from <= to
    ensures |s| == to - from && forall i | 0 <= i < |s| :: s[i] == {Sample(asset, from + i)}
  {
    seq(to - from, i => {Sample(asset, from + i)})
  }

  function Quiet(ms: nat): (s: seq<set<Sample>>)
    ensures |s| == ms && forall i | 0 <= i < |s| :: s[i] == {}
  {
    seq(ms, _ => {})
  }

  /** A label may be defined only once in a graph. */
  function Define(b: Bench, l: Label, s: Stream): Option<Bench> {
    if l in b.defined then None else Some(Bench(b.live[l := s], b.defined + {l}))
  }

  function ConcatPictures(ins: seq<Label>, live: map<Label, Stream>, n: nat): seq<Sample>
    requires 2 * n <= |ins| && forall k: nat | k < n :: ins[2 * k] in live && live[ins[2 * k]].Pictures?
  {
    if n == 0 then [] else ConcatPictures(ins, live, n - 1) + live[ins[2 * (n - 1)]].shown
  }

  function ConcatSound(ins: seq<Label>, live: map<Label, Stream>, n: nat): seq<set<Sample>>
    requires 2 * n <= |ins| && forall k: nat | k < n :: ins[2 * k + 1] in live && live[ins[2 * k + 1]].Sound?
  {
    if n == 0 then [] else ConcatSound(ins, live, n - 1) + live[ins[2 * (n - 1) + 1]].heard
  }

  /** What sounds at `t` when the given streams play together. */
  ghost function MixedAt(ins: seq<Label>, live: map<Label, Stream>, t: nat): set<Sample>
    requires forall k: nat | k < |ins| :: ins[k] in live && live[ins[k]].Sound?
  {
    set k: nat, x | k < |ins| && t < |live[ins[k]].heard| && x in live[ins[k]].heard[t] :: x
  }

  ghost predicate AllDistinct(ins: seq<Label>) {
    forall i, j | 0 <= i < j < |ins| :: ins[i] != ins[j]
  }

  /** Removes consumed labels. */
  function Consume(b: Bench, ins: seq<Label>): Bench {
    Bench(map l | l in b.live && l !in ins :: b.live[l], b.defined)
  }

  /** The effect of one chain; None when ffmpeg would refuse it. */
  ghost function Apply(inputs: seq<Source>, b: Bench, c: Chain): Option<Bench> {
    match c
    case TrimVideo(i, from, to, _, out) =>
      if i < |inputs| && inputs[i].hasVideo && 0 <= from <= to then
        Define(b, out, Pictures(Clip(Samples(inputs[i].asset, 0, inputs[i].length), from, to)))
      else None
    case TrimAudio(i, from, to, out) =>
      if i < |inputs| && inputs[i].hasAudio && 0 <= from <= to then
        Define(b, out, Sound(Clip(Tone(inputs[i].asset, 0, inputs[i].length), from, to)))
      else None
    case Silence(ms, out) =>
      if 0 <= ms then Define(b, out, Sound(Quiet(ms))) else None
    case Background(i, from, to, _, delay, out) =>
      if i < |inputs| && inputs[i].hasAudio && 0 <= from <= to then
        Define(b, out, Sound(Quiet(delay) + Clip(Tone(inputs[i].asset, 0, inputs[i].length), from, to)))
      else None
    case Concat(ins, n, outVideo, outAudio) =>
      if && n >= 1 && |ins| == 2 * n && AllDistinct(ins)
         && (forall k: nat | k < n :: ins[2 * k] in b.live && b.live[ins[2 * k]].Pictures?)
         && (forall k: nat | k < n :: ins[2 * k + 1] in b.live && b.live[ins[2 * k + 1]].Sound?)
      then
        match Define(Consume(b, ins), outVideo, Pictures(ConcatPictures(ins, b.live, n)))
        case None => None
        case Some(b1) => Define(b1, outAudio, Sound(ConcatSound(ins, b.live, n)))
      else None
    case Mix(ins, count, out) =>
      if && count >= 1 && |ins| == count && AllDistinct(ins)
         && (forall k: nat | k < |ins| :: ins[k] in b.live && b.live[ins[k]].Sound?)
      then
        Define(Consume(b, ins), out,
               Sound(seq(|b.live[ins[0]].heard|, t requires 0 <= t => MixedAt(ins, b.live, t))))
      else None
  }

  ghost function Run(inputs: seq<Source>, b: Bench, graph: seq<Chain>): Option<Bench> {
    if graph == [] then Some(b)
    else
      match Run(inputs, b, graph[..|graph| - 1])
      case None => None
      case Some(b1) => Apply(inputs, b1, graph[|graph| - 1])
  }

  lemma {:induction false} RunAppend(inputs: seq<Source>, b: Bench, g: seq<Chain>, h: seq<Chain>)
    requires Run(inputs, b, g).Some?
    ensures Run(inputs, b, g + h) == Run(inputs, Run(inputs, b, g).value, h)
  {
    if h == [] {
      assert g + h == g;
    } else {
      assert (g + h)[..|g + h| - 1] == g + h[..|h| - 1];
      RunAppend(inputs, b, g, h[..|h| - 1]);
    }
  }

  lemma {:induction false} RunOne(inputs: seq<Source>, b: Bench, c: Chain)
    ensures Run(inputs, b, [c]) == Apply(inputs, b, c)
  {
  }
}
