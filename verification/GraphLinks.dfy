/** The labels of an export graph: every graph the builder writes is linear and closed, whatever its numbers. */
module GraphLinks {
  import opened Wrappers
  import opened Playback
  import opened FilterGraph
  import opened VideoExport
  import opened ExportMeaning

  datatype Pad = PicturePad | SoundPad

  /** The labels waiting to be consumed with the kind of their stream, and all labels defined so far. */
  datatype Links = Links(live: map<Label, Pad>, defined: set<Label>)

  const NO_LINKS := Links(map[], {})

  function DefineLink(b: Links, l: Label, pad: Pad): Option<Links> {
    if l in b.defined then None else Some(Links(b.live[l := pad], b.defined + {l}))
  }

  function ConsumeLinks(b: Links, ins: seq<Label>): Links {
    Links(map l | l in b.live && l !in ins :: b.live[l], b.defined)
  }

  ghost predicate HasPad(b: Links, l: Label, pad: Pad) {
    l in b.live && b.live[l] == pad
  }

  /** The labels after one chain: None for a label defined twice, a missing or repeated input, or a wrong arity. */
  ghost function Link(b: Links, c: Chain): Option<Links> {
    match c
    case TrimVideo(_, _, _, _, out) => DefineLink(b, out, PicturePad)
    case TrimAudio(_, _, _, out) => DefineLink(b, out, SoundPad)
    case Silence(_, out) => DefineLink(b, out, SoundPad)
    case Background(_, _, _, _, _, out) => DefineLink(b, out, SoundPad)
    case Concat(ins, n, outVideo, outAudio) =>
      if && n >= 1 && |ins| == 2 * n && AllDistinct(ins)
         && (forall k: nat | k < n :: HasPad(b, ins[2 * k], PicturePad) && HasPad(b, ins[2 * k + 1], SoundPad))
      then
        match DefineLink(ConsumeLinks(b, ins), outVideo, PicturePad)
        case None => None
        case Some(b1) => DefineLink(b1, outAudio, SoundPad)
      else None
    case Mix(ins, count, out) =>
      if && count >= 1 && |ins| == count && AllDistinct(ins)
         && (forall k: nat | k < |ins| :: HasPad(b, ins[k], SoundPad))
      then DefineLink(ConsumeLinks(b, ins), out, SoundPad)
      else None
  }

  ghost function LinkAll(b: Links, graph: seq<Chain>): Option<Links> {
    if graph == [] then Some(b)
    else
      match LinkAll(b, graph[..|graph| - 1])
      case None => None
      case Some(b1) => Link(b1, graph[|graph| - 1])
  }

  lemma {:induction false} LinkAppend(b: Links, g: seq<Chain>, h: seq<Chain>)
    requires LinkAll(b, g).Some?
    ensures LinkAll(b, g + h) == LinkAll(LinkAll(b, g).value, h)
  {
    if h == [] {
      assert g + h == g;
    } else {
      assert (g + h)[..|g + h| - 1] == g + h[..|h| - 1];
      LinkAppend(b, g, h[..|h| - 1]);
    }
  }

  lemma {:induction false} LinkOne(b: Links, c: Chain)
    ensures LinkAll(b, [c]) == Link(b, c)
  {
    assert [c][..0] == [];
  }

  // ---- the labels of the cuts ----

  function CutPad(l: Label): Pad {
    if l.CutVideo? then PicturePad else SoundPad
  }

  ghost function CutLinks(n: nat): Links {
    if n == 0 then NO_LINKS
    else
      var b := CutLinks(n - 1);
      Links(b.live[CutVideo(n - 1) := PicturePad][CutAudio(n - 1) := SoundPad],
            b.defined + {CutVideo(n - 1)} + {CutAudio(n - 1)})
  }

  lemma {:induction false} CutLinksHas(n: nat)
    ensures var b := CutLinks(n);
      forall l :: (l in b.live <==> IsCutLabel(l, n)) && (l in b.defined <==> IsCutLabel(l, n))
                  && (l in b.live ==> b.live[l] == CutPad(l))
  {
    if n > 0 {
      CutLinksHas(n - 1);
    }
  }

  lemma {:induction false} ChainsLink(b: Links, cut: VideoCut, k: nat)
    requires CutVideo(k) !in b.defined && CutAudio(k) !in b.defined
    ensures LinkAll(b, ChainsOf(cut, k))
            == Some(Links(b.live[CutVideo(k) := PicturePad][CutAudio(k) := SoundPad],
                          b.defined + {CutVideo(k)} + {CutAudio(k)}))
  {
    var chains := ChainsOf(cut, k);
    assert chains == [chains[0]] + [chains[1]];
    LinkOne(b, chains[0]);
    LinkAppend(b, [chains[0]], [chains[1]]);
    LinkOne(Link(b, chains[0]).value, chains[1]);
  }

  lemma {:induction false} CutsLink(cuts: seq<VideoCut>)
    ensures LinkAll(NO_LINKS, CutChains(cuts)) == Some(CutLinks(|cuts|))
  {
    if cuts != [] {
      var n := |cuts| - 1;
      CutsLink(cuts[..n]);
      CutLinksHas(n);
      ChainsLink(CutLinks(n), cuts[n], n);
      LinkAppend(NO_LINKS, CutChains(cuts[..n]), ChainsOf(cuts[n], n));
    }
  }

  ghost function MainLinks(n: nat): Links {
    Links(map[Video := PicturePad, VideoAudio := SoundPad], CutLinks(n).defined + {Video} + {VideoAudio})
  }

  lemma {:induction false} ConcatLinks(n: nat)
    requires n > 0
    ensures Link(CutLinks(n), Concat(ConcatInputs(n), n, Video, VideoAudio)) == Some(MainLinks(n))
  {
    var b, ins := CutLinks(n), ConcatInputs(n);
    CutLinksHas(n);
    ConcatInputsMeaning(n);
    forall k: nat | k < n
      ensures HasPad(b, ins[2 * k], PicturePad) && HasPad(b, ins[2 * k + 1], SoundPad)
    {
      assert ins[2 * k] == CutVideo(k) && ins[2 * k + 1] == CutAudio(k);
    }
    LinkConcat(b, ins, n);
  }

  lemma {:induction false} LinkConcat(b: Links, ins: seq<Label>, n: nat)
    requires n >= 1 && |ins| == 2 * n && AllDistinct(ins) && forall l | l in b.live :: l in ins
    requires forall k: nat | k < n :: HasPad(b, ins[2 * k], PicturePad) && HasPad(b, ins[2 * k + 1], SoundPad)
    requires Video !in b.defined && VideoAudio !in b.defined
    ensures Link(b, Concat(ins, n, Video, VideoAudio))
            == Some(Links(map[Video := PicturePad, VideoAudio := SoundPad], b.defined + {Video} + {VideoAudio}))
  {
    assert ConsumeLinks(b, ins) == Links(map[], b.defined);
  }

  // ---- background audio ----

  ghost function BackLinks(main: Links, n: nat): Links {
    if n == 0 then main
    else
      var b := BackLinks(main, n - 1);
      Links(b.live[BackgroundAudio(n - 1) := SoundPad], b.defined + {BackgroundAudio(n - 1)})
  }

  lemma {:induction false} BackLinksHas(main: Links, n: nat)
    requires forall l | l in main.live || l in main.defined :: !l.BackgroundAudio?
    ensures var b := BackLinks(main, n);
      && (forall l :: l in b.live <==> l in main.live || IsBackLabel(l, n))
      && (forall l :: l in b.defined <==> l in main.defined || IsBackLabel(l, n))
      && (forall l | l in b.live :: b.live[l] == if l in main.live then main.live[l] else SoundPad)
  {
    if n > 0 {
      BackLinksHas(main, n - 1);
    }
  }

  lemma {:induction false} BackgroundLinks(main: Links, audios: seq<AudioCut>)
    requires forall l | l in main.live || l in main.defined :: !l.BackgroundAudio?
    ensures LinkAll(main, BackgroundChains(audios)) == Some(BackLinks(main, |audios|))
  {
    if audios != [] {
      var n := |audios| - 1;
      var chain := Background(audios[n].input, audios[n].from, audios[n].to, audios[n].volume, audios[n].offset,
                              BackgroundAudio(n));
      BackgroundLinks(main, audios[..n]);
      BackLinksHas(main, n);
      LinkAppend(main, BackgroundChains(audios[..n]), [chain]);
      LinkOne(BackLinks(main, n), chain);
    }
  }

  lemma {:induction false} MixReady(cuts: nat, n: nat, l: Label)
    ensures var b := BackLinks(MainLinks(cuts), n);
      && Audio !in b.defined && HasPad(b, Video, PicturePad)
      && (l in b.live <==> l == Video || l == VideoAudio || IsBackLabel(l, n))
      && (l == VideoAudio || IsBackLabel(l, n) ==> HasPad(b, l, SoundPad))
  {
    CutLinksHas(cuts);
    BackLinksHas(MainLinks(cuts), n);
  }

  lemma {:induction false} MixLinks(cuts: nat, n: nat) returns (done: Links)
    ensures Link(BackLinks(MainLinks(cuts), n), Mix(MixInputs(n), n + 1, Audio)) == Some(done)
    ensures done.live == map[Video := PicturePad, Audio := SoundPad]
  {
    var b, ins := BackLinks(MainLinks(cuts), n), MixInputs(n);
    MixInputsMeaning(n);
    MixReady(cuts, n, Video);
    forall l | l in b.live
      ensures l in ins <==> l != Video
    {
      MixReady(cuts, n, l);
    }
    forall k: nat | k < |ins|
      ensures HasPad(b, ins[k], SoundPad)
    {
      assert ins[k] in ins;
      MixReady(cuts, n, ins[k]);
    }
    LinkMix(b, ins);
    done := Links(map[Video := PicturePad, Audio := SoundPad], b.defined + {Audio});
  }

  lemma {:induction false} LinkMix(b: Links, ins: seq<Label>)
    requires ins != [] && AllDistinct(ins) && Audio !in b.defined && HasPad(b, Video, PicturePad)
    requires forall k: nat | k < |ins| :: HasPad(b, ins[k], SoundPad)
    requires forall l | l in b.live :: l in ins <==> l != Video
    ensures Link(b, Mix(ins, |ins|, Audio))
            == Some(Links(map[Video := PicturePad, Audio := SoundPad], b.defined + {Audio}))
  {
    assert ConsumeLinks(b, ins).live == map[Video := PicturePad];
  }

  // ---- the whole graph ----

  /** Run as written, no label is defined or consumed twice, every arity fits, and just the mapped labels remain. */
  ghost predicate Closed(graph: seq<Chain>, maps: seq<Label>) {
    && LinkAll(NO_LINKS, graph).Some? && |maps| == 2
    && LinkAll(NO_LINKS, graph).value.live == map[maps[0] := PicturePad, maps[1] := SoundPad]
  }

  lemma {:induction false} MainLink(cuts: seq<VideoCut>)
    requires cuts != []
    ensures LinkAll(NO_LINKS, CutChains(cuts) + [Concat(ConcatInputs(|cuts|), |cuts|, Video, VideoAudio)])
            == Some(MainLinks(|cuts|))
  {
    var concat := Concat(ConcatInputs(|cuts|), |cuts|, Video, VideoAudio);
    CutsLink(cuts);
    LinkAppend(NO_LINKS, CutChains(cuts), [concat]);
    LinkOne(CutLinks(|cuts|), concat);
    ConcatLinks(|cuts|);
  }

  /** Every graph of at least one cut is linear and closed, for all times, inputs and flags. */
  lemma {:induction false} GraphIsClosed(cuts: seq<VideoCut>, audios: seq<AudioCut>)
    requires cuts != []
    ensures Closed(GraphOf(cuts, audios), [Video, AudioLabel(audios)])
  {
    MainLink(cuts);
    if audios != [] {
      var main := CutChains(cuts) + [Concat(ConcatInputs(|cuts|), |cuts|, Video, VideoAudio)];
      MixedGraphIsClosed(main, |cuts|, audios);
    }
  }

  lemma {:induction false} MixedGraphIsClosed(main: seq<Chain>, n: nat, audios: seq<AudioCut>)
    requires audios != [] && n > 0 && LinkAll(NO_LINKS, main) == Some(MainLinks(n))
    ensures Closed(main + BackgroundChains(audios) + [Mix(MixInputs(|audios|), |audios| + 1, Audio)], [Video, Audio])
  {
    var mix := Mix(MixInputs(|audios|), |audios| + 1, Audio);
    WithBackgrounds(main, n, audios);
    var done := MixLinks(n, |audios|);
    LinkAppend(NO_LINKS, main + BackgroundChains(audios), [mix]);
    LinkOne(BackLinks(MainLinks(n), |audios|), mix);
  }

  lemma {:induction false} WithBackgrounds(main: seq<Chain>, n: nat, audios: seq<AudioCut>)
    requires LinkAll(NO_LINKS, main) == Some(MainLinks(n))
    ensures LinkAll(NO_LINKS, main + BackgroundChains(audios)) == Some(BackLinks(MainLinks(n), |audios|))
  {
    CutLinksHas(n);
    BackgroundLinks(MainLinks(n), audios);
    LinkAppend(NO_LINKS, main, BackgroundChains(audios));
  }

  // ---- what the chains carry ----

  lemma {:induction false} ChainsOfCuts(cuts: seq<VideoCut>, k: nat)
    requires k < |cuts|
    ensures |CutChains(cuts)| == 2 * |cuts|
    ensures CutChains(cuts)[2 * k]
            == TrimVideo(cuts[k].input, cuts[k].from, cuts[k].to, cuts[k].effects, CutVideo(k))
    ensures CutChains(cuts)[2 * k + 1]
            == if cuts[k].includeAudio then TrimAudio(cuts[k].input, cuts[k].from, cuts[k].to, CutAudio(k))
               else Silence(cuts[k].to - cuts[k].from, CutAudio(k))
    decreases |cuts|
  {
    var n := |cuts| - 1;
    if k < n {
      ChainsOfCuts(cuts[..n], k);
    } else if n > 0 {
      ChainsOfCuts(cuts[..n], n - 1);
    }
  }

  lemma {:induction false} ChainsOfAudios(audios: seq<AudioCut>, k: nat)
    requires k < |audios|
    ensures |BackgroundChains(audios)| == |audios|
    ensures var a := audios[k];
      BackgroundChains(audios)[k] == Background(a.input, a.from, a.to, a.volume, a.offset, BackgroundAudio(k))
    decreases |audios|
  {
    var n := |audios| - 1;
    if k < n {
      ChainsOfAudios(audios[..n], k);
    } else if n > 0 {
      ChainsOfAudios(audios[..n], n - 1);
    }
  }

  /** Of each cut the graph has a chain for its pictures, with all its effects, and one for its sound. */
  lemma {:induction false} GraphCarriesTheCut(cuts: seq<VideoCut>, audios: seq<AudioCut>, k: nat)
    requires k < |cuts|
    ensures 2 * k + 1 < |GraphOf(cuts, audios)|
    ensures GraphOf(cuts, audios)[2 * k]
            == TrimVideo(cuts[k].input, cuts[k].from, cuts[k].to, cuts[k].effects, CutVideo(k))
    ensures GraphOf(cuts, audios)[2 * k + 1]
            == if cuts[k].includeAudio then TrimAudio(cuts[k].input, cuts[k].from, cuts[k].to, CutAudio(k))
               else Silence(cuts[k].to - cuts[k].from, CutAudio(k))
  {
    ChainsOfCuts(cuts, k);
    GraphBeginsWith(cuts, audios, 2 * k);
    GraphBeginsWith(cuts, audios, 2 * k + 1);
  }

  lemma {:induction false} GraphBeginsWith(cuts: seq<VideoCut>, audios: seq<AudioCut>, i: nat)
    requires i < |CutChains(cuts)|
    ensures i < |GraphOf(cuts, audios)| && GraphOf(cuts, audios)[i] == CutChains(cuts)[i]
  {
  }

  /** Of each background audio it has one, with its volume and its delay, after the cuts and the concat. */
  lemma {:induction false} GraphCarriesTheBackground(cuts: seq<VideoCut>, audios: seq<AudioCut>, k: nat)
    requires cuts != [] && k < |audios|
    ensures var a, i := audios[k], 2 * |cuts| + 1 + k;
      && i < |GraphOf(cuts, audios)|
      && GraphOf(cuts, audios)[i] == Background(a.input, a.from, a.to, a.volume, a.offset, BackgroundAudio(k))
  {
    ChainsOfCuts(cuts, 0);
    ChainsOfAudios(audios, k);
    AtMiddle(CutChains(cuts) + [Concat(ConcatInputs(|cuts|), |cuts|, Video, VideoAudio)], BackgroundChains(audios),
             [Mix(MixInputs(|audios|), |audios| + 1, Audio)], k);
  }

  lemma {:induction false} AtMiddle(a: seq<Chain>, b: seq<Chain>, c: seq<Chain>, k: nat)
    requires k < |b|
    ensures |a| + k < |a + b + c| && (a + b + c)[|a| + k] == b[k]
  {
  }

  /** What a section's cut carries: its stretch of the source, whether it sounds, and all its effects in order. */
  lemma {:induction false} CutCarriesTheSection(section: VideoSection, input: nat)
    requires forall i | 0 <= i < |section.effects| :: section.effects[i].Clause?
    ensures var cut := CutOf(section, input);
      && cut.input == input && cut.from == section.sourceStart && cut.includeAudio == section.hasAudio
      && (section.start <= section.end && section.sourceStart + section.end - section.start < 0x1_0000_0000_0000_0000
          ==> cut.to - cut.from == section.end - section.start)
      && |cut.effects| == |section.effects|
      && forall i | 0 <= i < |cut.effects| :: section.effects[i] == Clause(cut.effects[i])
  {
  }

  /** And a background's: its stretch, its delay on the timeline, and full volume. */
  lemma {:induction false} BackgroundCarriesTheSection(section: AudioSection, input: nat)
    ensures var a := AudioCutOf(section, input);
      && a.input == input && a.from == section.sourceStart && a.offset == section.start && a.volume == 1
      && (section.start <= section.end && section.sourceStart + section.end - section.start < 0x1_0000_0000_0000_0000
          ==> a.to - a.from == section.end - section.start)
  {
  }

  /** Every input index of the graph is below `n`. */
  ghost predicate InputsBelow(graph: seq<Chain>, n: nat) {
    forall i | 0 <= i < |graph| ::
      match graph[i]
      case TrimVideo(input, _, _, _, _) => input < n
      case TrimAudio(input, _, _, _) => input < n
      case Background(input, _, _, _, _, _) => input < n
      case _ => true
  }

  lemma {:induction false} CutInputsBelow(cuts: seq<VideoCut>, n: nat)
    requires forall k | 0 <= k < |cuts| :: cuts[k].input < n
    ensures InputsBelow(CutChains(cuts), n)
  {
    if cuts != [] {
      CutInputsBelow(cuts[..|cuts| - 1], n);
    }
  }

  lemma {:induction false} BackgroundInputsBelow(audios: seq<AudioCut>, n: nat)
    requires forall k | 0 <= k < |audios| :: audios[k].input < n
    ensures InputsBelow(BackgroundChains(audios), n)
  {
    if audios != [] {
      BackgroundInputsBelow(audios[..|audios| - 1], n);
    }
  }

  lemma {:induction false} GraphInputsBelow(cuts: seq<VideoCut>, audios: seq<AudioCut>, n: nat)
    requires forall k | 0 <= k < |cuts| :: cuts[k].input < n
    requires forall k | 0 <= k < |audios| :: audios[k].input < n
    ensures InputsBelow(GraphOf(cuts, audios), n)
  {
    CutInputsBelow(cuts, n);
    BackgroundInputsBelow(audios, n);
    var main := CutChains(cuts) + [Concat(ConcatInputs(|cuts|), |cuts|, Video, VideoAudio)];
    assert InputsBelow(main, n);
    if audios != [] {
      assert InputsBelow(main + BackgroundChains(audios), n);
    }
  }

  /** The graph is that of the state's sections, each taking the input that is its own asset. */
  ghost predicate GraphOfState(state: State, graph: seq<Chain>)
    requires EffectsKnown(state.video)
  {
    exists cuts, audios ::
      && CutsOf(state.video, InputsOf(state), cuts) && AudioCutsOf(state.audio, InputsOf(state), audios)
      && graph == GraphOf(cuts, audios)
  }

  /**
   The two steps of an export: whatever the state's times and flags, a command is built exactly when the
   builder can be prepared, and then its graph is closed and its inputs are the signed assets.
   */
  method ExportCommand(state: State, sign: Signer, outputFp: string) returns (r: Result<Command, Error>)
    ensures r.Ok? <==> CanSign(state, sign) && EffectsKnown(state.video) && state.video != []
    ensures r.Err? ==> r.error == if !CanSign(state, sign) then SigningFailed
                                  else if !EffectsKnown(state.video) then UnsupportedEffect
                                  else if state.audio == [] then NotReady else NoCuts
    ensures r.Ok? ==> Closed(r.value.graph, r.value.maps) && GraphOfState(state, r.value.graph)
    ensures r.Ok? ==> SignedBy(state, sign, InputsOf(state), r.value.inputs)
    ensures r.Ok? ==> InputsBelow(r.value.graph, |r.value.inputs|) && r.value.output == outputFp
  {
    var builder, err := PrepareExporter(state, sign, outputFp);
    if err.Some? {
      return Err(err.value);
    }
    r := builder.BuildExportCommand();
    GraphIsClosed(builder.cuts, builder.audios);
    GraphInputsBelow(builder.cuts, builder.audios, |builder.inputsUrls|);
  }
}
