/** The export builder: from the editor's state to an ffmpeg command. */
module VideoExport {
  import opened GoInts
  import opened Wrappers
  import opened Playback
  import opened FilterGraph

  datatype VideoCut = VideoCut(input: nat, from: int, to: int, includeAudio: bool, effects: seq<string>)

  datatype AudioCut = AudioCut(input: nat, from: int, to: int, offset: nat, volume: int)

  datatype Error =
    | NotReady | AlreadyReady | NoInputs | NoCuts | UnknownAsset | TooManyUrls | UnsupportedEffect | SigningFailed

  /** The ffmpeg invocation: inputs, filter graph, mapped labels, output file. */
  datatype Command = Command(inputs: seq<string>, graph: seq<Chain>, maps: seq<Label>, output: string)

  // ---- the graph of a list of cuts ----

  function CutChains(cuts: seq<VideoCut>): seq<Chain> {
    if cuts == [] then []
    else
      CutChains(cuts[..|cuts| - 1]) + ChainsOf(cuts[|cuts| - 1], |cuts| - 1)
  }

  /** The two chains cut `k` contributes. */
  function ChainsOf(cut: VideoCut, k: nat): seq<Chain> {
    [TrimVideo(cut.input, cut.from, cut.to, cut.effects, CutVideo(k)),
     if cut.includeAudio then TrimAudio(cut.input, cut.from, cut.to, CutAudio(k))
     else Silence(cut.to - cut.from, CutAudio(k))]
  }

  lemma {:induction false} CutChainsStep(cuts: seq<VideoCut>, k: nat)
    requires k < |cuts|
    ensures CutChains(cuts[..k + 1]) == CutChains(cuts[..k]) + ChainsOf(cuts[k], k)
  {
    assert cuts[..k + 1][..k] == cuts[..k];
  }

  function ConcatInputs(n: nat): (ins: seq<Label>)
    ensures |ins| == 2 * n
    ensures forall k: nat | k < n :: ins[2 * k] == CutVideo(k) && ins[2 * k + 1] == CutAudio(k)
  {
    if n == 0 then [] else ConcatInputs(n - 1) + [CutVideo(n - 1), CutAudio(n - 1)]
  }

  function BackgroundChains(audios: seq<AudioCut>): seq<Chain> {
    if audios == [] then []
    else
      var k := |audios| - 1;
      var a := audios[k];
      BackgroundChains(audios[..k]) + [Background(a.input, a.from, a.to, a.volume, a.offset, BackgroundAudio(k))]
  }

  function MixInputs(n: nat): (ins: seq<Label>)
    ensures |ins| == n + 1 && ins[0] == VideoAudio
    ensures forall k: nat | k < n :: ins[k + 1] == BackgroundAudio(k)
  {
    [VideoAudio] + seq(n, k requires 0 <= k => BackgroundAudio(k))
  }

  lemma {:induction false} MixInputsStep(n: nat)
    ensures MixInputs(n + 1) == MixInputs(n) + [BackgroundAudio(n)]
  {
    var longer, shorter := MixInputs(n + 1), MixInputs(n);
    forall k: nat | 0 < k <= n
      ensures longer[k] == shorter[k]
    {
      assert longer[k - 1 + 1] == BackgroundAudio(k - 1) && shorter[k - 1 + 1] == BackgroundAudio(k - 1);
    }
  }

  function GraphOf(cuts: seq<VideoCut>, audios: seq<AudioCut>): seq<Chain> {
    var main := CutChains(cuts) + [Concat(ConcatInputs(|cuts|), |cuts|, Video, VideoAudio)];
    if audios == [] then main
    else main + BackgroundChains(audios) + [Mix(MixInputs(|audios|), |audios| + 1, Audio)]
  }

  function AudioLabel(audios: seq<AudioCut>): Label {
    if audios == [] then VideoAudio else Audio
  }

  class VideoExportBuilder {
    var assetIdIndexLookup: map<string, nat>
    var inputsUrls: seq<string>
    var cuts: seq<VideoCut>
    var audios: seq<AudioCut>
    var outputFp: string
    var ready: bool

    constructor Init()
      ensures assetIdIndexLookup == map[] && inputsUrls == [] && cuts == [] && audios == [] && !ready
    {
      assetIdIndexLookup, inputsUrls, cuts, audios, outputFp, ready := map[], [], [], [], "", false;
    }

    /** A ready builder has cuts; cuts come after inputs, audios after cuts. */
    ghost predicate Valid()
      reads this
    {
      (ready ==> cuts != []) && (audios != [] ==> cuts != []) && (inputsUrls == [] ==> cuts == [])
    }

    method SetInputs(inputUrls: seq<string>, lookupMap: map<string, nat>) returns (err: Option<Error>)
      requires Valid()
      modifies this`inputsUrls, this`assetIdIndexLookup
      ensures err == if |inputUrls| > |lookupMap| then Some(TooManyUrls) else if ready then Some(AlreadyReady) else None
      ensures err.None? ==> inputsUrls == inputUrls && assetIdIndexLookup == lookupMap
      ensures err.Some? ==> inputsUrls == old(inputsUrls) && assetIdIndexLookup == old(assetIdIndexLookup)
      ensures inputUrls != [] || cuts == [] ==> Valid()
    {
      if |inputUrls| > |lookupMap| {
        return Some(TooManyUrls);
      }
      if ready {
        return Some(AlreadyReady);
      }
      inputsUrls := inputUrls;
      assetIdIndexLookup := lookupMap;
      return None;
    }

    method AppendVideoCut(assetId: string, from: int, to: int, includeAudio: bool, effects: seq<string>)
      returns (err: Option<Error>)
      requires Valid()
      modifies this`cuts
      ensures Valid()
      ensures err == if inputsUrls == [] then Some(NoInputs) else if ready then Some(AlreadyReady)
                     else if assetId !in assetIdIndexLookup then Some(UnknownAsset) else None
      ensures cuts == if err.Some? then old(cuts)
                      else old(cuts) + [VideoCut(assetIdIndexLookup[assetId], from, to, includeAudio, effects)]
    {
      if |inputsUrls| < 1 {
        return Some(NoInputs);
      }
      if ready {
        return Some(AlreadyReady);
      }
      if assetId !in assetIdIndexLookup {
        return Some(UnknownAsset);
      }
      cuts := cuts + [VideoCut(assetIdIndexLookup[assetId], from, to, includeAudio, effects)];
      return None;
    }

    method AddBackgroundAudio(assetId: string, from: int, to: int, offset: nat, volume: int)
      returns (err: Option<Error>)
      requires Valid()
      modifies this`audios
      ensures Valid()
      ensures err == if cuts == [] then Some(NoCuts) else if ready then Some(AlreadyReady)
                     else if assetId !in assetIdIndexLookup then Some(UnknownAsset) else None
      ensures audios == if err.Some? then old(audios)
                        else old(audios) + [AudioCut(assetIdIndexLookup[assetId], from, to, offset, volume)]
    {
      if |cuts| < 1 {
        return Some(NoCuts);
      }
      if ready {
        return Some(AlreadyReady);
      }
      if assetId !in assetIdIndexLookup {
        return Some(UnknownAsset);
      }
      audios := audios + [AudioCut(assetIdIndexLookup[assetId], from, to, offset, volume)];
      return None;
    }

    method SetOutputPath(fp: string) returns (err: Option<Error>)
      requires Valid()
      modifies this`outputFp, this`ready
      ensures Valid()
      ensures err == if cuts == [] then Some(NoCuts) else if old(ready) then Some(AlreadyReady) else None
      ensures err.None? ==> ready && outputFp == fp
      ensures err.Some? ==> ready == old(ready) && outputFp == old(outputFp)
    {
      if |cuts| < 1 {
        return Some(NoCuts);
      }
      if ready {
        return Some(AlreadyReady);
      }
      outputFp := fp;
      ready := true;
      return None;
    }

    method BuildExportCommand() returns (r: Result<Command, Error>)
      requires Valid()
      ensures r == if ready
                   then Ok(Command(inputsUrls, GraphOf(cuts, audios), [Video, AudioLabel(audios)], outputFp))
                   else Err(NotReady)
    {
      if !ready {
        return Err(NotReady);
      }
      var filterGraph: seq<Chain> := [];
      for cutIdx := 0 to |cuts|
        invariant filterGraph == CutChains(cuts[..cutIdx])
      {
        CutChainsStep(cuts, cutIdx);
        var cut := cuts[cutIdx];
        filterGraph := filterGraph + [TrimVideo(cut.input, cut.from, cut.to, cut.effects, CutVideo(cutIdx))];
        if !cut.includeAudio {
          filterGraph := filterGraph + [Silence(cut.to - cut.from, CutAudio(cutIdx))];
          continue;
        }
        filterGraph := filterGraph + [TrimAudio(cut.input, cut.from, cut.to, CutAudio(cutIdx))];
      }
      assert cuts[..|cuts|] == cuts;
      var ins: seq<Label> := [];
      for cutIdx := 0 to |cuts|
        invariant ins == ConcatInputs(cutIdx)
      {
        ins := ins + [CutVideo(cutIdx), CutAudio(cutIdx)];
      }
      filterGraph := filterGraph + [Concat(ins, |cuts|, Video, VideoAudio)];
      var audioLabel;
      filterGraph, audioLabel := AddBackground(filterGraph);
      return Ok(Command(inputsUrls, filterGraph, [Video, audioLabel], outputFp));
    }

    /** The part of the command for background audio. */
    method AddBackground(main: seq<Chain>) returns (filterGraph: seq<Chain>, audioLabel: Label)
      ensures filterGraph == if audios == [] then main
                             else main + BackgroundChains(audios) + [Mix(MixInputs(|audios|), |audios| + 1, Audio)]
      ensures audioLabel == AudioLabel(audios)
    {
      filterGraph, audioLabel := main, VideoAudio;
      if |audios| > 0 {
        for audioIdx := 0 to |audios|
          invariant filterGraph == main + BackgroundChains(audios[..audioIdx])
        {
          assert audios[..audioIdx + 1][..audioIdx] == audios[..audioIdx];
          var audio := audios[audioIdx];
          filterGraph := filterGraph
            + [Background(audio.input, audio.from, audio.to, audio.volume, audio.offset, BackgroundAudio(audioIdx))];
        }
        assert audios[..|audios|] == audios;
        var mixed := [VideoAudio];
        for audioIdx := 0 to |audios|
          invariant mixed == MixInputs(audioIdx)
        {
          MixInputsStep(audioIdx);
          mixed := mixed + [BackgroundAudio(audioIdx)];
        }
        filterGraph := filterGraph + [Mix(mixed, |audios| + 1, Audio)];
        audioLabel := Audio;
      }
    }
  }

  // ---- from the state to the builder ----

  datatype MediaKind = VideoAsset | AudioAsset

  /** What the object store answers when asked for a signed URL; a missing entry is an error. */
  type Signer = map<(string, MediaKind), string>

  function Sign(sign: Signer, id: string, kind: MediaKind): Option<string> {
    if (id, kind) in sign then Some(sign[(id, kind)]) else None
  }

  function VideoIds(sections: seq<VideoSection>): seq<string> {
    seq(|sections|, i requires 0 <= i < |sections| => sections[i].asset)
  }

  function AudioIds(sections: seq<AudioSection>): seq<string> {
    seq(|sections|, i requires 0 <= i < |sections| => sections[i].asset)
  }

  /** The ids of the state's sections, video first. */
  function SectionIds(state: State): seq<string> {
    VideoIds(state.video) + AudioIds(state.audio)
  }

  function AddDistinct(inputs: seq<string>, id: string): seq<string> {
    if id in inputs then inputs else inputs + [id]
  }

  /** `inputs`, extended by the ids not yet listed, each at its first occurrence. */
  function AddAll(inputs: seq<string>, ids: seq<string>): seq<string> {
    if ids == [] then inputs else AddDistinct(AddAll(inputs, ids[..|ids| - 1]), ids[|ids| - 1])
  }

  /** The input assets of a state, in order of first use. */
  function InputsOf(state: State): seq<string> {
    AddAll(AddAll([], VideoIds(state.video)), AudioIds(state.audio))
  }

  /** No id is lost or listed twice. */
  lemma {:induction false} AddAllMeaning(inputs: seq<string>, ids: seq<string>)
    requires forall i, j | 0 <= i < j < |inputs| :: inputs[i] != inputs[j]
    ensures forall id :: id in AddAll(inputs, ids) <==> id in inputs || id in ids
    ensures forall i, j | 0 <= i < j < |AddAll(inputs, ids)| :: AddAll(inputs, ids)[i] != AddAll(inputs, ids)[j]
  {
    if ids != [] {
      AddAllMeaning(inputs, ids[..|ids| - 1]);
      assert ids == ids[..|ids| - 1] + [ids[|ids| - 1]];
    }
  }

  /** The inputs are the assets of the sections, each once. */
  lemma {:induction false} InputsAreTheAssets(state: State)
    ensures forall id :: id in InputsOf(state) <==> id in SectionIds(state)
    ensures forall i, j | 0 <= i < j < |InputsOf(state)| :: InputsOf(state)[i] != InputsOf(state)[j]
  {
    AddAllMeaning([], VideoIds(state.video));
    AddAllMeaning(AddAll([], VideoIds(state.video)), AudioIds(state.audio));
  }

  /** They come in the order in which the sections first use them. */
  lemma {:induction false} FirstUses(ids: seq<string>, i: nat)
    requires i < |ids| && ids[i] !in ids[..i]
    ensures var k := |AddAll([], ids[..i])|; k < |AddAll([], ids)| && AddAll([], ids)[k] == ids[i]
    decreases |ids|
  {
    var n := |ids| - 1;
    if i < n {
      assert ids[..n][..i] == ids[..i];
      FirstUses(ids[..n], i);
    } else {
      AddAllMeaning([], ids[..n]);
    }
  }

  lemma {:induction false} AddAllTwice(ids: seq<string>, more: seq<string>)
    ensures AddAll(AddAll([], ids), more) == AddAll([], ids + more)
  {
    if more == [] {
      assert ids + more == ids;
    } else {
      var n := |more| - 1;
      AddAllTwice(ids, more[..n]);
      assert (ids + more)[..|ids| + n] == ids + more[..n];
    }
  }

  lemma {:induction false} InputsInOrderOfFirstUse(state: State, i: nat)
    requires i < |SectionIds(state)| && SectionIds(state)[i] !in SectionIds(state)[..i]
    ensures var k := |AddAll([], SectionIds(state)[..i])|;
      k < |InputsOf(state)| && InputsOf(state)[k] == SectionIds(state)[i]
  {
    AddAllTwice(VideoIds(state.video), AudioIds(state.audio));
    FirstUses(SectionIds(state), i);
  }

  /** An asset is signed as a video when any video section uses it. */
  function KindOf(state: State, id: string): MediaKind {
    if id in VideoIds(state.video) then VideoAsset else AudioAsset
  }

  function EffectClauses(effects: seq<Effect>): seq<string>
    requires forall i | 0 <= i < |effects| :: effects[i].Clause?
  {
    seq(|effects|, i requires 0 <= i < |effects| => effects[i].text)
  }

  /** The cut of a section, once its asset has an input index; times in `uint64` arithmetic. */
  function CutOf(section: VideoSection, input: nat): VideoCut
    requires forall i | 0 <= i < |section.effects| :: section.effects[i].Clause?
  {
    VideoCut(input, section.sourceStart, ToUint64(section.sourceStart + ToUint64(section.end - section.start)),
             section.hasAudio, EffectClauses(section.effects))
  }

  function AudioCutOf(section: AudioSection, input: nat): AudioCut {
    AudioCut(input, section.sourceStart, ToUint64(ToUint64(section.end - section.start) + section.sourceStart),
             section.start, 1)
  }

  ghost predicate EffectsKnown(sections: seq<VideoSection>) {
    forall i | 0 <= i < |sections| ::
      forall k | 0 <= k < |sections[i].effects| :: sections[i].effects[k].Clause?
  }

  /** The cuts of the sections, with indices into the given list of input assets. */
  ghost predicate CutsOf(sections: seq<VideoSection>, inputs: seq<string>, cuts: seq<VideoCut>)
    requires EffectsKnown(sections)
  {
    |cuts| == |sections| && forall i | 0 <= i < |cuts| ::
      && cuts[i].input < |inputs| && inputs[cuts[i].input] == sections[i].asset
      && cuts[i] == CutOf(sections[i], cuts[i].input)
  }

  ghost predicate AudioCutsOf(sections: seq<AudioSection>, inputs: seq<string>, audios: seq<AudioCut>) {
    |audios| == |sections| && forall i | 0 <= i < |audios| ::
      && audios[i].input < |inputs| && inputs[audios[i].input] == sections[i].asset
      && audios[i] == AudioCutOf(sections[i], audios[i].input)
  }

  /** Every id of `inputs` can be signed, and `urls` lists the signatures. */
  ghost predicate SignedBy(state: State, sign: Signer, inputs: seq<string>,
                           urls: seq<string>)
  {
    |urls| == |inputs| && forall k | 0 <= k < |urls| :: Sign(sign, inputs[k], KindOf(state, inputs[k])) == Some(urls[k])
  }

  ghost predicate CanSign(state: State, sign: Signer) {
    forall id | id in SectionIds(state) :: Sign(sign, id, KindOf(state, id)).Some?
  }

  /** Some video section uses the asset. */
  predicate UsedInVideo(state: State, id: string) {
    exists i :: 0 <= i < |state.video| && state.video[i].asset == id
  }

  predicate UsedInAudio(state: State, id: string) {
    exists i :: 0 <= i < |state.audio| && state.audio[i].asset == id
  }

  /** All can be signed exactly when the store answers for each asset as a video, or as audio if only audio uses it. */
  lemma {:induction false} CanSignIff(state: State, sign: Signer)
    ensures CanSign(state, sign) <==>
      && (forall id | UsedInVideo(state, id) :: (id, VideoAsset) in sign)
      && (forall id | UsedInAudio(state, id) && !UsedInVideo(state, id) :: (id, AudioAsset) in sign)
  {
    forall id
      ensures UsedInVideo(state, id) <==> id in VideoIds(state.video)
      ensures UsedInAudio(state, id) <==> id in AudioIds(state.audio)
    {
      UsedAre(state, id);
    }
    forall id
      ensures Sign(sign, id, KindOf(state, id)).Some?
              <==> (id, if UsedInVideo(state, id) then VideoAsset else AudioAsset) in sign
    {
    }
    forall id
      ensures id in SectionIds(state) <==> UsedInVideo(state, id) || UsedInAudio(state, id)
    {
    }
  }

  lemma {:induction false} UsedAre(state: State, id: string)
    ensures UsedInVideo(state, id) <==> id in VideoIds(state.video)
    ensures UsedInAudio(state, id) <==> id in AudioIds(state.audio)
  {
    assert forall i | 0 <= i < |state.video| :: VideoIds(state.video)[i] == state.video[i].asset;
    assert forall i | 0 <= i < |state.audio| :: AudioIds(state.audio)[i] == state.audio[i].asset;
  }

  /** The URL of each input is the one signed for that use. */
  lemma {:induction false} UrlsAreSigned(state: State, sign: Signer, urls: seq<string>, k: nat)
    requires SignedBy(state, sign, InputsOf(state), urls) && k < |urls|
    ensures var id := InputsOf(state)[k];
      var use := (id, if UsedInVideo(state, id) then VideoAsset else AudioAsset);
      use in sign && urls[k] == sign[use]
  {
    UsedAre(state, InputsOf(state)[k]);
  }

  /** `resolveEffects`. */
  method ResolveEffects(effects: seq<Effect>) returns (r: Option<seq<string>>)
    ensures r.Some? <==> forall k | 0 <= k < |effects| :: effects[k].Clause?
    ensures r.Some? ==> r.value == EffectClauses(effects)
  {
    var clauses: seq<string> := [];
    for k := 0 to |effects|
      invariant |clauses| == k && forall j | 0 <= j < k :: effects[j].Clause? && clauses[j] == effects[j].text
    {
      if effects[k].UnknownEffect? {
        return None;
      }
      clauses := clauses + [effects[k].text];
    }
    return Some(clauses);
  }

  /** `lookup` maps exactly the listed ids, each to its place in the list. */
  ghost predicate IndexesOf(inputs: seq<string>, lookup: map<string, nat>) {
    && (forall id :: id in lookup <==> id in inputs)
    && (forall id | id in lookup :: lookup[id] < |inputs| && inputs[lookup[id]] == id)
    && |lookup| == |inputs|
  }

  /** The URLs and the lookup table for the given inputs. */
  ghost predicate Collected(state: State, sign: Signer, inputs: seq<string>, urls: seq<string>, lookup: map<string,
          nat>) {
    SignedBy(state, sign, inputs, urls) && IndexesOf(inputs, lookup)
  }

  /** The loops of step 1 of `PrepareExporter`: sign each asset unless it has been seen. */
  method AddInputs(ghost state: State, ghost inputs: seq<string>, ids: seq<string>, kind: MediaKind,
                   sign: Signer, urls: seq<string>, lookup: map<string, nat>)
    returns (ok: bool, urls': seq<string>, lookup': map<string, nat>)
    requires Collected(state, sign, inputs, urls, lookup)
    requires forall i | 0 <= i < |ids| :: ids[i] in inputs || KindOf(state, ids[i]) == kind
    ensures ok ==> Collected(state, sign, AddAll(inputs, ids), urls', lookup')
    ensures !ok ==> exists i :: 0 <= i < |ids| && Sign(sign, ids[i], KindOf(state, ids[i])).None?
  {
    urls', lookup', ok := urls, lookup, true;
    ghost var listed := inputs;
    for i := 0 to |ids|
      invariant listed == AddAll(inputs, ids[..i]) && forall id | id in inputs :: id in listed
      invariant Collected(state, sign, listed, urls', lookup')
    {
      assert ids[..i + 1][..i] == ids[..i];
      ok, urls', lookup' := AddInput(state, listed, ids[i], kind, sign, urls', lookup');
      if !ok {
        return;
      }
      listed := AddDistinct(listed, ids[i]);
    }
    assert ids[..|ids|] == ids;
    ok := true;
  }

  /** One turn of those loops. */
  method AddInput(ghost state: State, ghost inputs: seq<string>, id: string, kind: MediaKind,
                  sign: Signer, urls: seq<string>, lookup: map<string, nat>)
    returns (ok: bool, urls': seq<string>, lookup': map<string, nat>)
    requires Collected(state, sign, inputs, urls, lookup)
    requires id in inputs || KindOf(state, id) == kind
    ensures ok ==> Collected(state, sign, AddDistinct(inputs, id), urls', lookup')
    ensures !ok ==> Sign(sign, id, KindOf(state, id)).None?
  {
    urls', lookup', ok := urls, lookup, true;
    if id !in lookup {
      var url := Sign(sign, id, kind);
      if url.None? {
        return false, urls, lookup;
      }
      urls' := urls + [url.value];
      lookup' := lookup[id := |urls'| - 1];
    }
  }

  /** Step 1 of `PrepareExporter`: one signed URL per distinct asset. */
  method CollectInputs(state: State, sign: Signer)
    returns (ok: bool, urls: seq<string>, lookup: map<string, nat>)
    ensures ok <==> CanSign(state, sign)
    ensures ok ==> Collected(state, sign, InputsOf(state), urls, lookup)
  {
    ok, urls, lookup := AddInputs(state, [], VideoIds(state.video), VideoAsset, sign, [], map[]);
    if !ok {
      return;
    }
    VideosComeFirst(state);
    ok, urls, lookup := AddInputs(state, AddAll([], VideoIds(state.video)), AudioIds(state.audio), AudioAsset, sign,
        urls, lookup);
    if ok {
      AllSigned(state, sign, urls);
    }
  }

  lemma {:induction false} VideosComeFirst(state: State)
    ensures forall id :: id in AddAll([], VideoIds(state.video)) <==> KindOf(state, id) == VideoAsset
  {
    AddAllMeaning([], VideoIds(state.video));
  }

  lemma {:induction false} AllSigned(state: State, sign: Signer, urls: seq<string>)
    requires SignedBy(state, sign, InputsOf(state), urls)
    ensures CanSign(state, sign)
  {
    InputsAreTheAssets(state);
    forall id | id in SectionIds(state) ensures Sign(sign, id, KindOf(state, id)).Some? {
      assert id in InputsOf(state);
    }
  }

  /** Step 2 of `PrepareExporter`. */
  method AppendCuts(builder: VideoExportBuilder, sections: seq<VideoSection>, ghost inputs: seq<string>)
    returns (err: Option<Error>)
    requires builder.Valid() && !builder.ready && builder.cuts == [] && builder.audios == []
    requires IndexesOf(inputs, builder.assetIdIndexLookup) && |builder.inputsUrls| == |inputs|
    requires forall i | 0 <= i < |sections| :: sections[i].asset in inputs
    modifies builder`cuts
    ensures builder.Valid()
    ensures err == if EffectsKnown(sections) then None else Some(UnsupportedEffect)
    ensures err.None? ==> CutsOf(sections, inputs, builder.cuts)
  {
    for i := 0 to |sections|
      invariant builder.Valid()
      invariant EffectsKnown(sections[..i])
      invariant CutsOf(sections[..i], inputs, builder.cuts)
    {
      var section := sections[i];
      assert section.asset in inputs;
      assert sections[..i + 1] == sections[..i] + [section];
      var effects := ResolveEffects(section.effects);
      if effects.None? {
        return Some(UnsupportedEffect);
      }
      CutsStep(sections[..i], inputs, builder.cuts, section, builder.assetIdIndexLookup[section.asset]);
      err := AppendCut(builder, section, effects.value);
      if err.Some? {
        return;
      }
    }
    assert sections[..|sections|] == sections;
    return None;
  }

  /** One turn of that loop. */
  method AppendCut(builder: VideoExportBuilder, section: VideoSection, effects: seq<string>)
    returns (err: Option<Error>)
    requires builder.Valid() && !builder.ready && builder.inputsUrls != []
    requires section.asset in builder.assetIdIndexLookup
    requires forall k | 0 <= k < |section.effects| :: section.effects[k].Clause?
    requires effects == EffectClauses(section.effects)
    modifies builder`cuts
    ensures builder.Valid() && err.None?
    ensures builder.cuts == old(builder.cuts) + [CutOf(section, builder.assetIdIndexLookup[section.asset])]
  {
    var to := ToUint64(section.sourceStart + ToUint64(section.end - section.start));
    err := builder.AppendVideoCut(section.asset, section.sourceStart, to, section.hasAudio, effects);
  }

  lemma {:induction false} CutsStep(sections: seq<VideoSection>, inputs: seq<string>, cuts: seq<VideoCut>,
          section: VideoSection, input: nat)
    requires EffectsKnown(sections) && CutsOf(sections, inputs, cuts)
    requires forall k | 0 <= k < |section.effects| :: section.effects[k].Clause?
    requires input < |inputs| && inputs[input] == section.asset
    ensures EffectsKnown(sections + [section])
    ensures CutsOf(sections + [section], inputs, cuts + [CutOf(section, input)])
  {
  }

  /** Step 3 of `PrepareExporter`; without video cuts the first audio is refused. */
  method AddAudios(builder: VideoExportBuilder, sections: seq<AudioSection>, ghost inputs: seq<string>)
    returns (err: Option<Error>)
    requires builder.Valid() && !builder.ready && builder.audios == []
    requires IndexesOf(inputs, builder.assetIdIndexLookup)
    requires forall i | 0 <= i < |sections| :: sections[i].asset in inputs
    modifies builder`audios
    ensures builder.Valid()
    ensures err == if sections == [] || builder.cuts != [] then None else Some(NoCuts)
    ensures err.None? ==> AudioCutsOf(sections, inputs, builder.audios)
  {
    for i := 0 to |sections|
      invariant builder.Valid() && (i > 0 ==> builder.cuts != [])
      invariant AudioCutsOf(sections[..i], inputs, builder.audios)
    {
      assert sections[i].asset in inputs;
      var input := builder.assetIdIndexLookup[sections[i].asset];
      AudioCutsStep(sections[..i], inputs, builder.audios, sections[i], input);
      assert sections[..i + 1] == sections[..i] + [sections[i]];
      err := AddAudio(builder, sections[i]);
      if err.Some? {
        return;
      }
    }
    assert sections[..|sections|] == sections;
    return None;
  }

  lemma {:induction false} AudioCutsStep(sections: seq<AudioSection>, inputs: seq<string>, audios: seq<AudioCut>,
                                         section: AudioSection, input: nat)
    requires AudioCutsOf(sections, inputs, audios) && input < |inputs| && inputs[input] == section.asset
    ensures AudioCutsOf(sections + [section], inputs, audios + [AudioCutOf(section, input)])
  {
  }

  /** One turn of that loop. */
  method AddAudio(builder: VideoExportBuilder, section: AudioSection) returns (err: Option<Error>)
    requires builder.Valid() && !builder.ready && section.asset in builder.assetIdIndexLookup
    modifies builder`audios
    ensures builder.Valid()
    ensures err == if builder.cuts == [] then Some(NoCuts) else None
    ensures err.None? ==>
      builder.audios == old(builder.audios) + [AudioCutOf(section, builder.assetIdIndexLookup[section.asset])]
  {
    var to := ToUint64(ToUint64(section.end - section.start) + section.sourceStart);
    err := builder.AddBackgroundAudio(section.asset, section.sourceStart, to, section.start, 1);
  }

  /** `PrepareExporter`. */
  method PrepareExporter(state: State, sign: Signer, outputFp: string)
    returns (builder: VideoExportBuilder, err: Option<Error>)
    ensures fresh(builder) && builder.Valid()
    ensures err == if !CanSign(state, sign) then Some(SigningFailed)
                   else if !EffectsKnown(state.video) then Some(UnsupportedEffect)
                   else if state.video == [] then Some(if state.audio == [] then NotReady else NoCuts)
                   else None
    ensures err.None? ==> builder.ready && builder.outputFp == outputFp
    ensures err.None? ==> SignedBy(state, sign, InputsOf(state), builder.inputsUrls)
    ensures err.None? ==> CutsOf(state.video, InputsOf(state), builder.cuts)
    ensures err.None? ==> AudioCutsOf(state.audio, InputsOf(state), builder.audios)
  {
    builder := new VideoExportBuilder.Init();
    ghost var inputs := InputsOf(state);
    var ok, urls, lookup := CollectInputs(state, sign);
    if !ok {
      return builder, Some(SigningFailed);
    }
    SectionsAreInputs(state);
    err := builder.SetInputs(urls, lookup);
    if err.Some? {
      return;
    }
    err := AppendCuts(builder, state.video, inputs);
    if err.Some? {
      return;
    }
    err := AddAudios(builder, state.audio, inputs);
    if err.Some? {
      return;
    }
    var _ := builder.SetOutputPath(outputFp);
    if !builder.ready {
      return builder, Some(NotReady);
    }
    return builder, None;
  }

  lemma {:induction false} SectionsAreInputs(state: State)
    ensures forall i | 0 <= i < |state.video| :: state.video[i].asset in InputsOf(state)
    ensures forall i | 0 <= i < |state.audio| :: state.audio[i].asset in InputsOf(state)
  {
    InputsAreTheAssets(state);
    assert forall i | 0 <= i < |state.video| :: VideoIds(state.video)[i] == state.video[i].asset;
    assert forall i | 0 <= i < |state.audio| :: AudioIds(state.audio)[i] == state.audio[i].asset;
  }
}
