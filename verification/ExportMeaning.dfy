/** What the exporter's filter graph computes: every label is used once and two streams remain. */
module ExportMeaning {
  import opened Wrappers
  import opened Playback
  import opened FilterGraph
  import opened VideoExport

  const EMPTY := Bench(map[], {})

  /** The input of a cut exists and has the streams the graph takes from it. */
  predicate CutFits(inputs: seq<Source>, cut: VideoCut) {
    && cut.input < |inputs| && inputs[cut.input].hasVideo && 0 <= cut.from <= cut.to
    && (cut.includeAudio ==> inputs[cut.input].hasAudio)
  }

  predicate AudioFits(inputs: seq<Source>, a: AudioCut) {
    a.input < |inputs| && inputs[a.input].hasAudio && 0 <= a.from <= a.to
  }

  ghost predicate Fits(inputs: seq<Source>, cuts: seq<VideoCut>, audios: seq<AudioCut>) {
    && (forall k | 0 <= k < |cuts| :: CutFits(inputs, cuts[k]))
    && (forall k | 0 <= k < |audios| :: AudioFits(inputs, audios[k]))
  }

  function CutPictures(inputs: seq<Source>, cut: VideoCut): seq<Sample>
    requires CutFits(inputs, cut)
  {
    Clip(Samples(inputs[cut.input].asset, 0, inputs[cut.input].length), cut.from, cut.to)
  }

  function CutSound(inputs: seq<Source>, cut: VideoCut): seq<set<Sample>>
    requires CutFits(inputs, cut)
  {
    if cut.includeAudio then Clip(Tone(inputs[cut.input].asset, 0, inputs[cut.input].length), cut.from, cut.to)
    else Quiet(cut.to - cut.from)
  }

  /** The pictures of all cuts, one after the other. */
  function AllPictures(inputs: seq<Source>, cuts: seq<VideoCut>): seq<Sample>
    requires Fits(inputs, cuts, [])
  {
    if cuts == [] then []
    else AllPictures(inputs, cuts[..|cuts| - 1]) + CutPictures(inputs, cuts[|cuts| - 1])
  }

  /** The cuts' own sound, one after the other. */
  function AllSound(inputs: seq<Source>, cuts: seq<VideoCut>): seq<set<Sample>>
    requires Fits(inputs, cuts, [])
  {
    if cuts == [] then []
    else AllSound(inputs, cuts[..|cuts| - 1]) + CutSound(inputs, cuts[|cuts| - 1])
  }

  // ---- the cuts ----

  ghost function CutBench(inputs: seq<Source>, cuts: seq<VideoCut>): Bench
    requires Fits(inputs, cuts, [])
  {
    if cuts == [] then EMPTY
    else
      var k := |cuts| - 1;
      var b := CutBench(inputs, cuts[..k]);
      Bench(b.live[CutVideo(k) := Pictures(CutPictures(inputs, cuts[k]))][CutAudio(k) := Sound(CutSound(inputs,
          cuts[k]))],
            b.defined + {CutVideo(k)} + {CutAudio(k)})
  }

  ghost predicate HoldsCut(inputs: seq<Source>, cuts: seq<VideoCut>, live: map<Label, Stream>, k: nat)
    requires Fits(inputs, cuts, []) && k < |cuts|
  {
    && CutVideo(k) in live && live[CutVideo(k)] == Pictures(CutPictures(inputs, cuts[k]))
    && CutAudio(k) in live && live[CutAudio(k)] == Sound(CutSound(inputs, cuts[k]))
  }

  ghost predicate IsCutLabel(l: Label, n: nat) {
    (l.CutVideo? || l.CutAudio?) && l.k < n
  }

  lemma {:induction false} CutBenchHas(inputs: seq<Source>, cuts: seq<VideoCut>)
    requires Fits(inputs, cuts, [])
    ensures forall k: nat | k < |cuts| :: HoldsCut(inputs, cuts, CutBench(inputs, cuts).live, k)
    ensures forall l :: l in CutBench(inputs, cuts).defined <==> IsCutLabel(l, |cuts|)
    ensures forall l | l in CutBench(inputs, cuts).live :: IsCutLabel(l, |cuts|)
  {
    if cuts != [] {
      var n := |cuts| - 1;
      CutBenchHas(inputs, cuts[..n]);
      forall k: nat | k < |cuts| ensures HoldsCut(inputs, cuts, CutBench(inputs, cuts).live, k) {
        if k < n { assert HoldsCut(inputs, cuts[..n], CutBench(inputs, cuts[..n]).live, k); }
      }
    }
  }

  function VideoChain(cut: VideoCut, k: nat): Chain {
    TrimVideo(cut.input, cut.from, cut.to, cut.effects, CutVideo(k))
  }

  function SoundChain(cut: VideoCut, k: nat): Chain {
    if cut.includeAudio then TrimAudio(cut.input, cut.from, cut.to, CutAudio(k))
    else Silence(cut.to - cut.from, CutAudio(k))
  }

  lemma {:induction false} CutRuns(inputs: seq<Source>, b: Bench, cut: VideoCut, k: nat)
    requires CutFits(inputs, cut) && CutVideo(k) !in b.defined && CutAudio(k) !in b.defined
    ensures Run(inputs, b, [VideoChain(cut, k), SoundChain(cut, k)]) ==
            Some(Bench(b.live[CutVideo(k) := Pictures(CutPictures(inputs, cut))][CutAudio(k) := Sound(CutSound(inputs,
                cut))],
                       b.defined + {CutVideo(k)} + {CutAudio(k)}))
  {
    var middle := Bench(b.live[CutVideo(k) := Pictures(CutPictures(inputs, cut))], b.defined + {CutVideo(k)});
    RunOne(inputs, b, VideoChain(cut, k));
    RunOne(inputs, middle, SoundChain(cut, k));
    RunAppend(inputs, b, [VideoChain(cut, k)], [SoundChain(cut, k)]);
    assert [VideoChain(cut, k)] + [SoundChain(cut, k)] == [VideoChain(cut, k), SoundChain(cut, k)];
  }

  lemma {:induction false} CutsRun(inputs: seq<Source>, cuts: seq<VideoCut>)
    requires Fits(inputs, cuts, [])
    ensures Run(inputs, EMPTY, CutChains(cuts)) == Some(CutBench(inputs, cuts))
  {
    if cuts != [] {
      var n := |cuts| - 1;
      CutsRun(inputs, cuts[..n]);
      RunAppend(inputs, EMPTY, CutChains(cuts[..n]), ChainsOf(cuts[n], n));
      CutsRunNext(inputs, cuts);
    }
  }

  lemma {:induction false} CutsRunNext(inputs: seq<Source>, cuts: seq<VideoCut>)
    requires Fits(inputs, cuts, []) && cuts != []
    ensures var n := |cuts| - 1;
      Run(inputs, CutBench(inputs, cuts[..n]), ChainsOf(cuts[n], n)) == Some(CutBench(inputs, cuts))
  {
    var n := |cuts| - 1;
    CutBenchHas(inputs, cuts[..n]);
    CutRuns(inputs, CutBench(inputs, cuts[..n]), cuts[n], n);
    assert ChainsOf(cuts[n], n) == [VideoChain(cuts[n], n), SoundChain(cuts[n], n)];
  }

  /** The concat's inputs are live, pictures and sound in turn. */
  ghost predicate ConcatReady(live: map<Label, Stream>, n: nat) {
    && (forall k: nat | k < n :: ConcatInputs(n)[2 * k] in live && live[ConcatInputs(n)[2 * k]].Pictures?)
    && (forall k: nat | k < n :: ConcatInputs(n)[2 * k + 1] in live && live[ConcatInputs(n)[2 * k + 1]].Sound?)
  }

  lemma {:induction false} CutsAreReady(inputs: seq<Source>, cuts: seq<VideoCut>, live: map<Label, Stream>)
    requires Fits(inputs, cuts, [])
    requires forall k: nat | k < |cuts| :: HoldsCut(inputs, cuts, live, k)
    ensures ConcatReady(live, |cuts|)
  {
    var ins := ConcatInputs(|cuts|);
    forall k: nat | k < |cuts|
      ensures ins[2 * k] in live && live[ins[2 * k]].Pictures?
      ensures ins[2 * k + 1] in live && live[ins[2 * k + 1]].Sound?
    {
      assert HoldsCut(inputs, cuts, live, k);
    }
  }

  lemma {:induction false} AllStep(inputs: seq<Source>, cuts: seq<VideoCut>, k: nat)
    requires Fits(inputs, cuts, []) && k < |cuts|
    ensures AllPictures(inputs, cuts[..k + 1]) == AllPictures(inputs, cuts[..k]) + CutPictures(inputs, cuts[k])
    ensures AllSound(inputs, cuts[..k + 1]) == AllSound(inputs, cuts[..k]) + CutSound(inputs, cuts[k])
  {
    assert cuts[..k + 1][..k] == cuts[..k];
  }

  lemma {:induction false} ConcatIsAll(inputs: seq<Source>, cuts: seq<VideoCut>, live: map<Label, Stream>, n: nat)
    requires Fits(inputs, cuts, []) && n <= |cuts|
    requires ConcatReady(live, |cuts|) && forall k: nat | k < |cuts| :: HoldsCut(inputs, cuts, live, k)
    ensures ConcatPictures(ConcatInputs(|cuts|), live, n) == AllPictures(inputs, cuts[..n])
    ensures ConcatSound(ConcatInputs(|cuts|), live, n) == AllSound(inputs, cuts[..n])
  {
    var ins := ConcatInputs(|cuts|);
    if n > 0 {
      ConcatIsAll(inputs, cuts, live, n - 1);
      AllStep(inputs, cuts, n - 1);
      assert HoldsCut(inputs, cuts, live, n - 1);
      assert ins[2 * (n - 1)] == CutVideo(n - 1) && ins[2 * (n - 1) + 1] == CutAudio(n - 1);
    }
  }

  lemma {:induction false} ConcatInputsMeaning(n: nat)
    ensures AllDistinct(ConcatInputs(n))
    ensures forall l :: l in ConcatInputs(n) <==> IsCutLabel(l, n)
  {
    if n > 0 {
      var init := ConcatInputs(n - 1);
      ConcatInputsMeaning(n - 1);
      assert ConcatInputs(n) == init + [CutVideo(n - 1), CutAudio(n - 1)];
      forall i | 0 <= i < |init| ensures IsCutLabel(init[i], n - 1) { assert init[i] in init; }
    }
  }

  /** The bench after the concat: the two main streams and nothing else. */
  ghost function MainBench(inputs: seq<Source>, cuts: seq<VideoCut>): Bench
    requires Fits(inputs, cuts, [])
  {
    Bench(map[Video := Pictures(AllPictures(inputs, cuts)), VideoAudio := Sound(AllSound(inputs, cuts))],
          CutBench(inputs, cuts).defined + {Video} + {VideoAudio})
  }

  lemma {:induction false} ConcatConsumesAll(inputs: seq<Source>, cuts: seq<VideoCut>)
    requires Fits(inputs, cuts, [])
    ensures Consume(CutBench(inputs, cuts), ConcatInputs(|cuts|)) == Bench(map[], CutBench(inputs, cuts).defined)
  {
    CutBenchHas(inputs, cuts);
    ConcatInputsMeaning(|cuts|);
  }

  lemma {:induction false} ConcatRuns(inputs: seq<Source>, cuts: seq<VideoCut>)
    requires Fits(inputs, cuts, []) && cuts != []
    ensures Apply(inputs, CutBench(inputs, cuts), Concat(ConcatInputs(|cuts|), |cuts|, Video, VideoAudio))
            == Some(MainBench(inputs, cuts))
  {
    var b, ins := CutBench(inputs, cuts), ConcatInputs(|cuts|);
    CutBenchHas(inputs, cuts);
    assert Video !in b.defined && VideoAudio !in b.defined;
    CutsAreReady(inputs, cuts, b.live);
    ConcatIsAll(inputs, cuts, b.live, |cuts|);
    assert cuts[..|cuts|] == cuts;
    assert AllDistinct(ins) by { ConcatInputsMeaning(|cuts|); }
    ConcatConsumesAll(inputs, cuts);
    ApplyConcat(inputs, b, ins, |cuts|, AllPictures(inputs, cuts), AllSound(inputs, cuts));
  }

  lemma {:induction false} ApplyConcat(inputs: seq<Source>, b: Bench, ins: seq<Label>, n: nat, pictures: seq<Sample>,
          sound: seq<set<Sample>>)
    requires n >= 1 && |ins| == 2 * n && AllDistinct(ins)
    requires forall k: nat | k < n :: ins[2 * k] in b.live && b.live[ins[2 * k]].Pictures?
    requires forall k: nat | k < n :: ins[2 * k + 1] in b.live && b.live[ins[2 * k + 1]].Sound?
    requires ConcatPictures(ins, b.live, n) == pictures && ConcatSound(ins, b.live, n) == sound
    requires Video !in b.defined && VideoAudio !in b.defined
    requires Consume(b, ins) == Bench(map[], b.defined)
    ensures Apply(inputs, b, Concat(ins, n, Video, VideoAudio)) ==
            Some(Bench(map[Video := Pictures(pictures), VideoAudio := Sound(sound)], b.defined + {Video}
                + {VideoAudio}))
  {
  }

  lemma {:induction false} MainRun(inputs: seq<Source>, cuts: seq<VideoCut>)
    requires Fits(inputs, cuts, []) && cuts != []
    ensures Run(inputs, EMPTY, CutChains(cuts) + [Concat(ConcatInputs(|cuts|), |cuts|, Video, VideoAudio)])
            == Some(MainBench(inputs, cuts))
  {
    var concat := Concat(ConcatInputs(|cuts|), |cuts|, Video, VideoAudio);
    CutsRun(inputs, cuts);
    RunAppend(inputs, EMPTY, CutChains(cuts), [concat]);
    RunOne(inputs, CutBench(inputs, cuts), concat);
    ConcatRuns(inputs, cuts);
  }

  // ---- background audio ----

  function Delayed(inputs: seq<Source>, a: AudioCut): seq<set<Sample>>
    requires AudioFits(inputs, a)
  {
    Quiet(a.offset) + Clip(Tone(inputs[a.input].asset, 0, inputs[a.input].length), a.from, a.to)
  }

  ghost function BackBench(inputs: seq<Source>, main: Bench, audios: seq<AudioCut>): Bench
    requires Fits(inputs, [], audios)
  {
    if audios == [] then main
    else
      var k := |audios| - 1;
      var b := BackBench(inputs, main, audios[..k]);
      Bench(b.live[BackgroundAudio(k) := Sound(Delayed(inputs, audios[k]))], b.defined + {BackgroundAudio(k)})
  }

  ghost predicate IsBackLabel(l: Label, n: nat) {
    l.BackgroundAudio? && l.k < n
  }

  ghost predicate HoldsBack(inputs: seq<Source>, audios: seq<AudioCut>, live: map<Label, Stream>, k: nat)
    requires Fits(inputs, [], audios) && k < |audios|
  {
    BackgroundAudio(k) in live && live[BackgroundAudio(k)] == Sound(Delayed(inputs, audios[k]))
  }

  /** The labels of the main streams carry no background label. */
  ghost predicate NoBack(b: Bench) {
    forall l | l in b.live || l in b.defined :: !l.BackgroundAudio? && !l.Audio?
  }

  lemma {:induction false} BackBenchHas(inputs: seq<Source>, main: Bench, audios: seq<AudioCut>)
    requires Fits(inputs, [], audios) && NoBack(main)
    ensures var b := BackBench(inputs, main, audios);
      && (forall k: nat | k < |audios| :: HoldsBack(inputs, audios, b.live, k))
      && (forall l :: l in b.defined <==> l in main.defined || IsBackLabel(l, |audios|))
      && (forall l :: l in b.live <==> l in main.live || IsBackLabel(l, |audios|))
      && (forall l | l in main.live :: b.live[l] == main.live[l])
  {
    if audios != [] {
      var n := |audios| - 1;
      BackBenchHas(inputs, main, audios[..n]);
      forall k: nat | k < |audios| ensures HoldsBack(inputs, audios, BackBench(inputs, main, audios).live, k) {
        if k < n { assert HoldsBack(inputs, audios[..n], BackBench(inputs, main, audios[..n]).live, k); }
      }
    }
  }

  lemma {:induction false} BackRuns(inputs: seq<Source>, main: Bench, audios: seq<AudioCut>)
    requires Fits(inputs, [], audios) && NoBack(main)
    ensures Run(inputs, main, BackgroundChains(audios)) == Some(BackBench(inputs, main, audios))
  {
    if audios != [] {
      var n := |audios| - 1;
      var a := audios[n];
      var chain := Background(a.input, a.from, a.to, a.volume, a.offset, BackgroundAudio(n));
      var before := BackBench(inputs, main, audios[..n]);
      BackRuns(inputs, main, audios[..n]);
      assert BackgroundAudio(n) !in before.defined by {
        BackBenchHas(inputs, main, audios[..n]);
      }
      RunAppend(inputs, main, BackgroundChains(audios[..n]), [chain]);
      RunOne(inputs, before, chain);
    }
  }

  /** Background audio `a` sounds at `t`. */
  predicate SoundsAt(inputs: seq<Source>, a: AudioCut, t: nat)
    requires AudioFits(inputs, a)
  {
    a.offset <= t && t - a.offset + a.from < a.to && t - a.offset + a.from < inputs[a.input].length
  }

  function SampleAt(inputs: seq<Source>, a: AudioCut, t: nat): Sample
    requires AudioFits(inputs, a)
  {
    Sample(inputs[a.input].asset, t - a.offset + a.from)
  }

  lemma {:induction false} DelayedAt(inputs: seq<Source>, a: AudioCut, t: nat)
    requires AudioFits(inputs, a)
    ensures SoundsAt(inputs, a, t) ==>
      t < |Delayed(inputs, a)| && Delayed(inputs, a)[t] == {SampleAt(inputs, a, t)}
    ensures !SoundsAt(inputs, a, t) && t < |Delayed(inputs, a)| ==> Delayed(inputs, a)[t] == {}
  {
  }

  /** The background samples at `t`. */
  ghost function BackgroundAt(inputs: seq<Source>, audios: seq<AudioCut>, t: nat): set<Sample>
    requires Fits(inputs, [], audios)
  {
    set k: nat | k < |audios| && SoundsAt(inputs, audios[k], t) :: SampleAt(inputs, audios[k], t)
  }

  /** What is heard: at each moment the cuts' own sound together with the background audio. */
  ghost predicate Heard(inputs: seq<Source>, cuts: seq<VideoCut>, audios: seq<AudioCut>, heard: seq<set<Sample>>)
    requires Fits(inputs, cuts, []) && Fits(inputs, [], audios)
  {
    && |heard| == |AllSound(inputs, cuts)|
    && forall t: nat | t < |heard| :: heard[t] == AllSound(inputs, cuts)[t] + BackgroundAt(inputs, audios, t)
  }

  lemma {:induction false} MixedIsHeard(inputs: seq<Source>, cuts: seq<VideoCut>, audios: seq<AudioCut>,
          live: map<Label, Stream>, t: nat)
    requires Fits(inputs, cuts, []) && Fits(inputs, [], audios)
    requires VideoAudio in live && live[VideoAudio] == Sound(AllSound(inputs, cuts))
    requires forall k: nat | k < |audios| :: HoldsBack(inputs, audios, live, k)
    requires t < |AllSound(inputs, cuts)|
    ensures var ins := MixInputs(|audios|);
      && (forall k: nat | k < |ins| :: ins[k] in live && live[ins[k]].Sound?)
      && MixedAt(ins, live, t) == AllSound(inputs, cuts)[t] + BackgroundAt(inputs, audios, t)
  {
    var ins := MixInputs(|audios|);
    forall k: nat | k < |ins| ensures ins[k] in live && live[ins[k]].Sound? {
      if k > 0 { assert ins[(k - 1) + 1] == BackgroundAudio(k - 1) && HoldsBack(inputs, audios, live, k - 1); }
    }
    var mixed, own, back := MixedAt(ins, live, t), AllSound(inputs, cuts)[t], BackgroundAt(inputs, audios, t);
    forall x ensures x in mixed <==> x in own + back {
      if x in mixed {
        var k: nat :| k < |ins| && t < |live[ins[k]].heard| && x in live[ins[k]].heard[t];
        if k > 0 {
          assert ins[(k - 1) + 1] == BackgroundAudio(k - 1) && HoldsBack(inputs, audios, live, k - 1);
          DelayedAt(inputs, audios[k - 1], t);
        }
      }
      if x in own { assert x in live[ins[0]].heard[t]; }
      if x in back {
        var k: nat :| k < |audios| && SoundsAt(inputs, audios[k], t) && x == SampleAt(inputs, audios[k], t);
        assert HoldsBack(inputs, audios, live, k);
        DelayedAt(inputs, audios[k], t);
        assert x in live[ins[k + 1]].heard[t];
      }
    }
  }

  lemma {:induction false} MixInputsMeaning(n: nat)
    ensures AllDistinct(MixInputs(n))
    ensures forall l :: l in MixInputs(n) <==> l == VideoAudio || IsBackLabel(l, n)
  {
  }

  lemma {:induction false} MixConsumes(inputs: seq<Source>, cuts: seq<VideoCut>, audios: seq<AudioCut>, b: Bench)
    requires Fits(inputs, cuts, []) && Fits(inputs, [], audios) && NoBack(MainBench(inputs, cuts))
    requires b == BackBench(inputs, MainBench(inputs, cuts), audios)
    ensures Consume(b, MixInputs(|audios|)) == Bench(map[Video := Pictures(AllPictures(inputs, cuts))], b.defined)
    ensures Audio !in b.defined
  {
    var main := MainBench(inputs, cuts);
    BackBenchHas(inputs, main, audios);
    MixInputsMeaning(|audios|);
    assert main.live.Keys == {Video, VideoAudio};
    ConsumeAllBut(b, MixInputs(|audios|), Video);
  }

  lemma {:induction false} ConsumeAllBut(b: Bench, ins: seq<Label>, rest: Label)
    requires forall l :: l in b.live && l !in ins <==> l == rest
    ensures Consume(b, ins) == Bench(map[rest := b.live[rest]], b.defined)
  {
  }

  lemma {:induction false} MixInputsLive(inputs: seq<Source>, cuts: seq<VideoCut>, audios: seq<AudioCut>, b: Bench)
    requires Fits(inputs, cuts, []) && Fits(inputs, [], audios) && NoBack(MainBench(inputs, cuts))
    requires b == BackBench(inputs, MainBench(inputs, cuts), audios)
    ensures VideoAudio in b.live && b.live[VideoAudio] == Sound(AllSound(inputs, cuts))
    ensures forall k: nat | k < |audios| :: HoldsBack(inputs, audios, b.live, k)
    ensures forall k: nat | k < |MixInputs(|audios|)| ::
      MixInputs(|audios|)[k] in b.live && b.live[MixInputs(|audios|)[k]].Sound?
  {
    var ins := MixInputs(|audios|);
    BackBenchHas(inputs, MainBench(inputs, cuts), audios);
    forall k: nat | k < |ins| ensures ins[k] in b.live && b.live[ins[k]].Sound? {
      if k > 0 { assert ins[(k - 1) + 1] == BackgroundAudio(k - 1) && HoldsBack(inputs, audios, b.live, k - 1); }
    }
  }

  lemma {:induction false} MixRuns(inputs: seq<Source>, cuts: seq<VideoCut>, audios: seq<AudioCut>, b: Bench)
          returns (done: Bench)
    requires Fits(inputs, cuts, []) && Fits(inputs, [], audios) && NoBack(MainBench(inputs, cuts))
    requires b == BackBench(inputs, MainBench(inputs, cuts), audios)
    ensures Apply(inputs, b, Mix(MixInputs(|audios|), |audios| + 1, Audio)) == Some(done)
    ensures done.live.Keys == {Video, Audio} && done.live[Video] == Pictures(AllPictures(inputs, cuts))
    ensures done.live[Audio].Sound? && Heard(inputs, cuts, audios, done.live[Audio].heard)
  {
    MixConsumes(inputs, cuts, audios, b);
    MixInputsLive(inputs, cuts, audios, b);
    assert AllDistinct(MixInputs(|audios|)) by { MixInputsMeaning(|audios|); }
    done := ApplyMix(inputs, b, MixInputs(|audios|));
    forall t: nat | t < |AllSound(inputs, cuts)|
      ensures done.live[Audio].heard[t] == AllSound(inputs, cuts)[t] + BackgroundAt(inputs, audios, t)
    {
      MixedIsHeard(inputs, cuts, audios, b.live, t);
    }
  }

  lemma {:induction false} ApplyMix(inputs: seq<Source>, b: Bench, ins: seq<Label>) returns (done: Bench)
    requires ins != [] && AllDistinct(ins) && Audio !in b.defined
    requires forall k: nat | k < |ins| :: ins[k] in b.live && b.live[ins[k]].Sound?
    ensures Apply(inputs, b, Mix(ins, |ins|, Audio)) == Some(done)
    ensures done.live.Keys == Consume(b, ins).live.Keys + {Audio}
    ensures forall l | l in Consume(b, ins).live :: l != Audio ==> done.live[l] == Consume(b, ins).live[l]
    ensures done.live[Audio].Sound? && |done.live[Audio].heard| == |b.live[ins[0]].heard|
    ensures forall t: nat | t < |b.live[ins[0]].heard| :: done.live[Audio].heard[t] == MixedAt(ins, b.live, t)
  {
    var heard := seq(|b.live[ins[0]].heard|, t requires 0 <= t => MixedAt(ins, b.live, t));
    done := Bench(Consume(b, ins).live[Audio := Sound(heard)], b.defined + {Audio});
  }

  // ---- the whole graph ----

  lemma {:induction false} MainHasNoBack(inputs: seq<Source>, cuts: seq<VideoCut>)
    requires Fits(inputs, cuts, [])
    ensures NoBack(MainBench(inputs, cuts))
  {
    CutBenchHas(inputs, cuts);
  }

  /**
   The graph is linear and closed: run as written, no label is defined twice or consumed twice, every
   arity fits, and exactly the two mapped labels remain. They carry the cuts' pictures in order, and
   the cuts' sound mixed with the background audio.
   */
  lemma {:induction false} GraphMeaning(inputs: seq<Source>, cuts: seq<VideoCut>, audios: seq<AudioCut>)
          returns (done: Bench)
    requires Fits(inputs, cuts, []) && Fits(inputs, [], audios) && cuts != []
    ensures Run(inputs, EMPTY, GraphOf(cuts, audios)) == Some(done)
    ensures done.live.Keys == {Video, AudioLabel(audios)}
    ensures done.live[Video] == Pictures(AllPictures(inputs, cuts))
    ensures done.live[AudioLabel(audios)].Sound?
    ensures Heard(inputs, cuts, audios, done.live[AudioLabel(audios)].heard)
  {
    var main := CutChains(cuts) + [Concat(ConcatInputs(|cuts|), |cuts|, Video, VideoAudio)];
    var b := MainBench(inputs, cuts);
    MainRun(inputs, cuts);
    if audios == [] {
      done := b;
      assert forall t: nat :: BackgroundAt(inputs, audios, t) == {};
    } else {
      MainHasNoBack(inputs, cuts);
      BackRuns(inputs, b, audios);
      done := MixRuns(inputs, cuts, audios, BackBench(inputs, b, audios));
      var mix := Mix(MixInputs(|audios|), |audios| + 1, Audio);
      RunAppend(inputs, EMPTY, main, BackgroundChains(audios));
      RunAppend(inputs, EMPTY, main + BackgroundChains(audios), [mix]);
      RunOne(inputs, BackBench(inputs, b, audios), mix);
    }
  }
}
