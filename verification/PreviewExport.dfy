/** The main theorem about the two compilers: the preview of a state is its export. */
module PreviewExport {
  import opened Wrappers
  import opened Playback
  import opened Playlist
  import opened Media
  import opened AudioProgram
  import opened FilterGraph
  import opened VideoExport
  import opened ExportMeaning
  import opened Timeline
  import opened AudioTimeline

  // ---- the sections' own sound ----

  /** What the preview's video element sounds while it shows `x`. */
  ghost function OwnSoundAt(world: World, x: Sample): set<Sample> {
    if x.asset in world && world[x.asset].hasAudio then {x} else {}
  }

  /** A section of a silent source, whose export is padded with silence, ends within it. */
  ghost predicate EndsInSource(world: World, section: VideoSection) {
    && section.asset in world
    && (!world[section.asset].hasAudio ==>
          section.sourceStart + section.end - section.start <= world[section.asset].length)
  }

  ghost predicate InSource(world: World, sections: seq<VideoSection>) {
    forall i | 0 <= i < |sections| :: EndsInSource(world, sections[i])
  }

  /** The sound is the own sound of the pictures, one by one. */
  ghost predicate Accompanies(world: World, sound: seq<set<Sample>>, pictures: seq<Sample>) {
    |sound| == |pictures| && forall t | 0 <= t < |sound| :: sound[t] == OwnSoundAt(world, pictures[t])
  }

  ghost predicate Sounds(world: World, sources: seq<Source>, cut: VideoCut) {
    CutFits(sources, cut) && Accompanies(world, CutSound(sources, cut), CutPictures(sources, cut))
  }

  lemma {:induction false} CutSounds(world: World, inputs: seq<string>, sources: seq<Source>, section: VideoSection,
          cut: VideoCut)
    requires SourcesOf(world, inputs, sources) && Playable(world, [section])
    requires forall k | 0 <= k < |section.effects| :: section.effects[k].Clause?
    requires cut.input < |inputs| && inputs[cut.input] == section.asset && cut == CutOf(section, cut.input)
    requires EndsInSource(world, section)
    ensures Sounds(world, sources, cut)
  {
    CutFitsOf(world, inputs, sources, section, cut);
    assert [section][0] == section && sources[cut.input].asset == section.asset;
  }

  lemma {:induction false} SoundsJoin(world: World, sources: seq<Source>, cuts: seq<VideoCut>)
    requires Fits(sources, cuts, []) && forall k | 0 <= k < |cuts| :: Sounds(world, sources, cuts[k])
    ensures Accompanies(world, AllSound(sources, cuts), AllPictures(sources, cuts))
  {
    if cuts != [] {
      var n := |cuts| - 1;
      SoundsJoin(world, sources, cuts[..n]);
      assert Sounds(world, sources, cuts[n]);
      AccompaniesAppend(world, AllSound(sources, cuts[..n]), AllPictures(sources, cuts[..n]),
                        CutSound(sources, cuts[n]), CutPictures(sources, cuts[n]));
    }
  }

  lemma {:induction false} AccompaniesAppend(world: World, a: seq<set<Sample>>, p: seq<Sample>, b: seq<set<Sample>>,
                                             q: seq<Sample>)
    requires Accompanies(world, a, p) && Accompanies(world, b, q)
    ensures Accompanies(world, a + b, p + q)
  {
    forall t | 0 <= t < |a + b|
      ensures (a + b)[t] == OwnSoundAt(world, (p + q)[t])
    {
      assert if t < |a| then (a + b)[t] == a[t] else (a + b)[t] == b[t - |a|];
    }
  }

  lemma {:induction false} SoundFollowsPictures(world: World, sections: seq<VideoSection>, answers: seq<Answer>,
                                                inputs: seq<string>, sources: seq<Source>, cuts: seq<VideoCut>)
    requires Compiled(world, sections, answers, inputs, sources, cuts) && InSource(world, sections)
    ensures Fits(sources, cuts, []) && Accompanies(world, AllSound(sources, cuts), AllPictures(sources, cuts))
  {
    forall k | 0 <= k < |cuts|
      ensures Sounds(world, sources, cuts[k])
    {
      assert Playable(world, [sections[k]]) && EndsInSource(world, sections[k]);
      CutSounds(world, inputs, sources, sections[k], cuts[k]);
    }
    SoundsJoin(world, sources, cuts);
  }

  // ---- the playlists are playable ----

  lemma {:induction false} RowsAreServed(world: World, cuts: seq<Cut>, answers: seq<Answer>)
    requires Indexed(world) && AllRows(world, cuts, answers)
    ensures |answers| == |cuts| && Served(answers)
    ensures Play(PlaylistLines(cuts, answers), false) == Some(PlaylistEntries(cuts, answers))
  {
    forall i | 0 <= i < |answers|
      ensures answers[i].Rows? && answers[i].rows != []
      ensures forall k | 0 <= k < |answers[i].rows| :: answers[i].rows[k].segment >= 0
    {
      RowsAt(world, cuts, answers, i);
      SectionIsServed(world, cuts[i], answers[i]);
    }
    PlaylistPlays(cuts, answers);
  }

  lemma {:induction false} SectionIsServed(world: World, cut: Cut, answer: Answer)
    requires Indexed(world) && SectionRows(world, cut, answer)
    ensures answer.rows != [] && forall k | 0 <= k < |answer.rows| :: answer.rows[k].segment >= 0
  {
    forall k | 0 <= k < |answer.rows|
      ensures answer.rows[k].segment >= 0
    {
      RowsToAt(world[cut.asset].frames, FirstRow(cut.sourceStart), answer.rows, |answer.rows|, k);
    }
  }

  // ---- the theorem ----

  /** A state of whole half seconds, answered from covering indexes and compiled for export. */
  ghost predicate Prepared(world: World, state: State, answers: seq<Answer>, sorted: seq<Cut>,
          audioAnswers: seq<Answer>,
                           sources: seq<Source>, cuts: seq<VideoCut>, audios: seq<AudioCut>)
  {
    && state.video != [] && AllAligned(world, state.video) && InSource(world, state.video)
    && Answered(Indexes(world), PictureCuts(state.video), answers)
    && SourcesOf(world, InputsOf(state), sources) && Playable(world, state.video)
    && EffectsKnown(state.video) && CutsOf(state.video, InputsOf(state), cuts)
    && InStartOrder(SoundCuts(state.audio)) && WholeGops(SoundCuts(state.audio))
    && IsSorting(SoundCuts(state.audio), sorted) && Accepted(sorted)
    && Answered(Indexes(world), sorted, audioAnswers)
    && Scored(world, state.audio, InputsOf(state), sources, audios)
  }

  /** What is heard in the preview while picture `t` of `shown` is up. */
  ghost function PreviewSoundAt(world: World, fetch: Fetch, state: State, shown: seq<Sample>, program: seq<Entry>,
          t: nat): set<Sample>
    requires t < |shown|
  {
    OwnSoundAt(world, shown[t]) + PreviewBackground(fetch, SoundCuts(state.audio), program, t)
  }

  /**
   The exporter's graph renders the pictures the branch playlist shows and, at each of them, the sound
   of the branch playlist together with the background the seek map finds in the audio playlist.
   */
  lemma {:induction false} PreviewIsTheExport(world: World, fetch: Fetch, state: State, answers: seq<Answer>,
                                              sorted: seq<Cut>, audioAnswers: seq<Answer>, sources: seq<Source>,
                                              cuts: seq<VideoCut>, audios: seq<AudioCut>)
    returns (done: Bench, pictures: seq<Entry>, program: seq<Entry>)
    requires Indexed(world) && Faithful(world, fetch)
    requires Prepared(world, state, answers, sorted, audioAnswers, sources, cuts, audios)
    ensures |answers| == |state.video| && Served(answers) && |audioAnswers| == |sorted| && Served(audioAnswers)
    ensures Play(PlaylistLines(PictureCuts(state.video), answers), false) == Some(pictures)
    ensures Play(PlaylistLines(sorted, audioAnswers), false) == Some(program)
    ensures Run(sources, EMPTY, GraphOf(cuts, audios)) == Some(done)
    ensures done.live.Keys == {Video, AudioLabel(audios)}
    ensures done.live[Video] == Pictures(Shown(fetch, pictures))
    ensures done.live[AudioLabel(audios)].Sound? && |done.live[AudioLabel(audios)].heard| == |Shown(fetch, pictures)|
    ensures forall t: nat | t < |Shown(fetch, pictures)| ::
      done.live[AudioLabel(audios)].heard[t] == PreviewSoundAt(world, fetch, state, Shown(fetch, pictures), program, t)
  {
    AnsweredHasRows(world, PictureCuts(state.video), answers);
    AnsweredHasRows(world, sorted, audioAnswers);
    RowsAreServed(world, PictureCuts(state.video), answers);
    RowsAreServed(world, sorted, audioAnswers);
    pictures, program := PlaylistEntries(PictureCuts(state.video), answers), PlaylistEntries(sorted, audioAnswers);
    PicturesAgree(world, fetch, state.video, answers, InputsOf(state), sources, cuts);
    SoundFollowsPictures(world, state.video, answers, InputsOf(state), sources, cuts);
    AudiosFit(world, state.audio, InputsOf(state), sources, audios);
    done := GraphMeaning(sources, cuts, audios);
    forall t: nat | t < |Shown(fetch, pictures)|
      ensures done.live[AudioLabel(audios)].heard[t] == PreviewSoundAt(world, fetch, state, Shown(fetch, pictures),
           program, t)
    {
      BackgroundAgrees(world, fetch, state.audio, sorted, audioAnswers, InputsOf(state), sources, audios, t);
    }
  }
}
