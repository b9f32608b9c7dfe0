/** Background audio: the client's seek map into the audio playlist against the export's delays. */
module AudioTimeline {
  import opened Wrappers
  import opened Playback
  import opened Playlist
  import opened Media
  import opened AudioProgram
  import opened FilterGraph
  import opened VideoExport
  import opened ExportMeaning
  import opened Timeline

  // ---- where a section's rows lie in the audio program ----

  /** The section has a row for each of its half seconds. */
  ghost predicate SectionGops(cut: Cut, answer: Answer) {
    && cut.start <= cut.end && answer.Rows? && |answer.rows| == GopCount(cut)
    && forall i | 0 <= i < |answer.rows| :: RowMs(answer.rows, i) == GOP_MS
  }

  ghost predicate AllGops(cuts: seq<Cut>, answers: seq<Answer>) {
    |answers| == |cuts| && forall i | 0 <= i < |cuts| :: SectionGops(cuts[i], answers[i])
  }

  lemma {:induction false} RowsAreGops(world: World, cuts: seq<Cut>, answers: seq<Answer>)
    requires AllRows(world, cuts, answers)
    ensures AllGops(cuts, answers)
  {
    forall i | 0 <= i < |cuts|
      ensures SectionGops(cuts[i], answers[i])
    {
      RowsAt(world, cuts, answers, i);
      SectionRowsAreGops(world, cuts[i], answers[i]);
    }
  }

  lemma {:induction false} SectionRowsAreGops(world: World, cut: Cut, answer: Answer)
    requires SectionRows(world, cut, answer)
    ensures SectionGops(cut, answer)
  {
    forall i | 0 <= i < |answer.rows|
      ensures RowMs(answer.rows, i) == GOP_MS
    {
      RowsToAt(world[cut.asset].frames, FirstRow(cut.sourceStart), answer.rows, |answer.rows|, i);
    }
  }

  lemma {:induction false} GopsAreForward(cuts: seq<Cut>, answers: seq<Answer>)
    requires AllGops(cuts, answers)
    ensures Forward(cuts) && forall i | 0 <= i < |answers| :: answers[i].Rows?
  {
  }

  lemma {:induction false} ProgramEntries(cuts: seq<Cut>, answers: seq<Answer>)
    requires AllGops(cuts, answers)
    ensures Forward(cuts) && forall i | 0 <= i < |answers| :: answers[i].Rows?
    ensures var entries := PlaylistEntries(cuts, answers);
      |entries| == TotalGops(cuts) && forall i | 0 <= i < |entries| :: entries[i].ms == GOP_MS
  {
    GopsAreForward(cuts, answers);
    if cuts != [] {
      var n := |cuts| - 1;
      ProgramEntries(cuts[..n], answers[..n]);
      assert SectionGops(cuts[n], answers[n]);
    }
  }

  /** The last section's entries come after those of the sections before it. */
  lemma {:induction false} EntriesAtEnd(cuts: seq<Cut>, answers: seq<Answer>)
    requires AllGops(cuts, answers) && Forward(cuts) && cuts != []
    requires forall j | 0 <= j < |answers| :: answers[j].Rows?
    ensures var n := |cuts| - 1;
      && PlaylistEntries(cuts, answers)
         == PlaylistEntries(cuts[..n], answers[..n]) + RowEntries(cuts[n].asset, answers[n].rows, n == 0)
      && |PlaylistEntries(cuts[..n], answers[..n])| == TotalGops(cuts[..n])
      && |answers[n].rows| == GopCount(cuts[n])
  {
    var n := |cuts| - 1;
    ProgramEntries(cuts[..n], answers[..n]);
    assert SectionGops(cuts[n], answers[n]);
  }

  lemma {:induction false} EntriesPrefix(cuts: seq<Cut>, answers: seq<Answer>, m: nat)
    requires |answers| == |cuts| && m <= |cuts| && forall j | 0 <= j < |answers| :: answers[j].Rows?
    ensures PlaylistEntries(cuts[..m], answers[..m]) <= PlaylistEntries(cuts, answers)
    decreases |cuts|
  {
    if m == |cuts| {
      assert cuts[..m] == cuts && answers[..m] == answers;
    } else {
      var n := |cuts| - 1;
      assert cuts[..n][..m] == cuts[..m] && answers[..n][..m] == answers[..m];
      EntriesPrefix(cuts[..n], answers[..n], m);
    }
  }

  /** The entries of section `k` follow the whole half seconds of the sections before it. */
  lemma {:induction false} EntryOfSection(cuts: seq<Cut>, answers: seq<Answer>, k: nat, i: nat)
    requires AllGops(cuts, answers) && Forward(cuts) && k < |cuts| && i < GopCount(cuts[k])
    requires forall j | 0 <= j < |answers| :: answers[j].Rows?
    ensures |answers[k].rows| == GopCount(cuts[k])
    ensures 0 <= TotalGops(cuts[..k]) && TotalGops(cuts[..k]) + i < |PlaylistEntries(cuts, answers)|
    ensures PlaylistEntries(cuts, answers)[TotalGops(cuts[..k]) + i]
            == RowEntries(cuts[k].asset, answers[k].rows, k == 0)[i]
  {
    GopsOfPrefix(cuts, answers, k + 1);
    EntriesUpto(cuts, answers, k);
    EntriesPrefix(cuts, answers, k + 1);
    AtOffset(PlaylistEntries(cuts, answers), PlaylistEntries(cuts[..k], answers[..k]),
             RowEntries(cuts[k].asset, answers[k].rows, k == 0), i);
  }

  lemma {:induction false} AtOffset(all: seq<Entry>, before: seq<Entry>, part: seq<Entry>, i: nat)
    requires before + part <= all && i < |part|
    ensures |before| + i < |all| && all[|before| + i] == part[i]
  {
    assert (before + part)[|before| + i] == part[i];
  }

  lemma {:induction false} GopsOfPrefix(cuts: seq<Cut>, answers: seq<Answer>, m: nat)
    requires AllGops(cuts, answers) && Forward(cuts) && m <= |cuts|
    ensures AllGops(cuts[..m], answers[..m]) && Forward(cuts[..m])
  {
  }

  lemma {:induction false} EntriesUpto(cuts: seq<Cut>, answers: seq<Answer>, k: nat)
    requires k < |cuts| == |answers| && AllGops(cuts[..k + 1], answers[..k + 1]) && Forward(cuts[..k + 1])
    requires forall j | 0 <= j < |answers| :: answers[j].Rows?
    ensures Forward(cuts[..k]) && |PlaylistEntries(cuts[..k], answers[..k])| == TotalGops(cuts[..k])
    ensures |answers[k].rows| == GopCount(cuts[k])
    ensures PlaylistEntries(cuts[..k + 1], answers[..k + 1])
            == PlaylistEntries(cuts[..k], answers[..k]) + RowEntries(cuts[k].asset, answers[k].rows, k == 0)
  {
    var upto, uptoAnswers := cuts[..k + 1], answers[..k + 1];
    assert upto[..k] == cuts[..k] && uptoAnswers[..k] == answers[..k];
    EntriesAtEnd(upto, uptoAnswers);
  }

  // ---- sections on the grid ----

  /** Sections of whole half seconds that start on the grid of their source. */
  predicate WholeGops(cuts: seq<Cut>) {
    forall i | 0 <= i < |cuts| ::
      cuts[i].start < cuts[i].end && cuts[i].sourceStart % GOP_MS == 0 && (cuts[i].end - cuts[i].start) % GOP_MS == 0
  }

  lemma {:induction false} WholeGopsTotal(cuts: seq<Cut>)
    requires WholeGops(cuts)
    ensures Forward(cuts) && TotalDuration(cuts) == GOP_MS * TotalGops(cuts)
  {
    LongTotalsCompare(cuts);
  }

  /** What a section plays `q` milliseconds after its start, in the preview and in the export. */
  function SectionAt(world: World, cut: Cut, q: int): set<Sample>
    requires cut.asset in world
  {
    var ms := cut.sourceStart + q;
    if ms < world[cut.asset].length then {Sample(cut.asset, ms)} else {}
  }

  lemma {:induction false} SeekTime(cuts: seq<Cut>, k: nat, t: int)
    requires Accepted(cuts) && WholeGops(cuts) && k < |cuts| && Spans(cuts[k], t)
    ensures Forward(cuts)
    ensures Seek(cuts, t) == Some(GOP_MS * TotalGops(cuts[..k]) + t - cuts[k].start)
    ensures t - cuts[k].start < GOP_MS * GopCount(cuts[k])
    ensures GOP_MS * FirstRow(cuts[k].sourceStart) == cuts[k].sourceStart
  {
    SeekInOrder(cuts, k, t);
    WholeGopsTotal(cuts[..k]);
    WholeGop(cuts[k]);
  }

  lemma {:induction false} WholeGop(cut: Cut)
    requires cut.start < cut.end && cut.sourceStart % GOP_MS == 0 && (cut.end - cut.start) % GOP_MS == 0
    ensures GOP_MS * GopCount(cut) == cut.end - cut.start && GOP_MS * FirstRow(cut.sourceStart) == cut.sourceStart
  {
  }

  /** The preview: seeking to a time a section spans hits that section's own millisecond. */
  lemma {:induction false} SeekHitsTheSection(world: World, fetch: Fetch, cuts: seq<Cut>, answers: seq<Answer>, k: nat,
          t: int)
    requires Faithful(world, fetch) && AllRows(world, cuts, answers)
    requires Accepted(cuts) && WholeGops(cuts) && k < |cuts| && Spans(cuts[k], t)
    ensures Seek(cuts, t).Some? && cuts[k].asset in world
    ensures forall i | 0 <= i < |answers| :: answers[i].Rows?
    ensures ProgramAt(fetch, PlaylistEntries(cuts, answers), Seek(cuts, t).value)
         == SectionAt(world, cuts[k], t - cuts[k].start)
  {
    RowsAreThere(world, cuts, answers);
    SeekTime(cuts, k, t);
    var q := t - cuts[k].start;
    assert Seek(cuts, t).value == GOP_MS * TotalGops(cuts[..k]) + q;
    SectionHeard(world, fetch, cuts, answers, k, q);
  }

  lemma {:induction false} ProgramFrom(fetch: Fetch, entries: seq<Entry>, before: nat, q: nat)
    requires before + q / GOP_MS < |entries| && forall i | 0 <= i < |entries| :: entries[i].ms == GOP_MS
    ensures ProgramAt(fetch, entries, GOP_MS * before + q) == EntryAt(fetch, entries[before + q / GOP_MS], q % GOP_MS)
  {
    var p := GOP_MS * before + q;
    assert p / GOP_MS == before + q / GOP_MS && p % GOP_MS == q % GOP_MS;
    GopProgram(fetch, entries, p);
  }

  lemma {:induction false} ProgramOfSection(fetch: Fetch, cuts: seq<Cut>, answers: seq<Answer>, k: nat, q: nat)
    requires AllGops(cuts, answers) && Forward(cuts) && k < |cuts| && q < GOP_MS * GopCount(cuts[k])
    requires forall j | 0 <= j < |answers| :: answers[j].Rows?
    ensures |answers[k].rows| == GopCount(cuts[k])
    ensures ProgramAt(fetch, PlaylistEntries(cuts, answers), GOP_MS * TotalGops(cuts[..k]) + q)
            == EntryAt(fetch, RowEntries(cuts[k].asset, answers[k].rows, k == 0)[q / GOP_MS], q % GOP_MS)
  {
    ProgramEntries(cuts, answers);
    EntryOfSection(cuts, answers, k, q / GOP_MS);
    ProgramFrom(fetch, PlaylistEntries(cuts, answers), TotalGops(cuts[..k]), q);
  }

  lemma {:induction false} SectionHeard(world: World, fetch: Fetch, cuts: seq<Cut>, answers: seq<Answer>, k: nat,
          q: nat)
    requires Faithful(world, fetch) && AllRows(world, cuts, answers) && Forward(cuts) && k < |cuts|
    requires q < GOP_MS * GopCount(cuts[k]) && GOP_MS * FirstRow(cuts[k].sourceStart) == cuts[k].sourceStart
    ensures cuts[k].asset in world && forall i | 0 <= i < |answers| :: answers[i].Rows?
    ensures ProgramAt(fetch, PlaylistEntries(cuts, answers), GOP_MS * TotalGops(cuts[..k]) + q)
         == SectionAt(world, cuts[k], q)
  {
    RowsAreGops(world, cuts, answers);
    GopsAreForward(cuts, answers);
    ProgramOfSection(fetch, cuts, answers, k, q);
    RowsAt(world, cuts, answers, k);
    EntryHeard(world, fetch, cuts[k], answers[k], k == 0, q);
  }

  lemma {:induction false} EntryHeard(world: World, fetch: Fetch, cut: Cut, answer: Answer, isFirst: bool, q: nat)
    requires Faithful(world, fetch) && SectionRows(world, cut, answer)
    requires q < GOP_MS * GopCount(cut) && GOP_MS * FirstRow(cut.sourceStart) == cut.sourceStart
    ensures EntryAt(fetch, RowEntries(cut.asset, answer.rows, isFirst)[q / GOP_MS], q % GOP_MS)
         == SectionAt(world, cut, q)
  {
    var first, i := FirstRow(cut.sourceStart), q / GOP_MS;
    RowsToAt(world[cut.asset].frames, first, answer.rows, |answer.rows|, i);
    FetchRow(world, fetch, RowEntries(cut.asset, answer.rows, isFirst)[i], cut.asset, first + i);
  }

  // ---- the export ----

  ghost predicate Audible(world: World, sections: seq<AudioSection>) {
    forall i | 0 <= i < |sections| ::
      InBounds(SoundCut(sections[i])) && sections[i].asset in world && world[sections[i].asset].hasAudio
  }

  /** The sections compiled against the media. */
  ghost predicate Scored(world: World, sections: seq<AudioSection>,
                         inputs: seq<string>, sources: seq<Source>, audios: seq<AudioCut>)
  {
    SourcesOf(world, inputs, sources) && Audible(world, sections) && AudioCutsOf(sections, inputs, audios)
  }

  lemma {:induction false} AudiosFit(world: World, sections: seq<AudioSection>,
                                     inputs: seq<string>, sources: seq<Source>, audios: seq<AudioCut>)
    requires Scored(world, sections, inputs, sources, audios)
    ensures Fits(sources, [], audios)
  {
  }

  // ---- agreement ----

  predicate InWorld(world: World, cuts: seq<Cut>) {
    forall i | 0 <= i < |cuts| :: cuts[i].asset in world
  }

  /** What a section puts at timeline time `t`. */
  function PlacedBy(world: World, cut: Cut, t: int): set<Sample>
    requires cut.asset in world
  {
    if Spans(cut, t) then SectionAt(world, cut, t - cut.start) else {}
  }

  /** What the sections put there together. */
  ghost function PlacedAt(world: World, cuts: seq<Cut>, t: int): set<Sample>
    requires InWorld(world, cuts)
  {
    set k: nat, x | k < |cuts| && x in PlacedBy(world, cuts[k], t) :: x
  }

  /** The export plays the placed sections, overlapping or not. */
  lemma {:induction false} ExportPlays(world: World, sections: seq<AudioSection>, inputs: seq<string>,
                                       sources: seq<Source>, audios: seq<AudioCut>, t: nat)
    requires Scored(world, sections, inputs, sources, audios)
    ensures Fits(sources, [], audios) && InWorld(world, SoundCuts(sections))
    ensures BackgroundAt(sources, audios, t) == PlacedAt(world, SoundCuts(sections), t)
  {
    AudiosFit(world, sections, inputs, sources, audios);
    var held := SoundCuts(sections);
    forall k: nat | k < |audios|
      ensures held[k].asset in world
      ensures PlacedBy(world, held[k], t)
              == if SoundsAt(sources, audios[k], t) then {SampleAt(sources, audios[k], t)} else {}
    {
      assert sources[audios[k].input].asset == sections[k].asset;
    }
    assert forall x :: x in BackgroundAt(sources, audios, t) ==> x in PlacedAt(world, held, t);
    forall x | x in PlacedAt(world, held, t)
      ensures x in BackgroundAt(sources, audios, t)
    {
      var k: nat :| k < |held| && x in PlacedBy(world, held[k], t);
      assert SoundsAt(sources, audios[k], t);
    }
  }

  /** What the preview plays in the background at timeline time `t`. */
  ghost function PreviewBackground(fetch: Fetch, held: seq<Cut>, entries: seq<Entry>, t: int): set<Sample> {
    match Seek(held, t)
    case None => {}
    case Some(p) => ProgramAt(fetch, entries, p)
  }

  lemma {:induction false} OnePlaced(world: World, cuts: seq<Cut>, k: nat, t: int)
    requires InWorld(world, cuts) && Disjoint(cuts) && k < |cuts| && Spans(cuts[k], t)
    ensures PlacedAt(world, cuts, t) == SectionAt(world, cuts[k], t - cuts[k].start)
  {
    forall i: nat | i < |cuts| && i != k
      ensures !Spans(cuts[i], t)
    {
      assert if i < k then Apart(cuts[i], cuts[k]) else Apart(cuts[k], cuts[i]);
    }
    forall x
      ensures x in PlacedAt(world, cuts, t) <==> x in PlacedBy(world, cuts[k], t)
    {
    }
  }

  lemma {:induction false} PreviewPlays(world: World, fetch: Fetch, cuts: seq<Cut>, answers: seq<Answer>, t: int)
    requires Faithful(world, fetch) && AllRows(world, cuts, answers) && InWorld(world, cuts)
    requires Accepted(cuts) && Disjoint(cuts) && WholeGops(cuts)
    ensures |answers| == |cuts| && forall i | 0 <= i < |answers| :: answers[i].Rows?
    ensures PreviewBackground(fetch, cuts, PlaylistEntries(cuts, answers), t) == PlacedAt(world, cuts, t)
  {
    RowsAreThere(world, cuts, answers);
    SeekNone(cuts, t);
    if Seek(cuts, t).Some? {
      var k: nat :| k < |cuts| && Spans(cuts[k], t);
      SeekHitsTheSection(world, fetch, cuts, answers, k, t);
      OnePlaced(world, cuts, k, t);
    }
  }

  /**
   At every timeline millisecond the seek map, followed in the accepted audio playlist, gives the
   source position, or the silence, that the export places there.
   */
  lemma {:induction false} BackgroundAgrees(world: World, fetch: Fetch, sections: seq<AudioSection>, sorted: seq<Cut>,
                                            answers: seq<Answer>, inputs: seq<string>, sources: seq<Source>,
                                            audios: seq<AudioCut>, t: nat)
    requires Faithful(world, fetch) && AllRows(world, sorted, answers)
    requires IsSorting(SoundCuts(sections), sorted) && Accepted(sorted)
    requires InStartOrder(SoundCuts(sections)) && WholeGops(SoundCuts(sections))
    requires Scored(world, sections, inputs, sources, audios)
    ensures Fits(sources, [], audios) && |answers| == |sorted| && forall i | 0 <= i < |answers| :: answers[i].Rows?
    ensures BackgroundAt(sources, audios, t)
            == PreviewBackground(fetch, SoundCuts(sections), PlaylistEntries(sorted, answers), t)
  {
    ExportPlays(world, sections, inputs, sources, audios, t);
    AcceptedIffDisjoint(SoundCuts(sections), sorted);
    SortingIsUnique(SoundCuts(sections), sorted);
    PreviewPlays(world, fetch, sorted, answers, t);
  }

  // ---- off the grid ----

  /** The seek to the start of section `k` lands on the section's first entry. */
  ghost predicate Lands(cuts: seq<Cut>, answers: seq<Answer>, k: nat)
    requires |answers| == |cuts| && k < |cuts| && forall i | 0 <= i < |answers| :: answers[i].Rows?
  {
    Seek(cuts, cuts[k].start) == Some(Announced(PlaylistEntries(cuts[..k], answers[..k])))
  }

  /**
   Off the grid the two clocks drift: the seek to the start of section `k` lands on the section's first
   entry if and only if the earlier sections last, in total, as long as their whole half seconds.
   When none of them is short that means that each lasts whole half seconds.
   */
  lemma {:induction false} SeekLandsIff(world: World, cuts: seq<Cut>, answers: seq<Answer>, k: nat)
    requires AllRows(world, cuts, answers) && Accepted(cuts) && k < |cuts| && cuts[k].start < cuts[k].end
    ensures Forward(cuts) && |answers| == |cuts| && forall i | 0 <= i < |answers| :: answers[i].Rows?
    ensures Lands(cuts, answers, k) <==> TotalDuration(cuts[..k]) == GOP_MS * TotalGops(cuts[..k])
    ensures LongEnough(cuts[..k]) ==> (Lands(cuts, answers, k) <==> OnGrid(cuts[..k]))
  {
    RowsAreThere(world, cuts, answers);
    RowsAreGops(world, cuts, answers);
    GopsAreForward(cuts, answers);
    SeekInOrder(cuts, k, cuts[k].start);
    RowsAt(world, cuts, answers, k);
    RowsAreGops(world, cuts[..k], answers[..k]);
    ProgramEntries(cuts[..k], answers[..k]);
    AnnouncedGops(PlaylistEntries(cuts[..k], answers[..k]));
    if LongEnough(cuts[..k]) {
      LongTotalsCompare(cuts[..k]);
    }
  }

  /** The first `n` sections each last whole half seconds if and only if all their prefixes do. */
  lemma {:induction false} PrefixesOnGrid(cuts: seq<Cut>, n: nat)
    requires Nonempty(cuts) && n <= |cuts|
    ensures Forward(cuts)
    ensures (forall k: nat | k <= n :: TotalDuration(cuts[..k]) == GOP_MS * TotalGops(cuts[..k])) <==> OnGrid(cuts[..n])
  {
    if n > 0 {
      var m := n - 1;
      PrefixesOnGrid(cuts, m);
      assert cuts[..n][..m] == cuts[..m] && cuts[..n][m] == cuts[m];
      GopsCompare(cuts[m]);
      assert OnGrid(cuts[..n]) <==> OnGrid(cuts[..m]) && (cuts[m].end - cuts[m].start) % GOP_MS == 0 by {
        GridStep(cuts, m);
      }
    }
  }

  lemma {:induction false} GridStep(cuts: seq<Cut>, m: nat)
    requires m < |cuts|
    ensures OnGrid(cuts[..m + 1]) <==> OnGrid(cuts[..m]) && (cuts[m].end - cuts[m].start) % GOP_MS == 0
  {
    assert cuts[..m + 1] == cuts[..m] + [cuts[m]];
  }

  /** All seeks land if and only if every section but the last one lasts whole half seconds. */
  lemma {:induction false} AllSeeksLandIff(world: World, cuts: seq<Cut>, answers: seq<Answer>)
    requires AllRows(world, cuts, answers) && Accepted(cuts) && Nonempty(cuts) && cuts != []
    ensures |answers| == |cuts| && forall i | 0 <= i < |answers| :: answers[i].Rows?
    ensures (forall k: nat | k < |cuts| :: Lands(cuts, answers, k)) <==> OnGrid(cuts[..|cuts| - 1])
  {
    RowsAreThere(world, cuts, answers);
    forall k: nat | k < |cuts|
      ensures Forward(cuts) && (Lands(cuts, answers, k) <==> TotalDuration(cuts[..k]) == GOP_MS * TotalGops(cuts[..k]))
    {
      SeekLandsIff(world, cuts, answers, k);
    }
    PrefixesOnGrid(cuts, |cuts| - 1);
  }
}
