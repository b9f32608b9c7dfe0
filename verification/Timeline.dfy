/** Preview and export agree: what the playlists play is what the filter graph renders. */
module Timeline {
  import opened Playback
  import opened Playlist
  import opened Media
  import opened FilterGraph
  import opened VideoExport
  import opened ExportMeaning

  // ---- the two readings of a state ----

  function PictureCut(s: VideoSection): Cut {
    Cut(s.start, s.end, s.asset, s.sourceStart)
  }

  function SoundCut(s: AudioSection): Cut {
    Cut(s.start, s.end, s.asset, s.sourceStart)
  }

  function PictureCuts(sections: seq<VideoSection>): (cuts: seq<Cut>)
    ensures |cuts| == |sections| && forall i | 0 <= i < |cuts| :: cuts[i] == PictureCut(sections[i])
  {
    seq(|sections|, i requires 0 <= i < |sections| => PictureCut(sections[i]))
  }

  function SoundCuts(sections: seq<AudioSection>): (cuts: seq<Cut>)
    ensures |cuts| == |sections| && forall i | 0 <= i < |cuts| :: cuts[i] == SoundCut(sections[i])
  {
    seq(|sections|, i requires 0 <= i < |sections| => SoundCut(sections[i]))
  }

  /** The ffmpeg inputs are the media of the listed assets. */
  ghost predicate SourcesOf(world: World, inputs: seq<string>, sources: seq<Source>) {
    |sources| == |inputs| && forall i | 0 <= i < |inputs| ::
      && inputs[i] in world
      && sources[i] == Source(inputs[i], world[inputs[i]].length, world[inputs[i]].hasVideo, world[inputs[i]].hasAudio)
  }

  ghost predicate AllRows(world: World, cuts: seq<Cut>, answers: seq<Answer>) {
    && |answers| == |cuts|
    && (cuts != [] ==>
          var n := |cuts| - 1;
          AllRows(world, cuts[..n], answers[..n]) && SectionRows(world, cuts[n], answers[n]))
  }

  lemma {:induction false} RowsAt(world: World, cuts: seq<Cut>, answers: seq<Answer>, k: nat)
    requires AllRows(world, cuts, answers) && k < |cuts|
    ensures SectionRows(world, cuts[k], answers[k]) && AllRows(world, cuts[..k], answers[..k])
  {
    var n := |cuts| - 1;
    if k < n {
      assert cuts[..n][..k] == cuts[..k] && answers[..n][..k] == answers[..k];
      RowsAt(world, cuts[..n], answers[..n], k);
    }
  }

  lemma {:induction false} AnsweredHasRows(world: World, cuts: seq<Cut>, answers: seq<Answer>)
    requires Answered(Indexes(world), cuts, answers)
    ensures AllRows(world, cuts, answers)
  {
    if cuts != [] {
      var n := |cuts| - 1;
      AnsweredPrefix(Indexes(world), cuts, answers);
      AnsweredHasRows(world, cuts[..n], answers[..n]);
      SectionHasRows(world, cuts[n], answers[n]);
    }
  }

  // ---- one video section ----

  /** What the graph's trim takes from the source of a section. */
  function Trimmed(cut: Cut, length: nat): seq<Sample>
    requires cut.start <= cut.end
  {
    Clip(Samples(cut.asset, 0, length), cut.sourceStart, cut.sourceStart + cut.end - cut.start)
  }

  /**
   The section starts on the grid of its source, and either lasts whole half seconds or the source
   ends before the difference would show.
   */
  predicate Aligned(cut: Cut, length: nat)
    requires cut.start <= cut.end
  {
    var duration := cut.end - cut.start;
    && duration > 0 && cut.sourceStart % GOP_MS == 0
    && (duration % GOP_MS == 0 || cut.sourceStart + Min(duration, GOP_MS * GopCount(cut)) >= length)
  }

  lemma {:induction false} SamplesEqual(asset: string, a: int, b: int, c: int, d: int)
    requires a < b
    ensures Samples(asset, a, b) == Samples(asset, c, d) <==> a == c && b == d
  {
    if Samples(asset, a, b) == Samples(asset, c, d) {
      assert Samples(asset, a, b)[0] == Sample(asset, a);
      assert Samples(asset, c, d)[0] == Sample(asset, c);
    }
  }

  lemma {:induction false} TrimmedIsSamples(cut: Cut, length: nat)
    requires cut.start <= cut.end
    ensures Trimmed(cut, length)
            == Samples(cut.asset, cut.sourceStart, Min(cut.sourceStart + cut.end - cut.start, length))
  {
  }

  lemma {:induction false} AlignedIff(cut: Cut, length: nat)
    requires cut.start <= cut.end
    requires FirstRow(cut.sourceStart) + GopCount(cut) <= FirstRow(length)
    ensures var first, n := FirstRow(cut.sourceStart), GopCount(cut);
      && GOP_MS * first < Min(GOP_MS * (first + n), length)
      && (GOP_MS * first == cut.sourceStart
          && Min(GOP_MS * (first + n), length) == Min(cut.sourceStart + cut.end - cut.start, length)
          <==> Aligned(cut, length))
  {
  }

  /** A section covered by its index shows exactly what the export trims if and only if it is aligned. */
  lemma {:induction false} SectionAgreesIff(world: World, fetch: Fetch, cut: Cut, answer: Answer, isFirst: bool)
    requires Indexed(world) && Faithful(world, fetch) && SectionRows(world, cut, answer)
    ensures Shown(fetch, RowEntries(cut.asset, answer.rows, isFirst)) == Trimmed(cut, world[cut.asset].length)
            <==> Aligned(cut, world[cut.asset].length)
  {
    var first, n, length := FirstRow(cut.sourceStart), GopCount(cut), world[cut.asset].length;
    SectionShown(world, fetch, cut, answer, isFirst);
    TrimmedIsSamples(cut, length);
    AlignedIff(cut, length);
    SamplesEqual(cut.asset, GOP_MS * first, Min(GOP_MS * (first + n), length),
                 cut.sourceStart, Min(cut.sourceStart + cut.end - cut.start, length));
  }

  // ---- splitting a section ----

  function LeftPart(cut: Cut, offset: nat): Cut
    requires 0 < offset < cut.end - cut.start
  {
    cut.(end := cut.start + offset)
  }

  function RightPart(cut: Cut, offset: nat): Cut
    requires InBounds(cut) && 0 < offset < cut.end - cut.start
  {
    cut.(start := cut.start + offset, sourceStart := cut.sourceStart + offset)
  }

  /** Two runs of samples make up a third exactly when they meet and end where it does. */
  lemma {:induction false} RunsJoinIff(asset: string, a: int, b: int, c: int, d: int, e: int)
    requires a < b <= c < d && c <= e
    ensures Samples(asset, a, b) + Samples(asset, c, d) == Samples(asset, a, e) <==> b == c && d == e
  {
    var joined, whole := Samples(asset, a, b) + Samples(asset, c, d), Samples(asset, a, e);
    assert |joined| == (b - a) + (d - c) && |whole| == e - a;
    assert joined[b - a] == Sample(asset, c);
    assert b < e ==> whole[b - a] == Sample(asset, b);
  }

  /** The rows of the two halves, counted from the start of the section. */
  lemma {:induction false} SplitRows(cut: Cut, offset: nat)
    requires InBounds(cut) && 0 < offset < cut.end - cut.start
    requires cut.sourceStart % GOP_MS == 0 && (cut.end - cut.start) % GOP_MS == 0
    ensures var left, right := LeftPart(cut, offset), RightPart(cut, offset);
      var s, n, k := cut.sourceStart / GOP_MS, (cut.end - cut.start) / GOP_MS, offset / GOP_MS;
      var whole := offset % GOP_MS == 0;
      && FirstRow(left.sourceStart) == s && GopCount(left) == (if k == 0 then 1 else k)
      && FirstRow(right.sourceStart) == s + (if whole then k else k + 1)
      && GopCount(right) == (if whole then n - k else if n - k - 1 == 0 then 1 else n - k - 1)
      && cut.sourceStart == GOP_MS * s && cut.end - cut.start == GOP_MS * n && k < n
      && (whole ==> k > 0)
  {
  }

  /** The split is on the grid, or within the first half second of a section of at least two. */
  predicate SplitsWell(cut: Cut, offset: nat) {
    offset % GOP_MS == 0 || (offset < GOP_MS && cut.end - cut.start >= 2 * GOP_MS)
  }

  /** The split falls off the grid in the last half second of a section that ends where its index does. */
  predicate SplitsTheEnd(cut: Cut, offset: nat, rows: nat)
    requires cut.start <= cut.end
  {
    && offset % GOP_MS != 0 && offset / GOP_MS == GopCount(cut) - 1
    && FirstRow(cut.sourceStart) + GopCount(cut) == rows
  }

  /** When both halves have their rows. */
  lemma {:induction false} HalvesShowIff(world: World, fetch: Fetch, cut: Cut, offset: nat, l: Answer, r: Answer,
                                         isFirst: bool)
    requires Indexed(world) && Faithful(world, fetch) && InBounds(cut) && 0 < offset < cut.end - cut.start
    requires cut.sourceStart % GOP_MS == 0 && (cut.end - cut.start) % GOP_MS == 0
    requires SectionRows(world, LeftPart(cut, offset), l) && SectionRows(world, RightPart(cut, offset), r)
    ensures Shown(fetch, RowEntries(cut.asset, l.rows, isFirst)) + Shown(fetch, RowEntries(cut.asset, r.rows, false))
              == Trimmed(cut, world[cut.asset].length)
            <==> SplitsWell(cut, offset)
  {
    var left, right, length := LeftPart(cut, offset), RightPart(cut, offset), world[cut.asset].length;
    SectionShown(world, fetch, left, l, isFirst);
    SectionShown(world, fetch, right, r, false);
    TrimmedIsSamples(cut, length);
    SplitRows(cut, offset);
    RunsJoinIff(cut.asset, cut.sourceStart, Min(GOP_MS * (FirstRow(left.sourceStart) + GopCount(left)), length),
                GOP_MS * FirstRow(right.sourceStart),
                Min(GOP_MS * (FirstRow(right.sourceStart) + GopCount(right)), length),
                Min(cut.sourceStart + cut.end - cut.start, length));
  }

  /** What the index of a covered section holds for the two halves. */
  lemma {:induction false} HalvesCovered(index: seq<Frame>, cut: Cut, offset: nat)
    requires Covers(index, cut) && 0 < offset < cut.end - cut.start
    requires cut.sourceStart % GOP_MS == 0 && (cut.end - cut.start) % GOP_MS == 0
    ensures Covers(index, LeftPart(cut, offset)) && InBounds(RightPart(cut, offset))
    ensures if SplitsTheEnd(cut, offset, |index|) then FirstRow(RightPart(cut, offset).sourceStart) == |index|
            else Covers(index, RightPart(cut, offset))
  {
    SplitRows(cut, offset);
  }

  lemma {:induction false} PastTheEnd(index: seq<Frame>, cut: Cut, answer: Answer)
    requires FullIndex(index) && InBounds(cut) && FirstRow(cut.sourceStart) == |index|
    requires AnswersQuery(index, cut, answer) && answer.Rows?
    ensures answer.rows == [] && !Answers(answer) && RefusedWith(answer) == NoRows
  {
    AnswerIsSelection(index, cut, answer);
    SelectionIsSlice(index, cut.sourceStart, GopCount(cut), answer.rows);
  }

  /**
   Splitting an aligned, covered section keeps what the preview shows of it if and only if the split is
   on the grid, or within the first half second of a section of at least two. Otherwise half a second is
   lost or a foreign one shown; or, in the last half second of a section that ends with its source, the
   right half has no rows and the whole playlist is refused.
   */
  lemma {:induction false} SplitPlaysRightIff(world: World, fetch: Fetch, cut: Cut, offset: nat, l: Answer, r: Answer,
                                              isFirst: bool)
    requires Indexed(world) && Faithful(world, fetch) && 0 < offset < cut.end - cut.start
    requires cut.asset in world && Covers(world[cut.asset].frames, cut)
    requires cut.sourceStart % GOP_MS == 0 && (cut.end - cut.start) % GOP_MS == 0
    requires l.Rows? && AnswersQuery(world[cut.asset].frames, LeftPart(cut, offset), l)
    requires r.Rows? && AnswersQuery(world[cut.asset].frames, RightPart(cut, offset), r)
    ensures Answers(l) && (Answers(r) <==> !SplitsTheEnd(cut, offset, |world[cut.asset].frames|))
    ensures !Answers(r) ==> RefusedWith(r) == NoRows
    ensures Answers(r) && Shown(fetch, RowEntries(cut.asset, l.rows, isFirst))
                          + Shown(fetch, RowEntries(cut.asset, r.rows, false)) == Trimmed(cut, world[cut.asset].length)
            <==> SplitsWell(cut, offset)
  {
    var index := world[cut.asset].frames;
    HalvesCovered(index, cut, offset);
    SectionHasRows(world, LeftPart(cut, offset), l);
    if SplitsTheEnd(cut, offset, |index|) {
      PastTheEnd(index, RightPart(cut, offset), r);
      EndIsNotWell(cut, offset, |index|);
    } else {
      SectionHasRows(world, RightPart(cut, offset), r);
      HalvesShowIff(world, fetch, cut, offset, l, r, isFirst);
    }
  }

  lemma {:induction false} EndIsNotWell(cut: Cut, offset: nat, rows: nat)
    requires cut.start <= cut.end && 0 < offset < cut.end - cut.start && SplitsTheEnd(cut, offset, rows)
    ensures !SplitsWell(cut, offset)
  {
  }

  // ---- the whole video ----

  /** The sections' media have the streams the sections claim, and the sections are in bounds. */
  ghost predicate Playable(world: World, sections: seq<VideoSection>) {
    forall i | 0 <= i < |sections| ::
      && InBounds(PictureCut(sections[i])) && sections[i].asset in world
      && world[sections[i].asset].hasVideo && (sections[i].hasAudio <==> world[sections[i].asset].hasAudio)
  }

  ghost predicate AllAligned(world: World, sections: seq<VideoSection>) {
    forall i | 0 <= i < |sections| ::
      && sections[i].start <= sections[i].end && sections[i].asset in world
      && Aligned(PictureCut(sections[i]), world[sections[i].asset].length)
  }

  lemma {:induction false} CutFitsOf(world: World, inputs: seq<string>, sources: seq<Source>, section: VideoSection,
          cut: VideoCut)
    requires SourcesOf(world, inputs, sources) && Playable(world, [section])
    requires forall k | 0 <= k < |section.effects| :: section.effects[k].Clause?
    requires cut.input < |inputs| && inputs[cut.input] == section.asset && cut == CutOf(section, cut.input)
    ensures CutFits(sources, cut) && cut.to - cut.from == section.end - section.start
    ensures CutPictures(sources, cut) == Trimmed(PictureCut(section), world[section.asset].length)
  {
    assert [section][0] == section;
    assert sources[cut.input].asset == section.asset;
  }

  /** The sections' playlist is answered from covering indexes, their cuts compiled against the media. */
  ghost predicate Compiled(world: World, sections: seq<VideoSection>, answers: seq<Answer>,
                           inputs: seq<string>, sources: seq<Source>, cuts: seq<VideoCut>)
  {
    && SourcesOf(world, inputs, sources) && Playable(world, sections)
    && AllRows(world, PictureCuts(sections), answers)
    && EffectsKnown(sections) && CutsOf(sections, inputs, cuts)
  }

  lemma {:induction false} RowsAreThere(world: World, cuts: seq<Cut>, answers: seq<Answer>)
    requires AllRows(world, cuts, answers)
    ensures |answers| == |cuts| && forall i | 0 <= i < |answers| :: answers[i].Rows?
  {
    forall i | 0 <= i < |answers|
      ensures answers[i].Rows?
    {
      RowsAt(world, cuts, answers, i);
    }
  }

  function Join(parts: seq<seq<Sample>>): seq<Sample> {
    if parts == [] then [] else Join(parts[..|parts| - 1]) + parts[|parts| - 1]
  }

  lemma {:induction false} ShownIsJoin(fetch: Fetch, cuts: seq<Cut>, answers: seq<Answer>, parts: seq<seq<Sample>>)
    requires |answers| == |cuts| == |parts| && forall i | 0 <= i < |answers| :: answers[i].Rows?
    requires forall i: nat | i < |parts| :: parts[i] == Shown(fetch, RowEntries(cuts[i].asset, answers[i].rows, i == 0))
    ensures Shown(fetch, PlaylistEntries(cuts, answers)) == Join(parts)
  {
    if cuts != [] {
      var n := |cuts| - 1;
      ShownIsJoin(fetch, cuts[..n], answers[..n], parts[..n]);
      ShownAppend(fetch, PlaylistEntries(cuts[..n], answers[..n]), RowEntries(cuts[n].asset, answers[n].rows, n == 0));
    }
  }

  function PicturesOf(sources: seq<Source>, cuts: seq<VideoCut>): (parts: seq<seq<Sample>>)
    requires forall i: nat | i < |cuts| :: CutFits(sources, cuts[i])
    ensures |parts| == |cuts| && forall i: nat | i < |parts| :: parts[i] == CutPictures(sources, cuts[i])
  {
    seq(|cuts|, i requires 0 <= i < |cuts| => CutPictures(sources, cuts[i]))
  }

  lemma {:induction false} PicturesAreJoin(sources: seq<Source>, cuts: seq<VideoCut>, parts: seq<seq<Sample>>)
    requires Fits(sources, cuts, []) && |parts| == |cuts|
    requires forall i: nat | i < |parts| :: parts[i] == CutPictures(sources, cuts[i])
    ensures AllPictures(sources, cuts) == Join(parts)
  {
    if cuts != [] {
      PicturesAreJoin(sources, cuts[..|cuts| - 1], parts[..|cuts| - 1]);
    }
  }

  /** Section `k` shows what cut `k` trims. */
  lemma {:induction false} SectionAgrees(world: World, fetch: Fetch, sections: seq<VideoSection>, answers: seq<Answer>,
                                         inputs: seq<string>, sources: seq<Source>, cuts: seq<VideoCut>, k: nat)
    requires Indexed(world) && Faithful(world, fetch) && AllAligned(world, sections) && k < |sections|
    requires Compiled(world, sections, answers, inputs, sources, cuts)
    ensures |sections| == |answers| == |cuts| && answers[k].Rows? && CutFits(sources, cuts[k])
    ensures Shown(fetch, RowEntries(sections[k].asset, answers[k].rows, k == 0)) == CutPictures(sources, cuts[k])
  {
    RowsAt(world, PictureCuts(sections), answers, k);
    assert Playable(world, [sections[k]]);
    CutFitsOf(world, inputs, sources, sections[k], cuts[k]);
    SectionAgreesIff(world, fetch, PictureCut(sections[k]), answers[k], k == 0);
  }

  /** The preview plays, picture for picture, what the export concatenates. */
  lemma {:induction false} PicturesAgree(world: World, fetch: Fetch, sections: seq<VideoSection>, answers: seq<Answer>,
                                         inputs: seq<string>, sources: seq<Source>, cuts: seq<VideoCut>)
    requires Indexed(world) && Faithful(world, fetch) && AllAligned(world, sections)
    requires Compiled(world, sections, answers, inputs, sources, cuts)
    ensures |answers| == |sections| && (forall i | 0 <= i < |answers| :: answers[i].Rows?) && Fits(sources, cuts, [])
    ensures Shown(fetch, PlaylistEntries(PictureCuts(sections), answers)) == AllPictures(sources, cuts)
  {
    RowsAreThere(world, PictureCuts(sections), answers);
    forall k: nat | k < |cuts|
      ensures CutFits(sources, cuts[k])
      ensures Shown(fetch, RowEntries(sections[k].asset, answers[k].rows, k == 0)) == CutPictures(sources, cuts[k])
    {
      SectionAgrees(world, fetch, sections, answers, inputs, sources, cuts, k);
    }
    var parts := PicturesOf(sources, cuts);
    ShownIsJoin(fetch, PictureCuts(sections), answers, parts);
    PicturesAreJoin(sources, cuts, parts);
  }
}
