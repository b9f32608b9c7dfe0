/** The media behind the segment objects, and what a player shows of a playlist. */
module Media {
  import opened Playback
  import opened Playlist
  import opened SegmentNames

  /** An uploaded video or audio: its index rows, its length in milliseconds and its kinds of stream. */
  datatype Medium = Medium(frames: seq<Frame>, length: nat, hasVideo: bool, hasAudio: bool)

  type World = map<string, Medium>

  /** Every medium has a row at each half second it lasts. */
  ghost predicate Indexed(world: World) {
    forall a | a in world :: FullIndex(world[a].frames) && |world[a].frames| == FirstRow(world[a].length)
  }

  function Indexes(world: World): map<string, seq<Frame>> {
    map a | a in world :: world[a].frames
  }

  function Min(a: int, b: int): int {
    if a <= b then a else b
  }

  // ---- fetching ----

  /** The bytes an entry asks for are those of index row `k` of `asset`. */
  predicate Fetches(world: World, e: Entry, asset: string, k: nat) {
    && asset in world && k < |world[asset].frames|
    && SegmentPath(asset, world[asset].frames[k].segment) == EntryKey(e)
    && world[asset].frames[k].offset == e.offset && world[asset].frames[k].size == e.size
  }

  /** The half second of a medium an index row stands for. */
  function Piece(asset: string, length: nat, k: nat): seq<Sample> {
    Samples(asset, GOP_MS * k, Min(GOP_MS * (k + 1), length))
  }

  /** What a player decodes from the bytes it fetches for an entry. */
  type Fetch = Entry -> seq<Sample>

  /** The bytes of an index row hold the half second the row is about. */
  ghost predicate Faithful(world: World, fetch: Fetch) {
    forall e, a, k: nat :: Fetches(world, e, a, k) ==> fetch(e) == Piece(a, world[a].length, k)
  }

  /** What is shown when the entries are played one after the other. */
  ghost function Shown(fetch: Fetch, entries: seq<Entry>): seq<Sample> {
    if entries == [] then []
    else Shown(fetch, entries[..|entries| - 1]) + fetch(entries[|entries| - 1])
  }

  /** No two rows of the world share their bytes. */
  lemma {:induction false} FetchIsUnique(world: World, e: Entry, a: string, k: nat, b: string, l: nat)
    requires Indexed(world) && Fetches(world, e, a, k) && Fetches(world, e, b, l)
    ensures a == b && k == l
  {
    SegmentPathInjective(a, world[a].frames[k].segment, b, world[b].frames[l].segment);
    var frames := world[a].frames;
    assert k < l ==> Before(frames[k], frames[l]);
    assert l < k ==> Before(frames[l], frames[k]);
  }

  ghost function Decode(world: World, e: Entry): seq<Sample> {
    if exists a, k: nat :: Fetches(world, e, a, k) then
      var a, k: nat :| Fetches(world, e, a, k);
      Piece(a, world[a].length, k)
    else []
  }

  /** So looking the bytes up decodes every row faithfully. */
  lemma {:induction false} FaithfulFetchExists(world: World)
    requires Indexed(world)
    ensures exists fetch: Fetch :: Faithful(world, fetch)
  {
    var fetch: Fetch := e => Decode(world, e);
    forall e, a, k: nat | Fetches(world, e, a, k)
      ensures fetch(e) == Piece(a, world[a].length, k)
    {
      var b, l: nat :| Fetches(world, e, b, l) && Decode(world, e) == Piece(b, world[b].length, l);
      FetchIsUnique(world, e, a, k, b, l);
    }
    assert Faithful(world, fetch);
  }

  /** Entry `e` is index row `k` of its asset, for half a second. */
  predicate IsRow(world: World, e: Entry, asset: string, k: nat) {
    && asset in world && k < |world[asset].frames| && e.asset == asset && e.ms == GOP_MS
    && var f := world[asset].frames[k]; e.segment == f.segment && e.offset == f.offset && e.size == f.size
  }

  lemma {:induction false} FetchRow(world: World, fetch: Fetch, e: Entry, asset: string, k: nat)
    requires Faithful(world, fetch) && IsRow(world, e, asset, k)
    ensures fetch(e) == Piece(asset, world[asset].length, k)
  {
  }

  lemma {:induction false} ShownAppend(fetch: Fetch, a: seq<Entry>, b: seq<Entry>)
    ensures Shown(fetch, a + b) == Shown(fetch, a) + Shown(fetch, b)
  {
    if b == [] {
      assert a + b == a;
    } else {
      assert (a + b)[..|a + b| - 1] == a + b[..|b| - 1];
      ShownAppend(fetch, a, b[..|b| - 1]);
    }
  }

  // ---- one section ----

  /** The section is answered from the index of its asset, which covers it. */
  ghost predicate SectionAnswered(world: World, cut: Cut, answer: Answer) {
    && cut.asset in world && Covers(world[cut.asset].frames, cut)
    && answer.Rows? && AnswersQuery(world[cut.asset].frames, cut, answer)
  }

  /** The entries are consecutive rows of one asset's index, beginning with row `first`. */
  ghost predicate Consecutive(world: World, asset: string, first: nat, entries: seq<Entry>) {
    forall i | 0 <= i < |entries| :: IsRow(world, entries[i], asset, first + i)
  }

  /** The first `n` rows are the index rows from `first` on, each for half a second. */
  ghost predicate RowsTo(index: seq<Frame>, first: nat, rows: seq<Frame>, n: nat)
    requires n <= |rows|
  {
    n > 0 ==>
      && RowsTo(index, first, rows, n - 1)
      && first + n <= |index| && rows[n - 1] == index[first + n - 1] && RowMs(rows, n - 1) == GOP_MS
  }

  /** The answer holds just the rows of the cut's whole half seconds. */
  ghost predicate SectionRows(world: World, cut: Cut, answer: Answer) {
    && cut.asset in world && InBounds(cut) && answer.Rows? && |answer.rows| == GopCount(cut)
    && FirstRow(cut.sourceStart) + GopCount(cut) <= |world[cut.asset].frames|
    && RowsTo(world[cut.asset].frames, FirstRow(cut.sourceStart), answer.rows, |answer.rows|)
  }

  lemma {:induction false} RowsToFrom(index: seq<Frame>, first: nat, rows: seq<Frame>, n: nat)
    requires n <= |rows|
    requires forall i: nat | i < n :: first + i < |index| && rows[i] == index[first + i] && RowMs(rows, i) == GOP_MS
    ensures RowsTo(index, first, rows, n)
  {
    if n > 0 {
      RowsToFrom(index, first, rows, n - 1);
    }
  }

  lemma {:induction false} RowsToAt(index: seq<Frame>, first: nat, rows: seq<Frame>, n: nat, i: nat)
    requires i < n <= |rows| && RowsTo(index, first, rows, n)
    ensures first + i < |index| && rows[i] == index[first + i] && RowMs(rows, i) == GOP_MS
  {
    if i < n - 1 {
      RowsToAt(index, first, rows, n - 1, i);
    }
  }

  lemma {:induction false} SectionHasRows(world: World, cut: Cut, answer: Answer)
    requires SectionAnswered(world, cut, answer)
    ensures SectionRows(world, cut, answer)
  {
    var index, first, rows := world[cut.asset].frames, FirstRow(cut.sourceStart), answer.rows;
    CoveredRows(index, cut, answer);
    forall i: nat | i < |rows|
      ensures first + i < |index| && rows[i] == index[first + i] && RowMs(rows, i) == GOP_MS
    {
    }
    RowsToFrom(index, first, rows, |rows|);
  }

  lemma {:induction false} SectionIsConsecutive(world: World, cut: Cut, answer: Answer, isFirst: bool)
    requires SectionRows(world, cut, answer)
    ensures Consecutive(world, cut.asset, FirstRow(cut.sourceStart), RowEntries(cut.asset, answer.rows, isFirst))
  {
    var index, first, rows := world[cut.asset].frames, FirstRow(cut.sourceStart), answer.rows;
    var entries := RowEntries(cut.asset, rows, isFirst);
    forall i | 0 <= i < |entries|
      ensures IsRow(world, entries[i], cut.asset, first + i)
    {
      RowsToAt(index, first, rows, |rows|, i);
    }
  }

  lemma {:induction false} EntriesShown(world: World, fetch: Fetch, asset: string, first: nat, entries: seq<Entry>)
    requires Faithful(world, fetch) && Consecutive(world, asset, first, entries)
    requires asset in world && |world[asset].frames| == FirstRow(world[asset].length)
    requires first < |world[asset].frames|
    ensures Shown(fetch, entries)
            == Samples(asset, GOP_MS * first, Min(GOP_MS * (first + |entries|), world[asset].length))
  {
    if entries != [] {
      var n := |entries| - 1;
      EntriesShown(world, fetch, asset, first, entries[..n]);
      assert IsRow(world, entries[n], asset, first + n);
      FetchRow(world, fetch, entries[n], asset, first + n);
      PieceFollows(asset, world[asset].length, first, first + n);
    }
  }

  /** The piece of row `k` follows the samples up to it. */
  lemma {:induction false} PieceFollows(asset: string, length: nat, first: nat, k: nat)
    requires first <= k < FirstRow(length)
    ensures Samples(asset, GOP_MS * first, Min(GOP_MS * k, length)) + Piece(asset, length, k)
            == Samples(asset, GOP_MS * first, Min(GOP_MS * (k + 1), length))
  {
  }

  /** A section shows whole half seconds from the first one at or after its start in the source. */
  lemma {:induction false} SectionShown(world: World, fetch: Fetch, cut: Cut, answer: Answer, isFirst: bool)
    requires Indexed(world) && Faithful(world, fetch) && SectionRows(world, cut, answer)
    ensures Shown(fetch, RowEntries(cut.asset, answer.rows, isFirst))
            == Samples(cut.asset, GOP_MS * FirstRow(cut.sourceStart),
                       Min(GOP_MS * (FirstRow(cut.sourceStart) + GopCount(cut)), world[cut.asset].length))
  {
    SectionIsConsecutive(world, cut, answer, isFirst);
    EntriesShown(world, fetch, cut.asset, FirstRow(cut.sourceStart), RowEntries(cut.asset, answer.rows, isFirst));
  }

  // ---- a playlist by its announced times ----

  /** What is heard `at` milliseconds into an entry; nothing once its bytes are used up. */
  ghost function EntryAt(fetch: Fetch, e: Entry, at: nat): set<Sample> {
    if at < |fetch(e)| then {fetch(e)[at]} else {}
  }

  /** What is heard at program time `p`, every entry taking the time its EXTINF tag announces. */
  ghost function ProgramAt(fetch: Fetch, entries: seq<Entry>, p: int): set<Sample> {
    if entries == [] then {}
    else
      var before, last := Announced(entries[..|entries| - 1]), entries[|entries| - 1];
      if p < before then ProgramAt(fetch, entries[..|entries| - 1], p)
      else if p < before + last.ms then EntryAt(fetch, last, p - before)
      else {}
  }

  lemma {:induction false} GopProgram(fetch: Fetch, entries: seq<Entry>, p: nat)
    requires p < GOP_MS * |entries| && forall i | 0 <= i < |entries| :: entries[i].ms == GOP_MS
    ensures ProgramAt(fetch, entries, p) == EntryAt(fetch, entries[p / GOP_MS], p % GOP_MS)
  {
    var n := |entries| - 1;
    AnnouncedGops(entries[..n]);
    if p < GOP_MS * n {
      GopProgram(fetch, entries[..n], p);
    } else {
      assert p / GOP_MS == n;
    }
  }
}
