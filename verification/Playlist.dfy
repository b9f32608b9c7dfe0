/**
 The HLS playlist of a branch (RFC 8216): every half-second index row of a section becomes an
 EXTINF (section 4.3.2.1), an EXT-X-BYTERANGE (section 4.3.2.2) and a segment URI, with
 EXT-X-DISCONTINUITY (section 4.3.2.3) where the source changes.
 */
module Playlist {
  import opened GoInts
  import opened Wrappers
  import opened SegmentNames

  const KEYFRAMES_PER_SECOND := 2
  const GOP_MS := 500

  /** A row of the keyframes or audioframes table, without the asset id. */
  datatype Frame = Frame(ts: int64, segment: int64, offset: int64, size: int64)

  datatype Answer = Rows(rows: seq<Frame>) | QueryFailed

  /** What the playlist writer reads of a video or audio section. */
  datatype Cut = Cut(start: uint64, end: uint64, asset: string, sourceStart: uint64)

  // ---- the index query ----

  /** `end - start` in `uint64` arithmetic. */
  function Duration(cut: Cut): uint64 {
    ToUint64(cut.end - cut.start)
  }

  /** `int32(durationMs * KEYFRAMES_PER_SECOND / 1000)`, but 1 instead of 0. */
  function Limit(cut: Cut): int {
    var limit := ToInt32(ToUint64(Duration(cut) * KEYFRAMES_PER_SECOND) / 1000);
    if limit == 0 then 1 else limit
  }

  /** The order (segment_idx, byte_offset_in_segment) of the query. */
  predicate Before(f: Frame, g: Frame) {
    f.segment < g.segment || (f.segment == g.segment && f.offset < g.offset)
  }

  /** `rows` is the ordered, limited selection of the index rows at or after `from`. */
  ghost predicate IsSelection(index: seq<Frame>, from: int64, limit: nat, rows: seq<Frame>) {
    && |rows| <= limit
    && (forall i | 0 <= i < |rows| :: rows[i] in index && rows[i].ts >= from)
    && (forall i, j | 0 <= i < j < |rows| :: rows[i] != rows[j] && !Before(rows[j], rows[i]))
    && (forall f | f in index && f.ts >= from && f !in rows ::
          |rows| == limit && forall i | 0 <= i < |rows| :: !Before(f, rows[i]))
  }

  /** What the database may answer for a section; a negative limit is refused by the server. */
  ghost predicate AnswersQuery(index: seq<Frame>, cut: Cut, answer: Answer) {
    answer.Rows? ==> Limit(cut) >= 0 && IsSelection(index, ToInt64(cut.sourceStart), Limit(cut), answer.rows)
  }

  // ---- lines ----

  datatype Line =
    | Discontinuity
    | ExtInf(ms: int)
    | ByteRange(size: int, offset: int)
    | Uri(asset: string, segment: int64)    // printed as SegmentPath(asset, segment)

  function RowMs(rows: seq<Frame>, i: nat): int
    requires i < |rows|
  {
    if i + 1 < |rows| then ToInt64(rows[i + 1].ts - rows[i].ts) else GOP_MS
  }

  function RowLines(asset: string, rows: seq<Frame>, i: nat): seq<Line>
    requires i < |rows|
  {
    (if i > 0 && rows[i].segment != rows[i - 1].segment && rows[i - 1].segment != -1 then [Discontinuity] else [])
    + [ExtInf(RowMs(rows, i)), ByteRange(rows[i].size, rows[i].offset), Uri(asset, rows[i].segment)]
  }

  function RowsLines(asset: string, rows: seq<Frame>, n: nat): seq<Line>
    requires n <= |rows|
  {
    if n == 0 then [] else RowsLines(asset, rows, n - 1) + RowLines(asset, rows, n - 1)
  }

  predicate EndsWithUri(lines: seq<Line>) {
    lines != [] && lines[|lines| - 1].Uri?
  }

  /** The lines of the first `n` rows, with the discontinuity between sections. */
  function RowsFrom(asset: string, rows: seq<Frame>, isFirst: bool, n: nat): seq<Line>
    requires n <= |rows|
  {
    (if isFirst then [] else [Discontinuity]) + RowsLines(asset, rows, n)
  }

  lemma {:induction false} RowsFromStep(asset: string, rows: seq<Frame>, isFirst: bool, n: nat)
    requires n < |rows|
    ensures RowsFrom(asset, rows, isFirst, n + 1) == RowsFrom(asset, rows, isFirst, n) + RowLines(asset, rows, n)
    ensures EndsWithUri(RowsFrom(asset, rows, isFirst, n + 1))
  {
  }

  function SectionLines(asset: string, rows: seq<Frame>, isFirst: bool): seq<Line> {
    RowsFrom(asset, rows, isFirst, |rows|)
  }

  function PlaylistLines(cuts: seq<Cut>, answers: seq<Answer>): seq<Line>
    requires |answers| == |cuts| && forall i | 0 <= i < |answers| :: answers[i].Rows?
  {
    if cuts == [] then []
    else
      var n := |cuts| - 1;
      PlaylistLines(cuts[..n], answers[..n]) + SectionLines(cuts[n].asset, answers[n].rows, n == 0)
  }

  // ---- the serializer ----

  datatype Error = NoRows | DatabaseError | Overlap

  predicate Answers(answer: Answer) {
    answer.Rows? && answer.rows != []
  }

  /** What a section without rows is refused with. */
  function RefusedWith(answer: Answer): Error {
    if answer.QueryFailed? then DatabaseError else NoRows
  }

  /** `serializeSection` and `serializeAudioSection`, after their query. */
  method SerializeSection(asset: string, isFirst: bool, answer: Answer) returns (r: Result<seq<Line>, Error>)
    ensures r.Ok? <==> Answers(answer)
    ensures r.Ok? ==> r.value == SectionLines(asset, answer.rows, isFirst)
    ensures r.Err? ==> r.error == RefusedWith(answer) && (r.error == DatabaseError <==> answer == QueryFailed)
  {
    if answer.QueryFailed? {
      return Err(DatabaseError);
    }
    var rows := answer.rows;
    if |rows| == 0 {
      return Err(NoRows);
    }
    var b: seq<Line> := [];
    if !isFirst {
      b := b + [Discontinuity];
    }
    var prevSegIdx: int64 := -1;
    for i := 0 to |rows|
      invariant prevSegIdx == if i == 0 then -1 else rows[i - 1].segment
      invariant b == RowsFrom(asset, rows, isFirst, i)
    {
      var lines := SerializeRow(asset, rows, i, prevSegIdx);
      RowsFromStep(asset, rows, isFirst, i);
      b := b + lines;
      prevSegIdx := rows[i].segment;
    }
    return Ok(b);
  }

  /** The body of the loop over the rows. */
  method SerializeRow(asset: string, rows: seq<Frame>, i: nat, prevSegIdx: int64) returns (b: seq<Line>)
    requires i < |rows| && prevSegIdx == if i == 0 then -1 else rows[i - 1].segment
    ensures b == RowLines(asset, rows, i)
  {
    var row := rows[i];
    var segDuration := if i + 1 < |rows| then ToInt64(rows[i + 1].ts - row.ts) else GOP_MS;
    b := [];
    if row.segment != prevSegIdx && prevSegIdx != -1 {
      b := b + [Discontinuity];
    }
    b := b + [ExtInf(segDuration)];
    b := b + [ByteRange(row.size, row.offset)];
    b := b + [Uri(asset, row.segment)];
  }

  /** Section `i` is the first one refused. */
  ghost predicate FirstRefused(answers: seq<Answer>, i: nat, error: Error) {
    && i < |answers| && !Answers(answers[i]) && error == RefusedWith(answers[i])
    && forall j | 0 <= j < i :: Answers(answers[j])
  }

  /** `ParseVideoSectionsToHLS`, between the header and the end tag; `answers[i]` answers the query of section `i`. */
  method ParseSectionsToHLS(cuts: seq<Cut>, answers: seq<Answer>) returns (r: Result<seq<Line>, Error>)
    requires |answers| == |cuts|
    ensures r.Ok? <==> forall i | 0 <= i < |answers| :: Answers(answers[i])
    ensures r.Ok? ==> r.value == PlaylistLines(cuts, answers)
    ensures r.Err? ==> exists i: nat :: FirstRefused(answers, i, r.error)
  {
    var base: seq<Line> := [];
    for i := 0 to |cuts|
      invariant forall j | 0 <= j < i :: Answers(answers[j])
      invariant base == PlaylistLines(cuts[..i], answers[..i])
    {
      var seg := SerializeSection(cuts[i].asset, i == 0, answers[i]);
      if seg.Err? {
        assert FirstRefused(answers, i, seg.error);
        return seg;
      }
      assert cuts[..i + 1][..i] == cuts[..i] && answers[..i + 1][..i] == answers[..i];
      base := base + seg.value;
    }
    assert cuts[..|cuts|] == cuts && answers[..|cuts|] == answers;
    return Ok(base);
  }

  // ---- what a player makes of it ----

  /** One media segment of the playlist; `jump` when a discontinuity precedes it. */
  datatype Entry = Entry(asset: string, segment: int64, offset: int, size: int, ms: int, jump: bool)

  /** The object a player fetches the bytes from. */
  function EntryKey(e: Entry): string {
    SegmentPath(e.asset, e.segment)
  }

  /** Reads the lines as a player does; None when they are not a sequence of complete entries. */
  function Play(lines: seq<Line>, jump: bool): Option<seq<Entry>>
    decreases |lines|
  {
    if lines == [] then Some([])
    else if lines[0].Discontinuity? then Play(lines[1..], true)
    else if |lines| >= 3 && lines[0].ExtInf? && lines[1].ByteRange? && lines[2].Uri? then
      match Play(lines[3..], false)
      case None => None
      case Some(rest) => Some([Entry(lines[2].asset, lines[2].segment, lines[1].offset, lines[1].size, lines[0].ms,
          jump)] + rest)
    else None
  }

  /** The playing time announced by the EXTINF tags of the entries. */
  function Announced(entries: seq<Entry>): int {
    if entries == [] then 0 else Announced(entries[..|entries| - 1]) + entries[|entries| - 1].ms
  }

  /** The entries the index rows of one section stand for. */
  function RowEntry(asset: string, rows: seq<Frame>, isFirst: bool, i: nat): Entry
    requires i < |rows|
  {
    Entry(asset, rows[i].segment, rows[i].offset, rows[i].size, RowMs(rows, i),
          if i == 0 then !isFirst else rows[i].segment != rows[i - 1].segment)
  }

  function RowEntries(asset: string, rows: seq<Frame>, isFirst: bool): (entries: seq<Entry>)
    ensures |entries| == |rows|
    ensures forall i | 0 <= i < |rows| :: entries[i] == RowEntry(asset, rows, isFirst, i)
  {
    seq(|rows|, i requires 0 <= i < |rows| => RowEntry(asset, rows, isFirst, i))
  }

  lemma {:induction false} PlayAppend(a: seq<Line>, b: seq<Line>, jump: bool)
    requires EndsWithUri(a) && Play(a, jump).Some?
    ensures Play(a + b, jump) ==
            match Play(b, false) case None => None case Some(rest) => Some(Play(a, jump).value + rest)
    decreases |a|
  {
    if a[0].Discontinuity? {
      assert (a + b)[1..] == a[1..] + b;
      PlayAppend(a[1..], b, true);
    } else {
      assert (a + b)[3..] == a[3..] + b;
      assert (a + b)[0] == a[0] && (a + b)[1] == a[1] && (a + b)[2] == a[2];
      var e := Entry(a[2].asset, a[2].segment, a[1].offset, a[1].size, a[0].ms, jump);
      if |a| > 3 {
        PlayAppend(a[3..], b, false);
        var tail := Play(a[3..], false).value;
        if Play(b, false).Some? {
          assert [e] + (tail + Play(b, false).value) == [e] + tail + Play(b, false).value;
        }
      } else {
        assert a == [a[0], a[1], a[2]] && a[3..] + b == b;
        PlayOne(a[0], a[1], a[2], jump);
      }
    }
  }

  lemma {:induction false} PlayOne(x: Line, y: Line, z: Line, jump: bool)
    requires x.ExtInf? && y.ByteRange? && z.Uri?
    ensures Play([x, y, z], jump) == Some([Entry(z.asset, z.segment, y.offset, y.size, x.ms, jump)])
  {
    var lines := [x, y, z];
    assert lines[3..] == [];
    assert Play(lines[3..], false) == Some([]);
    assert [Entry(z.asset, z.segment, y.offset, y.size, x.ms, jump)] + []
        == [Entry(z.asset, z.segment, y.offset, y.size, x.ms, jump)];
  }

  /** A discontinuity before an entry marks the entry and nothing else. */
  lemma {:induction false} PlayMarked(x: Line, y: Line, z: Line, jump: bool)
    requires x.ExtInf? && y.ByteRange? && z.Uri?
    ensures Play([Discontinuity] + [x, y, z], jump) == Some([Entry(z.asset, z.segment, y.offset, y.size, x.ms, true)])
  {
    PlayOne(x, y, z, true);
    assert ([Discontinuity] + [x, y, z])[1..] == [x, y, z];
  }

  function RowTriple(asset: string, rows: seq<Frame>, i: nat): seq<Line>
    requires i < |rows|
  {
    [ExtInf(RowMs(rows, i)), ByteRange(rows[i].size, rows[i].offset), Uri(asset, rows[i].segment)]
  }

  lemma {:induction false} PlayRow(asset: string, rows: seq<Frame>, isFirst: bool, i: nat)
    requires i < |rows| && forall k | 0 <= k < |rows| :: rows[k].segment >= 0
    ensures i > 0 ==> Play(RowLines(asset, rows, i), false) == Some([RowEntry(asset, rows, isFirst, i)])
    ensures i == 0 ==> Play((if isFirst then [] else [Discontinuity]) + RowLines(asset, rows, i), false)
                       == Some([RowEntry(asset, rows, isFirst, i)])
  {
    var t := RowTriple(asset, rows, i);
    PlayOne(t[0], t[1], t[2], false);
    PlayMarked(t[0], t[1], t[2], false);
    assert [] + t == t;
    assert RowLines(asset, rows, i) == t || RowLines(asset, rows, i) == [Discontinuity] + t;
  }

  lemma {:induction false} PlayRows(asset: string, rows: seq<Frame>, isFirst: bool, n: nat)
    requires 1 <= n <= |rows| && forall i | 0 <= i < |rows| :: rows[i].segment >= 0
    ensures EndsWithUri(RowsFrom(asset, rows, isFirst, n))
    ensures Play(RowsFrom(asset, rows, isFirst, n), false) == Some(RowEntries(asset, rows, isFirst)[..n])
  {
    var i := n - 1;
    PlayRow(asset, rows, isFirst, i);
    RowsFromStep(asset, rows, isFirst, i);
    var entries := RowEntries(asset, rows, isFirst);
    assert entries[..n] == entries[..i] + [entries[i]];
    if i == 0 {
      assert RowsFrom(asset, rows, isFirst, 0) == if isFirst then [] else [Discontinuity];
      assert entries[..1] == [entries[0]];
    } else {
      PlayRows(asset, rows, isFirst, i);
      PlayAppend(RowsFrom(asset, rows, isFirst, i), RowLines(asset, rows, i), false);
    }
  }

  /** All entries of a playlist, section after section. */
  function PlaylistEntries(cuts: seq<Cut>, answers: seq<Answer>): seq<Entry>
    requires |answers| == |cuts| && forall i | 0 <= i < |answers| :: answers[i].Rows?
  {
    if cuts == [] then []
    else
      var n := |cuts| - 1;
      PlaylistEntries(cuts[..n], answers[..n]) + RowEntries(cuts[n].asset, answers[n].rows, n == 0)
  }

  /** The rows of each section are there, from real segments. */
  ghost predicate Served(answers: seq<Answer>) {
    forall i | 0 <= i < |answers| ::
      && answers[i].Rows? && answers[i].rows != []
      && forall k | 0 <= k < |answers[i].rows| :: answers[i].rows[k].segment >= 0
  }

  /**
   Playing the written playlist gives one entry per index row, with the row's bytes of the row's
   segment, and a discontinuity exactly where the section or the segment changes.
   */
  lemma {:induction false} PlaylistPlays(cuts: seq<Cut>, answers: seq<Answer>)
    requires |answers| == |cuts| && Served(answers)
    ensures Play(PlaylistLines(cuts, answers), false) == Some(PlaylistEntries(cuts, answers))
    ensures cuts != [] ==> EndsWithUri(PlaylistLines(cuts, answers))
  {
    if cuts != [] {
      var n := |cuts| - 1;
      PlaylistPlays(cuts[..n], answers[..n]);
      PlaySection(cuts[n].asset, answers[n].rows, n == 0);
      var lines, last := PlaylistLines(cuts[..n], answers[..n]), SectionLines(cuts[n].asset, answers[n].rows, n == 0);
      if n > 0 {
        PlayAppend(lines, last, false);
      } else {
        assert lines + last == last;
        var entries := RowEntries(cuts[n].asset, answers[n].rows, true);
        assert PlaylistEntries(cuts[..n], answers[..n]) + entries == entries;
      }
    }
  }

  lemma {:induction false} PlaySection(asset: string, rows: seq<Frame>, isFirst: bool)
    requires rows != [] && forall k | 0 <= k < |rows| :: rows[k].segment >= 0
    ensures EndsWithUri(SectionLines(asset, rows, isFirst))
    ensures Play(SectionLines(asset, rows, isFirst), false) == Some(RowEntries(asset, rows, isFirst))
  {
    PlayRows(asset, rows, isFirst, |rows|);
    var entries := RowEntries(asset, rows, isFirst);
    assert entries[..|rows|] == entries;
  }

  // ---- arithmetic ----

  /** An index with a row at every half second, in storage order. */
  ghost predicate FullIndex(index: seq<Frame>) {
    && |index| * GOP_MS <= INT64_MAX
    && (forall k | 0 <= k < |index| :: index[k].ts == GOP_MS * k && index[k].segment >= 0)
    && (forall i, j | 0 <= i < j < |index| :: Before(index[i], index[j]))
  }

  /** The first half second at or after `from`. */
  function FirstRow(from: nat): nat {
    (from + GOP_MS - 1) / GOP_MS
  }

  /** No row of the selection skips an index row that is not in front of it. */
  lemma {:induction false} NothingSkipped(index: seq<Frame>, from: int64, limit: nat, rows: seq<Frame>, i: nat,
          f: Frame)
    requires IsSelection(index, from, limit, rows) && i < |rows| && f in index && f.ts >= from
    requires Before(f, rows[i])
    ensures exists j: nat :: j < i && rows[j] == f
  {
  }

  /** Row `j` of the selection is the `j`-th index row from `a` on. */
  predicate InPlace(index: seq<Frame>, a: nat, rows: seq<Frame>, j: nat) {
    j < |rows| && a + j < |index| && rows[j] == index[a + j]
  }

  lemma {:induction false} NotAfterItsPlace(index: seq<Frame>, from: int64, limit: nat, rows: seq<Frame>, i: nat,
                                            k: nat)
    requires FullIndex(index) && from >= 0 && IsSelection(index, from, limit, rows)
    requires i < |rows| && k < |index| && index[k] == rows[i]
    requires forall j: nat | j < i :: InPlace(index, FirstRow(from), rows, j)
    ensures k <= FirstRow(from) + i
  {
    var a, place := FirstRow(from), FirstRow(from) + i;
    forall j: nat | j < i
      ensures place < |index| ==> rows[j] != index[place]
    {
      assert InPlace(index, a, rows, j);
    }
    if k > place {
      NothingSkipped(index, from, limit, rows, i, index[place]);
    }
  }

  lemma {:induction false} NotBeforeItsPlace(index: seq<Frame>, from: int64, limit: nat, rows: seq<Frame>, i: nat,
                                             k: nat)
    requires FullIndex(index) && from >= 0 && IsSelection(index, from, limit, rows)
    requires i < |rows| && k < |index| && index[k] == rows[i]
    requires forall j: nat | j < i :: InPlace(index, FirstRow(from), rows, j)
    ensures k >= FirstRow(from) + i
  {
    var a := FirstRow(from);
    assert k >= a;
    assert k < a + i ==> InPlace(index, a, rows, k - a);
  }

  lemma {:induction false} RowInPlace(index: seq<Frame>, from: int64, limit: nat, rows: seq<Frame>, i: nat)
    requires FullIndex(index) && from >= 0 && i < |rows|
    requires IsSelection(index, from, limit, rows)
    ensures InPlace(index, FirstRow(from), rows, i)
    decreases i
  {
    forall j: nat | j < i
      ensures InPlace(index, FirstRow(from), rows, j)
    {
      RowInPlace(index, from, limit, rows, j);
    }
    assert rows[i] in index;
    var k: nat :| k < |index| && index[k] == rows[i];
    NotBeforeItsPlace(index, from, limit, rows, i, k);
    NotAfterItsPlace(index, from, limit, rows, i, k);
  }

  lemma {:induction false} RowsFollow(index: seq<Frame>, from: int64, limit: nat, rows: seq<Frame>)
    requires FullIndex(index) && from >= 0 && FirstRow(from) <= |index| && IsSelection(index, from, limit, rows)
    ensures FirstRow(from) + |rows| <= |index| && rows == index[FirstRow(from)..FirstRow(from) + |rows|]
  {
    var a := FirstRow(from);
    forall i: nat | i < |rows|
      ensures InPlace(index, a, rows, i)
    {
      RowInPlace(index, from, limit, rows, i);
    }
    AllInPlace(index, a, rows);
  }

  lemma {:induction false} AllInPlace(index: seq<Frame>, a: nat, rows: seq<Frame>)
    requires a <= |index| && forall i: nat | i < |rows| :: InPlace(index, a, rows, i)
    ensures a + |rows| <= |index| && rows == index[a..a + |rows|]
  {
    assert rows != [] ==> InPlace(index, a, rows, |rows| - 1);
    var slice := index[a..a + |rows|];
    forall i: nat | i < |rows|
      ensures rows[i] == slice[i]
    {
      assert InPlace(index, a, rows, i);
    }
  }

  lemma {:induction false} RowsSuffice(index: seq<Frame>, from: int64, limit: nat, rows: seq<Frame>)
    requires from >= 0 && FirstRow(from) + |rows| < |index| && IsSelection(index, from, limit, rows)
    requires forall k | 0 <= k < |index| :: index[k].ts == GOP_MS * k
    requires forall j | 0 <= j < |rows| :: rows[j].ts < GOP_MS * (FirstRow(from) + |rows|)
    ensures |rows| == limit
  {
    var f := index[FirstRow(from) + |rows|];
    assert f in index && f.ts >= from && f !in rows;
  }

  /** On a full index the query answers with consecutive rows, whatever plan the database uses. */
  lemma {:induction false} SelectionIsSlice(index: seq<Frame>, from: int64, limit: nat, rows: seq<Frame>)
    requires FullIndex(index) && from >= 0 && FirstRow(from) <= |index|
    requires IsSelection(index, from, limit, rows)
    ensures var a := FirstRow(from);
      rows == index[a..a + (if limit <= |index| - a then limit else |index| - a)]
  {
    RowsFollow(index, from, limit, rows);
    if FirstRow(from) + |rows| < |index| {
      RowsSuffice(index, from, limit, rows);
    }
    assert |rows| <= limit;
  }

  /** A cut whose numbers do not wrap and whose limit fits `int32`. */
  predicate InBounds(cut: Cut) {
    cut.start <= cut.end && 2 * (cut.end - cut.start) < TWO_64 && (cut.end - cut.start) / GOP_MS < 0x8000_0000
    && cut.sourceStart <= INT64_MAX
  }

  /** The number of whole half seconds in a cut, but at least one. */
  function GopCount(cut: Cut): nat
    requires cut.start <= cut.end
  {
    var n := (cut.end - cut.start) / GOP_MS;
    if n == 0 then 1 else n
  }

  lemma {:induction false} LimitIsGopCount(cut: Cut)
    requires InBounds(cut)
    ensures Limit(cut) == GopCount(cut)
  {
  }

  /** The index covers a cut: it has a row for every half second asked for. */
  ghost predicate Covers(index: seq<Frame>, cut: Cut) {
    InBounds(cut) && FullIndex(index) && FirstRow(cut.sourceStart) + GopCount(cut) <= |index|
  }

  /** What the database answers for a cut in bounds, with the arithmetic carried out. */
  lemma {:induction false} AnswerIsSelection(index: seq<Frame>, cut: Cut, answer: Answer)
    requires InBounds(cut) && AnswersQuery(index, cut, answer) && answer.Rows?
    ensures IsSelection(index, cut.sourceStart, GopCount(cut), answer.rows)
  {
    LimitIsGopCount(cut);
  }

  /** A covered cut emits exactly its whole half seconds, as consecutive rows from its start. */
  lemma {:induction false} CoveredRows(index: seq<Frame>, cut: Cut, answer: Answer)
    requires Covers(index, cut) && AnswersQuery(index, cut, answer) && answer.Rows?
    ensures answer.rows == index[FirstRow(cut.sourceStart)..FirstRow(cut.sourceStart) + GopCount(cut)]
    ensures forall i: nat | i < |answer.rows| ::
      && answer.rows[i].ts == GOP_MS * (FirstRow(cut.sourceStart) + i)
      && answer.rows[i].segment >= 0 && RowMs(answer.rows, i) == GOP_MS
  {
    AnswerIsSelection(index, cut, answer);
    SelectionIsSlice(index, cut.sourceStart, GopCount(cut), answer.rows);
  }

  lemma {:induction false} AnnouncedAppend(a: seq<Entry>, b: seq<Entry>)
    ensures Announced(a + b) == Announced(a) + Announced(b)
  {
    if b == [] {
      assert a + b == a;
    } else {
      assert (a + b)[..|a + b| - 1] == a + b[..|b| - 1];
      AnnouncedAppend(a, b[..|b| - 1]);
    }
  }

  lemma {:induction false} AnnouncedGops(entries: seq<Entry>)
    requires forall i | 0 <= i < |entries| :: entries[i].ms == GOP_MS
    ensures Announced(entries) == GOP_MS * |entries|
  {
    if entries != [] { AnnouncedGops(entries[..|entries| - 1]); }
  }

  /** Each entry lasts up to the next row, and the last one half a second. */
  lemma {:induction false} EntryLastsToTheNextRow(asset: string, rows: seq<Frame>, isFirst: bool, i: nat)
    requires i < |rows| && forall k | 0 <= k < |rows| :: rows[k].ts >= 0
    ensures RowEntries(asset, rows, isFirst)[i].ms
            == if i == |rows| - 1 then 500 else rows[i + 1].ts - rows[i].ts
  {
    assert rows[i].ts >= 0 && (i + 1 < |rows| ==> rows[i + 1].ts >= 0);
  }

  lemma {:induction false} AnnouncedTo(asset: string, rows: seq<Frame>, isFirst: bool, n: nat)
    requires n < |rows| && forall k | 0 <= k < |rows| :: rows[k].ts >= 0
    ensures Announced(RowEntries(asset, rows, isFirst)[..n]) == rows[n].ts - rows[0].ts
  {
    if n > 0 {
      var entries := RowEntries(asset, rows, isFirst);
      AnnouncedTo(asset, rows, isFirst, n - 1);
      EntryLastsToTheNextRow(asset, rows, isFirst, n - 1);
      assert entries[..n][..n - 1] == entries[..n - 1];
    }
  }

  /** A section announces the time its rows span, gaps in the index included, and half a second for the last. */
  lemma {:induction false} SectionAnnouncesItsSpan(asset: string, rows: seq<Frame>, isFirst: bool)
    requires rows != [] && forall k | 0 <= k < |rows| :: rows[k].ts >= 0
    ensures Announced(RowEntries(asset, rows, isFirst)) == rows[|rows| - 1].ts - rows[0].ts + 500
  {
    var n, entries := |rows| - 1, RowEntries(asset, rows, isFirst);
    AnnouncedTo(asset, rows, isFirst, n);
    EntryLastsToTheNextRow(asset, rows, isFirst, n);
    assert entries[..n] == entries[..|entries| - 1];
  }

  function TotalDuration(cuts: seq<Cut>): int {
    if cuts == [] then 0
    else TotalDuration(cuts[..|cuts| - 1]) + (cuts[|cuts| - 1].end - cuts[|cuts| - 1].start)
  }

  /** Every section is answered from a covering index of its asset. */
  ghost predicate Answered(indexes: map<string, seq<Frame>>, cuts: seq<Cut>, answers: seq<Answer>) {
    && |answers| == |cuts|
    && forall i | 0 <= i < |cuts| ::
         && cuts[i].asset in indexes && Covers(indexes[cuts[i].asset], cuts[i])
         && answers[i].Rows? && AnswersQuery(indexes[cuts[i].asset], cuts[i], answers[i])
  }

  predicate Forward(cuts: seq<Cut>) {
    forall i | 0 <= i < |cuts| :: cuts[i].start <= cuts[i].end
  }

  /** Sections of half a second or more. */
  predicate LongEnough(cuts: seq<Cut>) {
    forall i | 0 <= i < |cuts| :: cuts[i].start + GOP_MS <= cuts[i].end
  }

  predicate OnGrid(cuts: seq<Cut>) {
    forall i | 0 <= i < |cuts| :: (cuts[i].end - cuts[i].start) % GOP_MS == 0
  }

  /** What a covered section announces: its whole half seconds, but at least one. */
  lemma {:induction false} SectionAnnounced(index: seq<Frame>, cut: Cut, answer: Answer, isFirst: bool)
    requires Covers(index, cut) && AnswersQuery(index, cut, answer) && answer.Rows?
    ensures Announced(RowEntries(cut.asset, answer.rows, isFirst)) == GOP_MS * GopCount(cut)
  {
    CoveredRows(index, cut, answer);
    var entries := RowEntries(cut.asset, answer.rows, isFirst);
    assert |entries| == GopCount(cut);
    AnnouncedGops(entries);
  }

  lemma {:induction false} AnsweredPrefix(indexes: map<string, seq<Frame>>, cuts: seq<Cut>, answers: seq<Answer>)
    requires Answered(indexes, cuts, answers) && cuts != []
    ensures Answered(indexes, cuts[..|cuts| - 1], answers[..|cuts| - 1])
  {
  }

  /** The whole half seconds of all sections. */
  function TotalGops(cuts: seq<Cut>): int
    requires Forward(cuts)
  {
    if cuts == [] then 0 else TotalGops(cuts[..|cuts| - 1]) + GopCount(cuts[|cuts| - 1])
  }

  lemma {:induction false} AnnouncedIsTotalGops(indexes: map<string, seq<Frame>>, cuts: seq<Cut>, answers: seq<Answer>)
    requires Answered(indexes, cuts, answers)
    ensures Forward(cuts) && Announced(PlaylistEntries(cuts, answers)) == GOP_MS * TotalGops(cuts)
  {
    forall i | 0 <= i < |cuts| ensures cuts[i].start <= cuts[i].end {
      assert Covers(indexes[cuts[i].asset], cuts[i]);
    }
    if cuts != [] {
      var n := |cuts| - 1;
      AnsweredPrefix(indexes, cuts, answers);
      AnnouncedIsTotalGops(indexes, cuts[..n], answers[..n]);
      SectionAnnounced(indexes[cuts[n].asset], cuts[n], answers[n], n == 0);
      AnnouncedAppend(PlaylistEntries(cuts[..n], answers[..n]), RowEntries(cuts[n].asset, answers[n].rows, n == 0));
    }
  }

  /** How many sections are shorter than half a second. */
  function Shorts(cuts: seq<Cut>): nat {
    if cuts == [] then 0
    else Shorts(cuts[..|cuts| - 1]) + (if cuts[|cuts| - 1].end - cuts[|cuts| - 1].start < GOP_MS then 1 else 0)
  }

  /** A section's own length against its whole half seconds. */
  lemma {:induction false} GopsCompare(cut: Cut)
    requires cut.start <= cut.end
    ensures var d := cut.end - cut.start - GOP_MS * GopCount(cut);
      if cut.end - cut.start < GOP_MS then -GOP_MS <= d < 0
      else 0 <= d < GOP_MS && (d == 0 <==> (cut.end - cut.start) % GOP_MS == 0)
  {
  }

  lemma {:induction false} TotalsCompare(cuts: seq<Cut>)
    requires Forward(cuts)
    ensures Shorts(cuts) <= |cuts|
    ensures -GOP_MS * Shorts(cuts) <= TotalDuration(cuts) - GOP_MS * TotalGops(cuts)
            <= (GOP_MS - 1) * (|cuts| - Shorts(cuts)) - Shorts(cuts)
  {
    if cuts != [] {
      var n := |cuts| - 1;
      TotalsCompare(cuts[..n]);
      GopsCompare(cuts[n]);
    }
  }

  /** When no section is short, the totals agree only on the grid. */
  lemma {:induction false} LongTotalsCompare(cuts: seq<Cut>)
    requires LongEnough(cuts)
    ensures Forward(cuts) && Shorts(cuts) == 0
    ensures TotalDuration(cuts) >= GOP_MS * TotalGops(cuts)
    ensures TotalDuration(cuts) == GOP_MS * TotalGops(cuts) <==> OnGrid(cuts)
  {
    if cuts != [] {
      var n := |cuts| - 1;
      LongTotalsCompare(cuts[..n]);
      GopsCompare(cuts[n]);
      assert OnGrid(cuts) <==> OnGrid(cuts[..n]) && (cuts[n].end - cuts[n].start) % GOP_MS == 0;
    }
  }

  /**
   The playlist announces the sections' whole half seconds, at least one each: up to half a second a
   section less than their total, or up to half a second more for each short one. Without short
   sections it announces the total exactly when every length is on the half-second grid.
   */
  lemma {:induction false} AnnouncedDuration(indexes: map<string, seq<Frame>>, cuts: seq<Cut>, answers: seq<Answer>)
    requires Answered(indexes, cuts, answers)
    ensures Play(PlaylistLines(cuts, answers), false) == Some(PlaylistEntries(cuts, answers))
    ensures Forward(cuts) && Announced(PlaylistEntries(cuts, answers)) == GOP_MS * TotalGops(cuts)
    ensures -GOP_MS * Shorts(cuts) <= TotalDuration(cuts) - Announced(PlaylistEntries(cuts, answers))
            <= (GOP_MS - 1) * (|cuts| - Shorts(cuts)) - Shorts(cuts)
    ensures LongEnough(cuts) ==> (TotalDuration(cuts) == Announced(PlaylistEntries(cuts, answers)) <==> OnGrid(cuts))
  {
    AnnouncedIsTotalGops(indexes, cuts, answers);
    TotalsCompare(cuts);
    if LongEnough(cuts) {
      LongTotalsCompare(cuts);
    }
    AnsweredIsServed(indexes, cuts, answers);
    PlaylistPlays(cuts, answers);
  }

  lemma {:induction false} AnsweredIsServed(indexes: map<string, seq<Frame>>, cuts: seq<Cut>, answers: seq<Answer>)
    requires Answered(indexes, cuts, answers)
    ensures Served(answers)
  {
    forall i | 0 <= i < |answers|
      ensures answers[i].Rows? && answers[i].rows != []
      ensures forall k | 0 <= k < |answers[i].rows| :: answers[i].rows[k].segment >= 0
    {
      CoveredRows(indexes[cuts[i].asset], cuts[i], answers[i]);
    }
  }

  /** A section shorter than half a second still takes a whole row. */
  lemma {:induction false} ShortSectionTakesOneRow(index: seq<Frame>, cut: Cut, answer: Answer, isFirst: bool)
    requires Covers(index, cut) && AnswersQuery(index, cut, answer) && answer.Rows?
    requires cut.end - cut.start < GOP_MS
    ensures Announced(RowEntries(cut.asset, answer.rows, isFirst)) == GOP_MS > cut.end - cut.start
  {
    SectionAnnounced(index, cut, answer, isFirst);
  }
}
