/** From the indexers to the index tables: the rows of all segments of a medium. */
module IndexRows {
  import opened GoInts
  import opened Wrappers
  import opened FrameIndex
  import Playlist

  type Row = Playlist.Frame

  function RowOf(ts: Stamp, r: Range, idx: int64): Row {
    Playlist.Frame(ToInt64(ts), idx, ToInt64(r.offset), ToInt64(r.size))
  }

  function RowsOf(table: Offsets, idx: int64): set<Row> {
    set ts | ts in table :: RowOf(ts, table[ts], idx)
  }

  /**
   `IndexVideoSegment` and `IndexAudioSegment`: `offsets` is the indexer's answer, `inserts` tells which
   rows the database takes. The map is walked in any order; rows inserted before a failure stay.
   */
  method IndexSegment(rows: set<Row>, offsets: Result<Offsets, IndexError>, idx: int64, inserts: Row -> bool)
    returns (after: set<Row>, ok: bool)
    ensures ok <==> offsets.Ok? && forall row | row in RowsOf(offsets.value, idx) :: inserts(row)
    ensures ok ==> after == rows + RowsOf(offsets.value, idx)
    ensures rows <= after
    ensures forall row | row in after && row !in rows ::
      offsets.Ok? && row in RowsOf(offsets.value, idx) && inserts(row)
  {
    after := rows;
    if offsets.Err? {
      return after, false;
    }
    var table := offsets.value;
    var todo: set<Stamp> := table.Keys;
    while todo != {}
      invariant todo <= table.Keys
      invariant forall ts | ts in table && ts !in todo :: inserts(RowOf(ts, table[ts], idx))
      invariant forall ts | ts in table && ts !in todo :: RowOf(ts, table[ts], idx) in after
      invariant rows <= after
      invariant forall row | row in after && row !in rows :: row in RowsOf(table, idx) && inserts(row)
      decreases todo
    {
      var ts :| ts in todo;
      var row := RowOf(ts, table[ts], idx);
      if !inserts(row) {
        assert row in RowsOf(table, idx);
        return after, false;
      }
      after := after + {row};
      todo := todo - {ts};
    }
    ok := true;
    assert after == rows + RowsOf(table, idx);
  }

  // ---- all segments ----

  /** A segment file, by the marks its indexer found and its size. */
  datatype Segment = Segment(marks: seq<Mark>, end: int)

  /** The rows of all segments, as the indexers' tables give them. */
  function TableRows(signed: bool, segments: seq<Segment>): set<Row>
    requires |segments| <= INT64_MAX
  {
    if segments == [] then {}
    else
      var n := |segments| - 1;
      TableRows(signed, segments[..n]) + RowsOf(TableOf(signed, segments[n].marks, segments[n].end), n)
  }

  /** The row of mark `i`, reaching to the next mark. */
  function MarkRow(s: Segment, idx: int64, i: nat): Row
    requires i < |s.marks|
  {
    RowOf(s.marks[i].ts, Range(s.marks[i].pos, EndOf(s.marks, s.end, i) - s.marks[i].pos), idx)
  }

  function MarkRows(s: Segment, idx: int64): (rows: seq<Row>)
    ensures |rows| == |s.marks| && forall i | 0 <= i < |rows| :: rows[i] == MarkRow(s, idx, i)
  {
    seq(|s.marks|, i requires 0 <= i < |s.marks| => MarkRow(s, idx, i))
  }

  /** The same rows one after the other, in order of segment and mark. */
  function Listing(segments: seq<Segment>): seq<Row>
    requires |segments| <= INT64_MAX
  {
    if segments == [] then []
    else
      var n := |segments| - 1;
      Listing(segments[..n]) + MarkRows(segments[n], n)
  }

  /** The half seconds of the last segment continue those of the segments before it. */
  ghost predicate Continues(segments: seq<Segment>)
    requires 0 < |segments| <= INT64_MAX
  {
    var last, first := segments[|segments| - 1], |Listing(segments[..|segments| - 1])|;
    && Tileable(last.marks, last.end)
    && forall i | 0 <= i < |last.marks| :: last.marks[i].ts == WINDOW_MS * (first + i)
  }

  /** Segment after segment the marks fall on consecutive half seconds from 0 on. */
  ghost predicate Consecutive(segments: seq<Segment>)
    requires |segments| <= INT64_MAX
  {
    segments != [] ==> Consecutive(segments[..|segments| - 1]) && Continues(segments)
  }

  lemma {:induction false} ListedRow(table: Offsets, s: Segment, idx: int64, row: Row) returns (i: nat)
    requires Lists(table, s.marks, s.end) && row in RowsOf(table, idx)
    ensures i < |s.marks| && row == MarkRow(s, idx, i)
  {
    var ts :| ts in table && RowOf(ts, table[ts], idx) == row;
    assert IsStamp(s.marks, ts);
    i :| i < |s.marks| && s.marks[i].ts == ts;
    assert HasItsRange(table, s.marks, s.end, i);
  }

  lemma {:induction false} MarkIsInTable(table: Offsets, s: Segment, idx: int64, i: nat)
    requires Lists(table, s.marks, s.end) && i < |s.marks|
    ensures MarkRow(s, idx, i) in RowsOf(table, idx)
  {
    assert HasItsRange(table, s.marks, s.end, i);
  }

  lemma {:induction false} TableIsListed(signed: bool, s: Segment, idx: int64, row: Row)
    requires Tileable(s.marks, s.end)
    ensures row in RowsOf(TableOf(signed, s.marks, s.end), idx) <==> row in MarkRows(s, idx)
  {
    var table, rows := TableOf(signed, s.marks, s.end), MarkRows(s, idx);
    EveryMarkHasItsRange(signed, s.marks, s.end);
    if row in RowsOf(table, idx) {
      var i := ListedRow(table, s, idx, row);
      assert rows[i] == row;
    }
    if row in rows {
      var i: nat :| i < |rows| && rows[i] == row;
      MarkIsInTable(table, s, idx, i);
    }
  }

  lemma {:induction false} ListingHasTheRows(signed: bool, segments: seq<Segment>, row: Row)
    requires |segments| <= INT64_MAX && Consecutive(segments)
    ensures row in TableRows(signed, segments) <==> row in Listing(segments)
  {
    if segments != [] {
      var n := |segments| - 1;
      ListingHasTheRows(signed, segments[..n], row);
      TableIsListed(signed, segments[n], n, row);
    }
  }

  /** Row `k` is on the grid, from a segment below `n`. */
  predicate GoodRow(row: Row, k: nat, n: nat) {
    row.ts == WINDOW_MS * k && 0 <= row.segment < n
  }

  lemma {:induction false} ListingIsGood(segments: seq<Segment>, k: nat)
    requires |segments| <= INT64_MAX && Consecutive(segments)
    requires k < |Listing(segments)| && |Listing(segments)| * WINDOW_MS <= INT64_MAX
    ensures GoodRow(Listing(segments)[k], k, |segments|)
  {
    var n := |segments| - 1;
    var init := Listing(segments[..n]);
    if k < |init| {
      ListingIsGood(segments[..n], k);
    } else {
      assert Listing(segments)[k] == MarkRow(segments[n], n, k - |init|);
    }
  }

  lemma {:induction false} ListingAscends(segments: seq<Segment>, i: nat, j: nat)
    requires |segments| <= INT64_MAX && Consecutive(segments)
    requires i < j < |Listing(segments)| && |Listing(segments)| * WINDOW_MS <= INT64_MAX
    ensures Playlist.Before(Listing(segments)[i], Listing(segments)[j])
  {
    var n := |segments| - 1;
    var init := Listing(segments[..n]);
    if j < |init| {
      ListingAscends(segments[..n], i, j);
    } else {
      assert Listing(segments)[j] == MarkRow(segments[n], n, j - |init|);
      if i < |init| {
        ListingIsGood(segments[..n], i);
      } else {
        assert Listing(segments)[i] == MarkRow(segments[n], n, i - |init|);
      }
    }
  }

  /** Row `k` is that of mark `i`: its segment, its time, and its bytes up to the next mark or the end. */
  predicate HasBytes(rows: seq<Row>, s: Segment, idx: nat, k: nat, i: nat) {
    && k < |rows| && i < |s.marks|
    && rows[k].ts == s.marks[i].ts && rows[k].segment == idx && rows[k].offset == s.marks[i].pos
    && s.marks[i].pos + rows[k].size == if i + 1 < |s.marks| then s.marks[i + 1].pos else s.end
  }

  /** Within the bounds of a file nothing wraps around. */
  lemma {:induction false} RowIsExact(s: Segment, n: int64, i: nat)
    requires Tileable(s.marks, s.end) && i < |s.marks| && s.marks[i].ts <= INT64_MAX
    ensures var row := MarkRow(s, n, i);
      && row.ts == s.marks[i].ts && row.segment == n && row.offset == s.marks[i].pos
      && s.marks[i].pos + row.size == if i + 1 < |s.marks| then s.marks[i + 1].pos else s.end
  {
  }

  /** The row of mark `i` of segment `n` names the segment, the mark's time, and its bytes up to the next mark. */
  lemma {:induction false} ListedBytes(segments: seq<Segment>, n: nat, i: nat)
    requires |segments| <= INT64_MAX && Consecutive(segments) && n < |segments| && i < |segments[n].marks|
    requires |Listing(segments)| * WINDOW_MS <= INT64_MAX
    ensures HasBytes(Listing(segments), segments[n], n, |Listing(segments[..n])| + i, i)
    decreases |segments|
  {
    var last := |segments| - 1;
    var s, k := segments[n], |Listing(segments[..n])| + i;
    if n < last {
      assert segments[..last][..n] == segments[..n];
      ListedBytes(segments[..last], n, i);
    } else {
      assert Listing(segments)[k] == MarkRow(s, n, i);
      RowIsExact(s, n, i);
    }
  }

  /**
   When the segments' marks fall on consecutive half seconds, the rows inserted for them, in whatever
   order, are the full half-second index the playlist writers rely on.
   */
  lemma {:induction false} SegmentsIndexFully(signed: bool, segments: seq<Segment>)
    requires |segments| <= INT64_MAX && Consecutive(segments)
    requires |Listing(segments)| * WINDOW_MS <= INT64_MAX
    ensures Playlist.FullIndex(Listing(segments))
    ensures forall row :: row in TableRows(signed, segments) <==> row in Listing(segments)
  {
    forall k: nat | k < |Listing(segments)|
      ensures GoodRow(Listing(segments)[k], k, |segments|)
    {
      ListingIsGood(segments, k);
    }
    forall i: nat, j: nat | i < j < |Listing(segments)|
      ensures Playlist.Before(Listing(segments)[i], Listing(segments)[j])
    {
      ListingAscends(segments, i, j);
    }
    forall row
      ensures row in TableRows(signed, segments) <==> row in Listing(segments)
    {
      ListingHasTheRows(signed, segments, row);
    }
  }
}
