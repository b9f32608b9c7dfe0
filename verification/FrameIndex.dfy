/** The byte-range index of a segment file: one entry per half second of video or audio. */
module FrameIndex {
  import opened GoInts
  import opened Wrappers

  const WINDOW_MS := 500
  const TOLERANCE_MS := 100

  /** Timestamps of either index: `uint64` for video, `int64` for audio. */
  type Stamp = x: int | INT64_MIN <= x < TWO_64

  datatype Range = Range(offset: int, size: int)

  /** The start of an entry: its timestamp and the byte it begins at. */
  datatype Mark = Mark(ts: Stamp, pos: int)

  type Offsets = map<Stamp, Range>

  /** A difference in `uint64` or, when `signed`, `int64` arithmetic. */
  function Diff(signed: bool, a: int, b: int): int {
    if signed then ToInt64(a - b) else ToUint64(a - b)
  }

  /** The index with one entry per mark, each reaching to the next mark and the last to `end`. */
  function TableOf(signed: bool, marks: seq<Mark>, end: int): Offsets {
    if marks == [] then map[]
    else
      var last := marks[|marks| - 1];
      TableOf(signed, marks[..|marks| - 1], last.pos)[last.ts := Range(last.pos, Diff(signed, end, last.pos))]
  }

  // ---- video ----

  /** A timestamp rounded to the half-second grid, if it is within the tolerance. */
  function Normalize(ts: uint64): (r: Option<uint64>)
    ensures r.Some? ==> r.value % WINDOW_MS == 0 && -TOLERANCE_MS <= r.value - ts <= TOLERANCE_MS
    ensures r.None? ==> forall g | g % WINDOW_MS == 0 :: g - ts > TOLERANCE_MS || ts - g > TOLERANCE_MS
  {
    var remainder := ts % WINDOW_MS;
    if remainder == 0 then Some(ts)
    else if remainder <= TOLERANCE_MS then Some(ts - remainder)
    else if WINDOW_MS - remainder <= TOLERANCE_MS then Some(ts + WINDOW_MS - remainder)
    else None
  }

  /** One frame as the prober prints it; None marks a field that does not parse. */
  datatype ProbeFrame = ProbeFrame(isKey: bool, pos: Option<uint64>, ts: Option<uint64>)

  function KeyFramesOf(frames: seq<ProbeFrame>): seq<ProbeFrame> {
    if frames == [] then []
    else
      var init, last := KeyFramesOf(frames[..|frames| - 1]), frames[|frames| - 1];
      if last.isKey then init + [last] else init
  }

  predicate Usable(f: ProbeFrame) {
    f.pos.Some? && f.ts.Some? && Normalize(f.ts.value).Some?
  }

  ghost predicate AllUsable(keys: seq<ProbeFrame>) {
    forall i | 0 <= i < |keys| :: Usable(keys[i])
  }

  ghost function VideoMarks(keys: seq<ProbeFrame>): (marks: seq<Mark>)
    requires AllUsable(keys)
    ensures |marks| == |keys|
    ensures forall i | 0 <= i < |keys| ::
      Usable(keys[i]) && marks[i] == Mark(Normalize(keys[i].ts.value).value, keys[i].pos.value)
  {
    if keys == [] then []
    else
      var k := keys[|keys| - 1];
      assert Usable(k);
      VideoMarks(keys[..|keys| - 1]) + [Mark(Normalize(k.ts.value).value, k.pos.value)]
  }

  datatype IndexError = Unreadable | OffGrid | NoFileSize

  /** The loop's variables after the key frames `seen`: all but the last are in the table. */
  ghost predicate VideoLoop(seen: seq<ProbeFrame>, hasKeyframe: bool, currentTs: uint64, currentOffset: uint64,
                            offsets: Offsets)
  {
    if seen == [] then !hasKeyframe && offsets == map[]
    else
      var n := |seen| - 1;
      && hasKeyframe && seen[n].pos == Some(currentOffset) && seen[n].ts == Some(currentTs)
      && AllUsable(seen[..n])
      && offsets == TableOf(false, VideoMarks(seen[..n]), currentOffset)
  }

  /** Key frame `i` is the first unusable one, and the error is the one it leads to: a key frame off the grid is only
      noticed once the next one's position, or the file's size, has been read. */
  predicate FailsAt(keys: seq<ProbeFrame>, fileSize: Option<uint64>, i: nat, e: IndexError) {
    && i < |keys| && !Usable(keys[i]) && (forall j | 0 <= j < i :: Usable(keys[j]))
    && e == if keys[i].pos.None? || keys[i].ts.None? then Unreadable
            else if i + 1 < |keys| then if keys[i + 1].pos.None? then Unreadable else OffGrid
            else if fileSize.None? then NoFileSize else OffGrid
  }

  ghost predicate VideoFails(keys: seq<ProbeFrame>, fileSize: Option<uint64>, e: IndexError) {
    || (exists i: nat :: FailsAt(keys, fileSize, i, e))
    || (e == NoFileSize && fileSize.None? && forall i | 0 <= i < |keys| :: Usable(keys[i]))
  }

  /** `GenerateOffsets`: `fileSize` is None when the file cannot be examined. */
  method GenerateOffsets(frames: seq<ProbeFrame>, fileSize: Option<uint64>) returns (r: Result<Offsets, IndexError>)
    ensures r.Ok? <==> AllUsable(KeyFramesOf(frames)) && (KeyFramesOf(frames) == [] || fileSize.Some?)
    ensures r.Ok? && KeyFramesOf(frames) != [] ==>
      r.value == TableOf(false, VideoMarks(KeyFramesOf(frames)), fileSize.value)
    ensures r.Ok? && KeyFramesOf(frames) == [] ==> r.value == map[]
    ensures r.Err? ==> VideoFails(KeyFramesOf(frames), fileSize, r.error)
  {
    var offsets: Offsets := map[];
    var currentTs: uint64 := 0;
    var currentOffset: uint64 := 0;
    var hasKeyframe := false;
    for i := 0 to |frames|
      invariant VideoLoop(KeyFramesOf(frames[..i]), hasKeyframe, currentTs, currentOffset, offsets)
    {
      ghost var seen := KeyFramesOf(frames[..i]);
      var frame := frames[i];
      KeyFramesStep(frames, i);
      if !frame.isKey {
        continue;
      }
      FailsAtNext(KeyFramesOf(frames), fileSize, seen, hasKeyframe, currentTs, currentOffset, offsets);
      if frame.pos.None? {
        return Err(Unreadable);
      }
      var pktPos := frame.pos.value;
      if hasKeyframe {
        var normalizedTs := Normalize(currentTs);
        if normalizedTs.None? {
          return Err(OffGrid);
        }
        VideoFlush(seen, currentTs, currentOffset, offsets, pktPos);
        offsets := offsets[normalizedTs.value := Range(currentOffset, Diff(false, pktPos, currentOffset))];
      }
      if frame.ts.None? {
        return Err(Unreadable);
      }
      assert (seen + [frame])[..|seen|] == seen;
      currentTs := frame.ts.value;
      currentOffset := pktPos;
      hasKeyframe := true;
    }
    assert frames[..|frames|] == frames;
    if hasKeyframe {
      FailsAtEnd(KeyFramesOf(frames), fileSize, currentTs, currentOffset, offsets);
      if fileSize.None? {
        return Err(NoFileSize);
      }
      var normalizedTs := Normalize(currentTs);
      if normalizedTs.None? {
        return Err(OffGrid);
      }
      VideoFlush(KeyFramesOf(frames), currentTs, currentOffset, offsets, fileSize.value);
      offsets := offsets[normalizedTs.value := Range(currentOffset, Diff(false, fileSize.value, currentOffset))];
    }
    return Ok(offsets);
  }

  /** The error when the key frame after `seen` cannot be read, or the last one of them is off the grid. */
  lemma {:induction false} FailsAtNext(keys: seq<ProbeFrame>, fileSize: Option<uint64>, seen: seq<ProbeFrame>,
                                       hasKeyframe: bool, currentTs: uint64, currentOffset: uint64, offsets: Offsets)
    requires VideoLoop(seen, hasKeyframe, currentTs, currentOffset, offsets)
    requires seen <= keys && |seen| < |keys|
    ensures keys[|seen|].pos.None? ==> VideoFails(keys, fileSize, Unreadable)
    ensures hasKeyframe && Normalize(currentTs).None? && keys[|seen|].pos.Some? ==> VideoFails(keys, fileSize, OffGrid)
    ensures (hasKeyframe ==> Normalize(currentTs).Some?) && keys[|seen|].ts.None? ==>
      VideoFails(keys, fileSize, Unreadable)
  {
    var n := |seen| - 1;
    EarlierAreUsable(keys, seen, hasKeyframe, currentTs, currentOffset, offsets);
    if hasKeyframe && Normalize(currentTs).None? {
      assert FailsAt(keys, fileSize, n, if keys[n + 1].pos.None? then Unreadable else OffGrid);
    } else {
      assert keys[|seen|].pos.None? || keys[|seen|].ts.None? ==> FailsAt(keys, fileSize, |seen|, Unreadable);
    }
  }

  lemma {:induction false} EarlierAreUsable(keys: seq<ProbeFrame>, seen: seq<ProbeFrame>, hasKeyframe: bool,
                                            currentTs: uint64, currentOffset: uint64, offsets: Offsets)
    requires VideoLoop(seen, hasKeyframe, currentTs, currentOffset, offsets) && seen <= keys
    ensures hasKeyframe <==> seen != []
    ensures forall j | 0 <= j < |seen| - 1 :: Usable(keys[j])
    ensures seen != [] ==> (Usable(keys[|seen| - 1]) <==> Normalize(currentTs).Some?)
    ensures seen != [] ==> keys[|seen| - 1].pos.Some? && keys[|seen| - 1].ts.Some?
  {
    if seen != [] {
      var init := seen[..|seen| - 1];
      forall j | 0 <= j < |init|
        ensures Usable(keys[j])
      {
        assert keys[j] == init[j];
      }
      assert keys[|seen| - 1] == seen[|seen| - 1];
    }
  }

  /** The error at the end of the file. */
  lemma {:induction false} FailsAtEnd(keys: seq<ProbeFrame>, fileSize: Option<uint64>, currentTs: uint64,
                                      currentOffset: uint64, offsets: Offsets)
    requires VideoLoop(keys, true, currentTs, currentOffset, offsets)
    ensures fileSize.None? ==> VideoFails(keys, fileSize, NoFileSize)
    ensures fileSize.Some? && Normalize(currentTs).None? ==> VideoFails(keys, fileSize, OffGrid)
  {
    EarlierAreUsable(keys, keys, true, currentTs, currentOffset, offsets);
    if Normalize(currentTs).None? {
      assert FailsAt(keys, fileSize, |keys| - 1, if fileSize.None? then NoFileSize else OffGrid);
    }
  }

  lemma {:induction false} KeyFramesStep(frames: seq<ProbeFrame>, i: nat)
    requires i < |frames|
    ensures KeyFramesOf(frames[..i + 1]) ==
            if frames[i].isKey then KeyFramesOf(frames[..i]) + [frames[i]] else KeyFramesOf(frames[..i])
    ensures !AllUsable(KeyFramesOf(frames[..i])) ==> !AllUsable(KeyFramesOf(frames))
    ensures frames[i].isKey && !Usable(frames[i]) ==> !AllUsable(KeyFramesOf(frames))
    ensures KeyFramesOf(frames[..i]) <= KeyFramesOf(frames)
    ensures frames[i].isKey ==> |KeyFramesOf(frames[..i])| < |KeyFramesOf(frames)|
                                && KeyFramesOf(frames)[|KeyFramesOf(frames[..i])|] == frames[i]
  {
    assert frames[..i + 1][..i] == frames[..i];
    var seen, keys := KeyFramesOf(frames[..i]), KeyFramesOf(frames);
    KeyFramesGrow(frames, i);
    KeyFramesGrow(frames, i + 1);
    assert forall k | 0 <= k < |seen| :: keys[k] == seen[k];
    if frames[i].isKey {
      assert KeyFramesOf(frames[..i + 1])[|seen|] == frames[i];
      assert keys[|seen|] == frames[i];
    }
  }

  /** How many of the frames are key frames. */
  function KeyCount(frames: seq<ProbeFrame>): nat {
    if frames == [] then 0 else KeyCount(frames[..|frames| - 1]) + (if frames[|frames| - 1].isKey then 1 else 0)
  }

  /** The key frames are all there, in order, and nothing else is. */
  lemma {:induction false} KeyFramesAreKept(frames: seq<ProbeFrame>, i: nat)
    requires i < |frames|
    ensures |KeyFramesOf(frames)| == KeyCount(frames)
    ensures frames[i].isKey ==> KeyCount(frames[..i]) < KeyCount(frames)
                                && KeyFramesOf(frames)[KeyCount(frames[..i])] == frames[i]
    decreases |frames|
  {
    var n := |frames| - 1;
    if i < n {
      assert frames[..n][..i] == frames[..i];
      KeyFramesAreKept(frames[..n], i);
    } else if n > 0 {
      KeyFramesAreKept(frames[..n], n - 1);
    }
  }

  lemma {:induction false} KeyFramesGrow(frames: seq<ProbeFrame>, i: nat)
    requires i <= |frames|
    ensures KeyFramesOf(frames[..i]) <= KeyFramesOf(frames)
    decreases |frames| - i
  {
    if i < |frames| {
      assert frames[..i + 1][..i] == frames[..i];
      KeyFramesGrow(frames, i + 1);
    } else {
      assert frames[..i] == frames;
    }
  }

  /** Adding the entry of the last key frame completes the table. */
  lemma {:induction false} VideoFlush(seen: seq<ProbeFrame>, currentTs: uint64, currentOffset: uint64,
          offsets: Offsets, end: uint64)
    requires seen != [] && VideoLoop(seen, true, currentTs, currentOffset, offsets)
    requires Normalize(currentTs).Some?
    ensures AllUsable(seen)
    ensures TableOf(false, VideoMarks(seen), end) ==
            offsets[Normalize(currentTs).value := Range(currentOffset, Diff(false, end, currentOffset))]
  {
  }

  /** Refused are just the timestamps more than 100 ms from every half second. */
  lemma {:induction false} NormalizedIff(ts: uint64)
    ensures Normalize(ts).Some? <==> ts % 500 <= 100 || ts % 500 >= 400
  {
  }

  /** The number of the grid point a timestamp within the tolerance is rounded to. */
  function GridPoint(ts: uint64): nat {
    (ts + TOLERANCE_MS) / WINDOW_MS
  }

  /** Usable timestamps collide exactly when they have the same grid point; then they are at most 200 ms apart. */
  lemma {:induction false} NormalizeCollision(a: uint64, b: uint64)
    requires Normalize(a).Some? && Normalize(b).Some?
    ensures Normalize(a) == Normalize(b) <==> GridPoint(a) == GridPoint(b)
    ensures Normalize(a) == Normalize(b) ==> -2 * TOLERANCE_MS <= a - b <= 2 * TOLERANCE_MS
  {
  }

  // ---- audio ----

  /** `ts` is on the grid, and `ms` lies in its half second; below zero, times are truncated upwards. */
  predicate InHalfSecond(ms: int, ts: int) {
    ts % WINDOW_MS == 0 && if ms >= 0 then ts <= ms < ts + WINDOW_MS else ts - WINDOW_MS < ms <= ts
  }

  /** There is only one. */
  lemma {:induction false} OneHalfSecond(ms: int, t: int, u: int)
    requires InHalfSecond(ms, t) && InHalfSecond(ms, u)
    ensures t == u
  {
    assert t / WINDOW_MS == u / WINDOW_MS;
  }

  function Bucket(ms: int64): (ts: int64)
    ensures InHalfSecond(ms, ts)
  {
    GoDiv(ms, WINDOW_MS) * WINDOW_MS
  }

  /** One packet as the prober prints it; None marks a field that does not parse. */
  datatype ProbePacket = ProbePacket(pos: Option<int64>, ms: Option<int64>)

  predicate ReadablePacket(p: ProbePacket) {
    p.pos.Some? && p.ms.Some?
  }

  /** One mark for each maximal run of packets in the same bucket, at the run's first packet. */
  ghost function AudioMarks(packets: seq<ProbePacket>): (marks: seq<Mark>)
    requires forall i | 0 <= i < |packets| :: ReadablePacket(packets[i])
    ensures packets != [] ==>
      ReadablePacket(packets[|packets| - 1]) && marks != []
      && marks[|marks| - 1].ts == Bucket(packets[|packets| - 1].ms.value)
  {
    if packets == [] then []
    else
      var init, p := AudioMarks(packets[..|packets| - 1]), packets[|packets| - 1];
      assert ReadablePacket(p);
      if init != [] && init[|init| - 1].ts == Bucket(p.ms.value) then init
      else init + [Mark(Bucket(p.ms.value), p.pos.value)]
  }

  /** `addAudioFrame`, with its divisibility check; `%` on an `int64` truncates. */
  method AddAudioFrame(offsets: Offsets, ts: int64, offset: int64, size: int) returns (r: Result<Offsets, IndexError>)
    ensures ts % WINDOW_MS == 0 ==> r == Ok(offsets[ts := Range(offset, size)])
    ensures ts % WINDOW_MS != 0 ==> r == Err(OffGrid)
  {
    if ts - GoDiv(ts, WINDOW_MS) * WINDOW_MS != 0 {
      return Err(OffGrid);
    }
    return Ok(offsets[ts := Range(offset, size)]);
  }

  ghost predicate AllReadable(packets: seq<ProbePacket>) {
    forall i | 0 <= i < |packets| :: ReadablePacket(packets[i])
  }

  /** The loop's variables after `packets`: all marks but the last are in the table. */
  ghost predicate AudioLoop(packets: seq<ProbePacket>, hasFrame: bool, currentTs: int64, currentOffset: int64,
                            offsets: Offsets)
  {
    && AllReadable(packets)
    && if packets == [] then !hasFrame && offsets == map[]
    else
      var marks := AudioMarks(packets);
      var n := |marks| - 1;
      hasFrame && marks[n] == Mark(currentTs, currentOffset)
      && offsets == TableOf(true, marks[..n], currentOffset)
  }

  /** `GenerateAudioOffsets`. The divisibility error is never returned. */
  method GenerateAudioOffsets(packets: seq<ProbePacket>, fileSize: Option<int64>)
    returns (r: Result<Offsets, IndexError>)
    ensures r.Ok? <==> AllReadable(packets) && (packets == [] || fileSize.Some?)
    ensures r.Err? ==> r.error == if AllReadable(packets) then NoFileSize else Unreadable
    ensures r.Ok? && packets != [] ==> r.value == TableOf(true, AudioMarks(packets), fileSize.value)
    ensures r.Ok? && packets == [] ==> r.value == map[]
  {
    var offsets: Offsets := map[];
    var currentTs: int64 := 0;
    var currentOffset: int64 := 0;
    var hasFrame := false;
    for i := 0 to |packets|
      invariant AudioLoop(packets[..i], hasFrame, currentTs, currentOffset, offsets)
    {
      var packet := packets[i];
      if packet.pos.None? || packet.ms.None? {
        assert !ReadablePacket(packets[i]);
        return Err(Unreadable);
      }
      var pktPos := packet.pos.value;
      var bucketTs := Bucket(packet.ms.value);
      assert packets[..i + 1] == packets[..i] + [packet];
      AudioStep(packets[..i], packet, hasFrame, currentTs, currentOffset, offsets);
      if !hasFrame {
        currentTs := bucketTs;
        currentOffset := pktPos;
        hasFrame := true;
        continue;
      }
      if bucketTs == currentTs {
        continue;
      }
      var added := AddAudioFrame(offsets, currentTs, currentOffset, Diff(true, pktPos, currentOffset));
      if added.Err? {
        return added;
      }
      offsets := added.value;
      currentTs := bucketTs;
      currentOffset := pktPos;
    }
    assert packets[..|packets|] == packets;
    if hasFrame {
      if fileSize.None? {
        return Err(NoFileSize);
      }
      AudioFinish(packets, currentTs, currentOffset, offsets, fileSize.value);
      var added := AddAudioFrame(offsets, currentTs, currentOffset, Diff(true, fileSize.value, currentOffset));
      if added.Err? {
        return added;
      }
      offsets := added.value;
    }
    return Ok(offsets);
  }

  lemma {:induction false} AudioFinish(packets: seq<ProbePacket>, currentTs: int64, currentOffset: int64,
          offsets: Offsets, end: int64)
    requires packets != [] && AudioLoop(packets, true, currentTs, currentOffset, offsets)
    ensures currentTs % WINDOW_MS == 0
    ensures TableOf(true, AudioMarks(packets), end) ==
            offsets[currentTs := Range(currentOffset, Diff(true, end, currentOffset))]
  {
  }

  /** What one more packet does to the loop's variables. */
  lemma {:induction false} AudioStep(packets: seq<ProbePacket>, p: ProbePacket, hasFrame: bool, currentTs: int64,
          currentOffset: int64,
                  offsets: Offsets)
    requires ReadablePacket(p)
    requires AudioLoop(packets, hasFrame, currentTs, currentOffset, offsets)
    ensures var ts, pos := Bucket(p.ms.value), p.pos.value;
      if !hasFrame then AudioLoop(packets + [p], true, ts, pos, offsets)
      else if ts == currentTs then AudioLoop(packets + [p], true, currentTs, currentOffset, offsets)
      else currentTs % WINDOW_MS == 0 &&
           AudioLoop(packets + [p], true, ts, pos,
                     offsets[currentTs := Range(currentOffset, Diff(true, pos, currentOffset))])
  {
  }

  // ---- tiling ----

  predicate Covers(r: Range, b: int) {
    r.offset <= b < r.offset + r.size
  }

  /** Positions in the file increase and stay within it. */
  ghost predicate Placed(marks: seq<Mark>, end: int) {
    && 0 <= end <= INT64_MAX
    && (forall i | 0 <= i < |marks| :: 0 <= marks[i].pos <= end)
    && (forall i, j | 0 <= i < j < |marks| :: marks[i].pos < marks[j].pos)
  }

  /** And timestamps are distinct. */
  ghost predicate Tileable(marks: seq<Mark>, end: int) {
    Placed(marks, end) && forall i, j | 0 <= i < j < |marks| :: marks[i].ts != marks[j].ts
  }

  /** The byte at which entry `i` ends. */
  function EndOf(marks: seq<Mark>, end: int, i: nat): int
    requires i < |marks|
  {
    if i + 1 < |marks| then marks[i + 1].pos else end
  }

  ghost predicate HasItsRange(table: Offsets, marks: seq<Mark>, end: int, i: nat)
    requires i < |marks|
  {
    marks[i].ts in table && table[marks[i].ts] == Range(marks[i].pos, EndOf(marks, end, i) - marks[i].pos)
  }

  ghost predicate IsStamp(marks: seq<Mark>, ts: Stamp) {
    exists i :: 0 <= i < |marks| && marks[i].ts == ts
  }

  /** The table holds exactly the entries of the marks, none overwritten. */
  ghost predicate Lists(table: Offsets, marks: seq<Mark>, end: int) {
    && |table| == |marks|
    && (forall i: nat | i < |marks| :: HasItsRange(table, marks, end, i))
    && (forall ts: Stamp | ts in table :: IsStamp(marks, ts))
  }

  /** No entry is overwritten: each mark keeps its own range, up to the next mark. */
  lemma {:induction false} EveryMarkHasItsRange(signed: bool, marks: seq<Mark>, end: int)
    requires Tileable(marks, end)
    ensures Lists(TableOf(signed, marks, end), marks, end)
  {
    if marks != [] {
      var n := |marks| - 1;
      assert Tileable(marks[..n], marks[n].pos);
      EveryMarkHasItsRange(signed, marks[..n], marks[n].pos);
      assert Diff(signed, end, marks[n].pos) == end - marks[n].pos;
      OneMoreMark(TableOf(signed, marks[..n], marks[n].pos), marks, end);
    }
  }

  lemma {:induction false} OneMoreMark(init: Offsets, marks: seq<Mark>, end: int)
    requires Tileable(marks, end) && marks != []
    requires var n := |marks| - 1; Lists(init, marks[..n], marks[n].pos)
    ensures var last := marks[|marks| - 1];
      Lists(init[last.ts := Range(last.pos, end - last.pos)], marks, end)
  {
    var n := |marks| - 1;
    var table := init[marks[n].ts := Range(marks[n].pos, end - marks[n].pos)];
    assert !IsStamp(marks[..n], marks[n].ts);
    assert |table| == |init| + 1;
    forall i: nat | i < |marks| ensures HasItsRange(table, marks, end, i) {
      if i < n { assert HasItsRange(init, marks[..n], marks[n].pos, i); }
    }
    forall ts: Stamp | ts in table ensures IsStamp(marks, ts) {
      if ts == marks[n].ts {
        assert marks[n].ts == ts;
      } else {
        assert IsStamp(marks[..n], ts);
        var i :| 0 <= i < n && marks[..n][i].ts == ts;
        assert marks[i].ts == ts;
      }
    }
  }

  /** An entry is still there at the end exactly when no later mark has its timestamp. */
  lemma {:induction false} EntrySurvivesIff(signed: bool, marks: seq<Mark>, end: int, i: nat)
    requires Placed(marks, end) && i < |marks|
    ensures HasItsRange(TableOf(signed, marks, end), marks, end, i)
            <==> forall j | i < j < |marks| :: marks[j].ts != marks[i].ts
    decreases |marks|
  {
    var n := |marks| - 1;
    var init, table := TableOf(signed, marks[..n], marks[n].pos), TableOf(signed, marks, end);
    assert table == init[marks[n].ts := Range(marks[n].pos, end - marks[n].pos)];
    if i < n {
      EntrySurvivesIff(signed, marks[..n], marks[n].pos, i);
      assert EndOf(marks[..n], marks[n].pos, i) == EndOf(marks, end, i);
      assert (forall j | i < j < |marks| :: marks[j].ts != marks[i].ts)
        <==> marks[n].ts != marks[i].ts && forall j | i < j < n :: marks[..n][j].ts != marks[..n][i].ts;
    }
  }

  /** The table lists the marks exactly when no two of them share a timestamp. */
  lemma {:induction false} ListsIffDistinct(signed: bool, marks: seq<Mark>, end: int)
    requires Placed(marks, end)
    ensures Lists(TableOf(signed, marks, end), marks, end)
            <==> forall i, j | 0 <= i < j < |marks| :: marks[i].ts != marks[j].ts
  {
    if Lists(TableOf(signed, marks, end), marks, end) {
      forall i: nat, j: nat | i < j < |marks|
        ensures marks[i].ts != marks[j].ts
      {
        EntrySurvivesIff(signed, marks, end, i);
        assert HasItsRange(TableOf(signed, marks, end), marks, end, i);
      }
    }
    if forall i, j | 0 <= i < j < |marks| :: marks[i].ts != marks[j].ts {
      EveryMarkHasItsRange(signed, marks, end);
    }
  }

  /** The mark whose range holds byte `b`. */
  lemma {:induction false} FindMark(marks: seq<Mark>, end: int, b: int) returns (i: nat)
    requires Tileable(marks, end) && marks != [] && marks[0].pos <= b < end
    ensures i < |marks| && marks[i].pos <= b < EndOf(marks, end, i)
  {
    i := |marks| - 1;
    while b < marks[i].pos
      invariant 0 <= i < |marks| && b < EndOf(marks, end, i)
    {
      i := i - 1;
    }
  }

  ghost predicate Covered(table: Offsets, b: int) {
    exists ts: Stamp :: ts in table && Covers(table[ts], b)
  }

  /** The ranges of the table are disjoint and together make up the bytes from `start` to `end`. */
  ghost predicate Partitions(table: Offsets, start: int, end: int) {
    && (forall b :: Covered(table, b) <==> start <= b < end)
    && (forall b, t: Stamp, u: Stamp | t in table && u in table && Covers(table[t], b) && Covers(table[u], b) :: t == u)
  }

  lemma {:induction false} OneOwner(table: Offsets, marks: seq<Mark>, end: int, b: int, t: Stamp, u: Stamp)
    requires Tileable(marks, end) && Lists(table, marks, end)
    requires t in table && u in table && Covers(table[t], b) && Covers(table[u], b)
    ensures t == u
  {
    forall x: nat, y: nat | x < y < |marks| ensures EndOf(marks, end, x) <= marks[y].pos {}
    assert IsStamp(marks, t) && IsStamp(marks, u);
    var i: nat :| i < |marks| && marks[i].ts == t;
    var j: nat :| j < |marks| && marks[j].ts == u;
    assert HasItsRange(table, marks, end, i) && HasItsRange(table, marks, end, j);
  }

  /** The recorded ranges partition the file from the first recorded position to its end. */
  lemma {:induction false} RangesPartitionTheFile(signed: bool, marks: seq<Mark>, end: int)
    requires Tileable(marks, end) && marks != []
    ensures Lists(TableOf(signed, marks, end), marks, end)
    ensures Partitions(TableOf(signed, marks, end), marks[0].pos, end)
  {
    EveryMarkHasItsRange(signed, marks, end);
    var table := TableOf(signed, marks, end);
    forall b ensures Covered(table, b) <==> marks[0].pos <= b < end {
      if marks[0].pos <= b < end {
        var i := FindMark(marks, end, b);
        assert HasItsRange(table, marks, end, i);
        assert Covers(table[marks[i].ts], b);
      }
      if ts: Stamp :| ts in table && Covers(table[ts], b) {
        assert IsStamp(marks, ts);
        var i: nat :| i < |marks| && marks[i].ts == ts;
        assert HasItsRange(table, marks, end, i);
      }
    }
    forall b, t: Stamp, u: Stamp | t in table && u in table && Covers(table[t], b) && Covers(table[u], b)
      ensures t == u
    {
      OneOwner(table, marks, end, b, t, u);
    }
  }

  /** Usable key frames at increasing positions within the file. */
  ghost predicate InFile(keys: seq<ProbeFrame>, end: int) {
    && AllUsable(keys) && 0 <= end <= INT64_MAX
    && (forall i | 0 <= i < |keys| :: Usable(keys[i]) && keys[i].pos.value <= end)
    && (forall i, j | 0 <= i < j < |keys| ::
          Usable(keys[i]) && Usable(keys[j]) && keys[i].pos.value < keys[j].pos.value)
  }

  /** Key frames `i` and `j` are rounded to the same half second. */
  predicate Collide(keys: seq<ProbeFrame>, i: nat, j: nat)
    requires i < |keys| && j < |keys| && Usable(keys[i]) && Usable(keys[j])
  {
    GridPoint(keys[i].ts.value) == GridPoint(keys[j].ts.value)
  }

  lemma {:induction false} MarksCollide(keys: seq<ProbeFrame>, i: nat, j: nat)
    requires AllUsable(keys) && i < |keys| && j < |keys|
    ensures Usable(keys[i]) && Usable(keys[j])
    ensures VideoMarks(keys)[i].ts == VideoMarks(keys)[j].ts <==> Collide(keys, i, j)
  {
    assert Usable(keys[i]) && Usable(keys[j]);
    NormalizeCollision(keys[i].ts.value, keys[j].ts.value);
  }

  /** Key frame `i` loses its entry exactly when a later one is rounded to the same half second. */
  lemma {:induction false} KeyFrameSurvivesIff(keys: seq<ProbeFrame>, end: uint64, i: nat)
    requires InFile(keys, end) && i < |keys|
    ensures forall j | i < j < |keys| :: Usable(keys[i]) && Usable(keys[j])
    ensures HasItsRange(TableOf(false, VideoMarks(keys), end), VideoMarks(keys), end, i)
            <==> forall j | i < j < |keys| :: !Collide(keys, i, j)
  {
    var marks := VideoMarks(keys);
    EntrySurvivesIff(false, marks, end, i);
    forall j: nat | i < j < |keys|
      ensures Usable(keys[i]) && Usable(keys[j])
      ensures marks[j].ts == marks[i].ts <==> Collide(keys, i, j)
    {
      MarksCollide(keys, i, j);
    }
  }

  /** The video index keeps every key frame exactly when no two are rounded to the same half second. */
  lemma {:induction false} KeyFramesListedIff(keys: seq<ProbeFrame>, end: uint64)
    requires InFile(keys, end)
    ensures forall i, j | 0 <= i < j < |keys| :: Usable(keys[i]) && Usable(keys[j])
    ensures Lists(TableOf(false, VideoMarks(keys), end), VideoMarks(keys), end)
            <==> forall i, j | 0 <= i < j < |keys| :: !Collide(keys, i, j)
  {
    ListsIffDistinct(false, VideoMarks(keys), end);
    MarksDistinctIff(keys);
  }

  lemma {:induction false} MarksDistinctIff(keys: seq<ProbeFrame>)
    requires AllUsable(keys)
    ensures forall i, j | 0 <= i < j < |keys| :: Usable(keys[i]) && Usable(keys[j])
    ensures (forall i, j | 0 <= i < j < |keys| :: VideoMarks(keys)[i].ts != VideoMarks(keys)[j].ts)
            <==> forall i, j | 0 <= i < j < |keys| :: !Collide(keys, i, j)
  {
    var marks := VideoMarks(keys);
    assert forall i | 0 <= i < |keys| :: Usable(keys[i]);
    if i: nat, j: nat :| i < j < |keys| && Collide(keys, i, j) {
      MarksCollide(keys, i, j);
      assert marks[i].ts == marks[j].ts;
    }
    if i: nat, j: nat :| i < j < |keys| && marks[i].ts == marks[j].ts {
      MarksCollide(keys, i, j);
      assert Collide(keys, i, j);
    }
  }

  /** Key frames as a well-encoded segment has them: on the grid, in order, far enough apart. */
  ghost predicate WellSpaced(keys: seq<ProbeFrame>, end: int) {
    InFile(keys, end) && forall i, j | 0 <= i < j < |keys| ::
      Usable(keys[i]) && Usable(keys[j]) && keys[i].ts.value + 2 * TOLERANCE_MS < keys[j].ts.value
  }

  /** The video index of such a segment loses no key frame and tiles the file; entries stay in time order. */
  lemma {:induction false} VideoIndexTiles(keys: seq<ProbeFrame>, end: uint64)
    requires WellSpaced(keys, end) && keys != []
    ensures Tileable(VideoMarks(keys), end)
    ensures forall i, j | 0 <= i < j < |keys| :: VideoMarks(keys)[i].ts < VideoMarks(keys)[j].ts
    ensures Lists(TableOf(false, VideoMarks(keys), end), VideoMarks(keys), end)
    ensures Partitions(TableOf(false, VideoMarks(keys), end), VideoMarks(keys)[0].pos, end)
  {
    var marks := VideoMarks(keys);
    forall i, j | 0 <= i < j < |keys| ensures marks[i].ts < marks[j].ts && marks[i].pos < marks[j].pos {
    }
    RangesPartitionTheFile(false, marks, end);
  }

  /** Such an input exists: at exactly 200 ms the second key frame takes the first one's entry. */
  lemma {:induction false} CloseKeyFramesCollide(end: uint64)
    requires end >= 2
    ensures var keys := [ProbeFrame(true, Some(0), Some(400)), ProbeFrame(true, Some(1), Some(600))];
      AllUsable(keys) && |TableOf(false, VideoMarks(keys), end)| == 1
  {
    var keys := [ProbeFrame(true, Some(0), Some(400)), ProbeFrame(true, Some(1), Some(600))];
    var marks := VideoMarks(keys);
    assert marks[0] == Mark(500, 0) && marks[1] == Mark(500, 1);
    assert marks[..1] == [Mark(500, 0)];
    assert TableOf(false, marks[..1], 1).Keys == {500} by {
      assert marks[..1][..0] == [];
    }
    assert TableOf(false, marks, end).Keys == {500};
  }

  /** Packets as a demuxer yields them: positions increase, times do not go back. */
  ghost predicate InOrder(packets: seq<ProbePacket>, end: int) {
    && AllReadable(packets) && 0 <= end <= INT64_MAX
    && (forall i | 0 <= i < |packets| :: ReadablePacket(packets[i]) && 0 <= packets[i].pos.value <= end)
    && (forall i, j | 0 <= i < j < |packets| ::
          ReadablePacket(packets[i]) && ReadablePacket(packets[j]) &&
          packets[i].pos.value < packets[j].pos.value && packets[i].ms.value <= packets[j].ms.value)
  }

  lemma {:induction false} BucketMonotone(a: int64, b: int64)
    requires a <= b
    ensures Bucket(a) <= Bucket(b)
  {
  }

  /** The marks follow their packets: they start with the first and never overtake the last. */
  ghost predicate Follows(marks: seq<Mark>, packets: seq<ProbePacket>, end: int) {
    && Tileable(marks, end) && marks != [] && packets != []
    && ReadablePacket(packets[0]) && marks[0].pos == packets[0].pos.value
    && ReadablePacket(packets[|packets| - 1])
    && marks[|marks| - 1].pos <= packets[|packets| - 1].pos.value
    && marks[|marks| - 1].ts == Bucket(packets[|packets| - 1].ms.value)
    && forall i, j | 0 <= i < j < |marks| :: marks[i].ts < marks[j].ts
  }

  lemma {:induction false} AudioMarksOrdered(packets: seq<ProbePacket>, end: int)
    requires InOrder(packets, end) && packets != []
    ensures Follows(AudioMarks(packets), packets, end)
  {
    var n := |packets| - 1;
    var p := packets[n];
    assert ReadablePacket(p);
    if n == 0 {
      assert AudioMarks(packets[..0]) == [];
      assert AudioMarks(packets) == [Mark(Bucket(p.ms.value), p.pos.value)];
    } else {
      AudioMarksOrdered(packets[..n], end);
      assert ReadablePacket(packets[n - 1]);
      BucketMonotone(packets[n - 1].ms.value, p.ms.value);
      FollowsStep(AudioMarks(packets[..n]), packets, end);
    }
  }

  lemma {:induction false} FollowsStep(init: seq<Mark>, packets: seq<ProbePacket>, end: int)
    requires InOrder(packets, end) && |packets| >= 2
    requires Follows(init, packets[..|packets| - 1], end) && ReadablePacket(packets[|packets| - 1])
    requires init[|init| - 1].ts <= Bucket(packets[|packets| - 1].ms.value)
    requires init[|init| - 1].pos < packets[|packets| - 1].pos.value
    ensures var p := packets[|packets| - 1];
      Follows(if init[|init| - 1].ts == Bucket(p.ms.value) then init
              else init + [Mark(Bucket(p.ms.value), p.pos.value)],
              packets, end)
  {
    var p := packets[|packets| - 1];
    if init[|init| - 1].ts != Bucket(p.ms.value) {
      TilesOneMore(init, Mark(Bucket(p.ms.value), p.pos.value), end);
    }
  }

  lemma {:induction false} TilesOneMore(init: seq<Mark>, next: Mark, end: int)
    requires Tileable(init, end) && init != [] && forall i, j | 0 <= i < j < |init| :: init[i].ts < init[j].ts
    requires init[|init| - 1].ts < next.ts && init[|init| - 1].pos < next.pos <= end
    ensures Tileable(init + [next], end)
    ensures forall i, j | 0 <= i < j < |init + [next]| :: (init + [next])[i].ts < (init + [next])[j].ts
  {
    var all := init + [next];
    forall i, j | 0 <= i < j < |all|
      ensures all[i].ts < all[j].ts && all[i].pos < all[j].pos
    {
      assert if j < |init| then all[j] == init[j] else i == |init| - 1 || init[i].ts < init[|init| - 1].ts;
    }
  }

  /** Byte `pos` lies in the range recorded for timestamp `ts`. */
  ghost predicate InRangeOf(marks: seq<Mark>, end: int, ts: Stamp, pos: int) {
    exists k: nat :: k < |marks| && marks[k].ts == ts && marks[k].pos <= pos < EndOf(marks, end, k)
  }

  /** Each packet lies in the byte range recorded for its own half second, the one its time lies in. */
  lemma {:induction false} PacketsAreInTheirRange(packets: seq<ProbePacket>, end: int64, i: nat)
    requires InOrder(packets, end) && i < |packets| && packets[|packets| - 1].pos.value < end
    ensures ReadablePacket(packets[i])
    ensures var table := TableOf(true, AudioMarks(packets), end);
      forall ts: int64 | InHalfSecond(packets[i].ms.value, ts) :: ts in table && Covers(table[ts], packets[i].pos.value)
  {
    PacketIsInItsRange(packets, end, i);
    AudioIndexTiles(packets, end);
    var marks, table := AudioMarks(packets), TableOf(true, AudioMarks(packets), end);
    forall ts: int64 | InHalfSecond(packets[i].ms.value, ts)
      ensures ts in table && Covers(table[ts], packets[i].pos.value)
    {
      OneHalfSecond(packets[i].ms.value, ts, Bucket(packets[i].ms.value));
      var k: nat :| k < |marks| && marks[k].ts == ts && marks[k].pos <= packets[i].pos.value < EndOf(marks, end, k);
      assert HasItsRange(table, marks, end, k);
    }
  }

  lemma {:induction false} PacketIsInItsRange(packets: seq<ProbePacket>, end: int, i: nat)
    requires InOrder(packets, end) && i < |packets| && packets[|packets| - 1].pos.value < end
    ensures ReadablePacket(packets[i])
    ensures InRangeOf(AudioMarks(packets), end, Bucket(packets[i].ms.value), packets[i].pos.value)
  {
    var n := |packets| - 1;
    assert ReadablePacket(packets[i]) && ReadablePacket(packets[n]);
    if i == n {
      LastPacketInRange(packets, end);
    } else {
      InOrderPrefix(packets, end);
      PacketIsInItsRange(packets[..n], packets[n].pos.value, i);
      PacketStaysInRange(packets, end, Bucket(packets[i].ms.value), packets[i].pos.value);
    }
  }

  lemma {:induction false} PacketStaysInRange(packets: seq<ProbePacket>, end: int, ts: Stamp, pos: int)
    requires AllReadable(packets) && |packets| >= 2 && ReadablePacket(packets[|packets| - 1])
    requires var n := |packets| - 1;
      packets[n].pos.value <= end && InRangeOf(AudioMarks(packets[..n]), packets[n].pos.value, ts, pos)
    ensures InRangeOf(AudioMarks(packets), end, ts, pos)
  {
    InRangeStays(AudioMarks(packets[..|packets| - 1]), packets[|packets| - 1], end, ts, pos);
  }

  lemma {:induction false} LastPacketInRange(packets: seq<ProbePacket>, end: int)
    requires InOrder(packets, end) && packets != []
    ensures var p := packets[|packets| - 1];
      ReadablePacket(p) && (p.pos.value < end ==> InRangeOf(AudioMarks(packets), end, Bucket(p.ms.value), p.pos.value))
  {
    AudioMarksOrdered(packets, end);
    var marks := AudioMarks(packets);
    assert EndOf(marks, end, |marks| - 1) == end;
  }

  lemma {:induction false} InOrderPrefix(packets: seq<ProbePacket>, end: int)
    requires InOrder(packets, end) && |packets| >= 2
    ensures var n := |packets| - 1;
      && ReadablePacket(packets[n]) && InOrder(packets[..n], packets[n].pos.value)
      && ReadablePacket(packets[n - 1]) && packets[n - 1].pos.value < packets[n].pos.value
  {
  }

  lemma {:induction false} InRangeStays(init: seq<Mark>, p: ProbePacket, end: int, ts: Stamp, pos: int)
    requires init != [] && ReadablePacket(p) && p.pos.value <= end
    requires InRangeOf(init, p.pos.value, ts, pos)
    ensures InRangeOf(init, end, ts, pos)
    ensures InRangeOf(init + [Mark(Bucket(p.ms.value), p.pos.value)], end, ts, pos)
  {
    var k: nat :| k < |init| && init[k].ts == ts && init[k].pos <= pos < EndOf(init, p.pos.value, k);
    assert EndOf(init, end, k) >= EndOf(init, p.pos.value, k);
    var longer := init + [Mark(Bucket(p.ms.value), p.pos.value)];
    assert longer[k] == init[k] && EndOf(longer, end, k) == EndOf(init, p.pos.value, k);
  }

  // ---- the entries of the audio index ----

  lemma {:induction false} TableHasTheStamps(signed: bool, marks: seq<Mark>, end: int, ts: Stamp)
    ensures ts in TableOf(signed, marks, end) <==> IsStamp(marks, ts)
  {
    if marks != [] {
      var n := |marks| - 1;
      TableHasTheStamps(signed, marks[..n], marks[n].pos, ts);
      if IsStamp(marks, ts) && ts != marks[n].ts {
        var i :| 0 <= i < |marks| && marks[i].ts == ts;
        assert marks[..n][i].ts == ts;
      }
      if IsStamp(marks[..n], ts) {
        var i :| 0 <= i < n && marks[..n][i].ts == ts;
        assert marks[i].ts == ts;
      }
    }
  }

  lemma {:induction false} MarksAreHalfSeconds(packets: seq<ProbePacket>, ts: Stamp)
    requires AllReadable(packets)
    ensures IsStamp(AudioMarks(packets), ts) <==>
            exists i :: 0 <= i < |packets| && ReadablePacket(packets[i]) && Bucket(packets[i].ms.value) == ts
  {
    if packets != [] {
      var n := |packets| - 1;
      var init, marks, p := AudioMarks(packets[..n]), AudioMarks(packets), packets[n];
      MarksAreHalfSeconds(packets[..n], ts);
      assert ReadablePacket(p) && marks[|marks| - 1].ts == Bucket(p.ms.value);
      if IsStamp(init, ts) {
        var i: nat :| i < n && ReadablePacket(packets[..n][i]) && Bucket(packets[..n][i].ms.value) == ts;
        assert packets[i] == packets[..n][i];
        var k: nat :| k < |init| && init[k].ts == ts;
        assert marks[k] == init[k];
      } else {
        assert forall i | 0 <= i < n && ReadablePacket(packets[i]) :: packets[..n][i] == packets[i];
        assert IsStamp(marks, ts) <==> Bucket(p.ms.value) == ts;
      }
    }
  }

  /** Whatever the packets, the audio index has an entry for exactly the half seconds they lie in. */
  lemma {:induction false} AudioIndexStamps(packets: seq<ProbePacket>, end: int64, ts: int64)
    requires AllReadable(packets)
    ensures ts in TableOf(true, AudioMarks(packets), end) <==>
            exists i :: 0 <= i < |packets| && ReadablePacket(packets[i]) && InHalfSecond(packets[i].ms.value, ts)
  {
    TableHasTheStamps(true, AudioMarks(packets), end, ts);
    MarksAreHalfSeconds(packets, ts);
    forall i: nat | i < |packets|
      ensures ReadablePacket(packets[i])
      ensures Bucket(packets[i].ms.value) == ts <==> InHalfSecond(packets[i].ms.value, ts)
    {
      assert ReadablePacket(packets[i]);
      if InHalfSecond(packets[i].ms.value, ts) {
        OneHalfSecond(packets[i].ms.value, ts, Bucket(packets[i].ms.value));
      }
    }
  }

  /** Packets `i` to `j - 1` are a longest stretch of packets in the half second `ts`. */
  ghost predicate Stretch(packets: seq<ProbePacket>, ts: int64, i: nat, j: nat)
    requires AllReadable(packets)
  {
    && i < j <= |packets|
    && (forall k | i <= k < j :: ReadablePacket(packets[k]) && InHalfSecond(packets[k].ms.value, ts))
    && (i > 0 ==> ReadablePacket(packets[i - 1]) && !InHalfSecond(packets[i - 1].ms.value, ts))
    && (j < |packets| ==> ReadablePacket(packets[j]) && !InHalfSecond(packets[j].ms.value, ts))
  }

  /** Where a stretch ends: at the next packet's position, or at the end of the file. */
  function StretchEnd(packets: seq<ProbePacket>, end: int, j: nat): int
    requires j < |packets| ==> ReadablePacket(packets[j])
  {
    if j < |packets| then packets[j].pos.value else end
  }

  lemma {:induction false} SameBucket(p: ProbePacket, ts: int64)
    requires ReadablePacket(p)
    ensures InHalfSecond(p.ms.value, ts) <==> Bucket(p.ms.value) == ts
  {
    if InHalfSecond(p.ms.value, ts) {
      OneHalfSecond(p.ms.value, ts, Bucket(p.ms.value));
    }
  }

  /** A stretch has its own mark, at its first packet; the next mark is that of the packet after it. */
  lemma {:induction false} MarkOfStretch(packets: seq<ProbePacket>, ts: int64, i: nat, j: nat) returns (k: nat)
    requires AllReadable(packets) && Stretch(packets, ts, i, j)
    ensures k < |AudioMarks(packets)| && ReadablePacket(packets[i])
    ensures AudioMarks(packets)[k] == Mark(ts, packets[i].pos.value)
    ensures j == |packets| <==> k == |AudioMarks(packets)| - 1
    ensures j < |packets| ==> ReadablePacket(packets[j]) && AudioMarks(packets)[k + 1].pos == packets[j].pos.value
    decreases |packets|
  {
    var n := |packets| - 1;
    var p, init := packets[n], AudioMarks(packets[..n]);
    assert ReadablePacket(p) && ReadablePacket(packets[i]);
    SameBucket(p, ts);
    if i == n {
      if n > 0 {
        assert ReadablePacket(packets[n - 1]);
        SameBucket(packets[n - 1], ts);
      }
      k := |AudioMarks(packets)| - 1;
    } else if j == |packets| {
      assert Stretch(packets[..n], ts, i, n);
      k := MarkOfStretch(packets[..n], ts, i, n);
    } else {
      assert Stretch(packets[..n], ts, i, j);
      k := MarkOfStretch(packets[..n], ts, i, j);
    }
  }

  /** The entry of a half second reaches from its first packet to the packet after its last one. */
  lemma {:induction false} AudioEntryIsTheStretch(packets: seq<ProbePacket>, end: int64, ts: int64, i: nat, j: nat)
    requires InOrder(packets, end) && Stretch(packets, ts, i, j)
    ensures ReadablePacket(packets[i]) && (j < |packets| ==> ReadablePacket(packets[j]))
    ensures var table, pos := TableOf(true, AudioMarks(packets), end), packets[i].pos.value;
      ts in table && table[ts] == Range(pos, StretchEnd(packets, end, j) - pos)
  {
    var k := MarkOfStretch(packets, ts, i, j);
    AudioIndexTiles(packets, end);
    assert HasItsRange(TableOf(true, AudioMarks(packets), end), AudioMarks(packets), end, k);
  }

  /** The audio index overwrites nothing and tiles the file. */
  lemma {:induction false} AudioIndexTiles(packets: seq<ProbePacket>, end: int64)
    requires InOrder(packets, end) && packets != []
    ensures ReadablePacket(packets[0])
    ensures Lists(TableOf(true, AudioMarks(packets), end), AudioMarks(packets), end)
    ensures Partitions(TableOf(true, AudioMarks(packets), end), packets[0].pos.value, end)
  {
    AudioMarksOrdered(packets, end);
    RangesPartitionTheFile(true, AudioMarks(packets), end);
  }
}
