/** Collecting one playlist line per uploaded segment and writing them out in index order. */
module ManifestBuilder {
  import opened GoInts
  import opened Wrappers
  import opened SegmentNames

  type Error = string

  datatype VideoSegment = VideoSegment(path: string, durationString: string)

  datatype UploadResult = UploadResult(objectKey: string, err: Option<Error>)

  const MANIFEST_BASE :=
    "#EXTM3U\n#EXT-X-VERSION:4\n#EXT-X-TARGETDURATION:3\n#EXT-X-MEDIA-SEQUENCE:0\n#EXT-X-PLAYLIST-TYPE:VOD"
  const MANIFEST_END := "\n#EXT-X-ENDLIST"

  function SegmentIndex(seg: VideoSegment): Option<int64> {
    IndexOf(Base(seg.path))
  }

  function SegmentLine(mediaID: string, seg: VideoSegment): string {
    "\n#EXTINF:" + seg.durationString + ",\n" + ObjectKey(mediaID, seg.path)
  }

  /** Where the parts of a line stand; the first comma ends the duration. */
  lemma {:induction false} LineParts(mediaID: string, seg: VideoSegment) returns (comma: nat)
    requires ',' !in seg.durationString
    ensures var line := SegmentLine(mediaID, seg);
      && 9 <= comma && comma + 2 <= |line| && line[comma] == ',' && (forall i | 0 <= i < comma :: line[i] != ',')
      && line[..9] == "\n#EXTINF:" && line[9..comma] == seg.durationString
      && line[comma..comma + 2] == ",\n" && line[comma + 2..] == ObjectKey(mediaID, seg.path)
  {
    comma := 9 + |seg.durationString|;
    var line := SegmentLine(mediaID, seg);
    assert line[..9] == "\n#EXTINF:" && line[9..comma] == seg.durationString;
    forall i | 0 <= i < comma
      ensures line[i] != ','
    {
      assert if i < 9 then line[i] == "\n#EXTINF:"[i] else line[i] == seg.durationString[i - 9];
    }
  }

  /** The line determines the duration it announces, which has no comma, and the object key it points to. */
  lemma {:induction false} LineDeterminesSegment(mediaID: string, a: VideoSegment, b: VideoSegment)
    requires ',' !in a.durationString && ',' !in b.durationString
    requires SegmentLine(mediaID, a) == SegmentLine(mediaID, b)
    ensures a.durationString == b.durationString
    ensures ObjectKey(mediaID, a.path) == ObjectKey(mediaID, b.path)
  {
    var c := LineParts(mediaID, a);
    var d := LineParts(mediaID, b);
    assert c == d;
  }

  // ---- increasing order ----

  ghost predicate Increasing(s: seq<int64>) {
    forall i, j | 0 <= i < j < |s| :: s[i] < s[j]
  }

  /** `idxs` lists the keys of `lines` in increasing order. */
  ghost predicate KeysInOrder(idxs: seq<int64>, lines: map<int64, string>) {
    Increasing(idxs) && forall k :: k in idxs <==> k in lines
  }

  lemma {:induction false} IncreasingIsUnique(s: seq<int64>, t: seq<int64>)
    requires Increasing(s) && Increasing(t)
    requires forall x :: x in s <==> x in t
    ensures s == t
  {
    assert s != [] ==> s[0] in s && s[0] in t;
    assert t != [] ==> t[0] in t && t[0] in s;
    if s != [] && t != [] {
      assert s[0] == t[0];
      forall x ensures x in s[1..] <==> x in t[1..] {
        if x in s[1..] { assert x in s && x != s[0]; assert x in t; }
        if x in t[1..] { assert x in t && x != t[0]; assert x in s; }
      }
      IncreasingIsUnique(s[1..], t[1..]);
    }
  }

  /** The text of the given lines, one after the other. */
  function LinesText(idxs: seq<int64>, lines: map<int64, string>): string
    requires forall k | k in idxs :: k in lines
  {
    if idxs == [] then ""
    else
      var last := idxs[|idxs| - 1];
      assert last in lines;
      LinesText(idxs[..|idxs| - 1], lines) + lines[last]
  }

  function Assemble(body: string): string {
    MANIFEST_BASE + body + MANIFEST_END
  }

  /** `text` is the manifest of `lines`: the header, the lines in increasing segment index, the end tag. */
  ghost predicate IsManifest(text: string, lines: map<int64, string>) {
    exists idxs | KeysInOrder(idxs, lines) ::
      text == Assemble(LinesText(idxs, lines))
  }

  /** A set of lines has one manifest only: the one its keys' increasing order gives. */
  lemma {:induction false} ManifestIsUnique(text: string, idxs: seq<int64>, lines: map<int64, string>)
    requires IsManifest(text, lines) && KeysInOrder(idxs, lines)
    ensures text == Assemble(LinesText(idxs, lines))
  {
    var other :| KeysInOrder(other, lines) && text == Assemble(LinesText(other, lines));
    IncreasingIsUnique(idxs, other);
  }

  /** A manifest begins with the playlist header and ends with the end tag, the lines between them. */
  lemma {:induction false} ManifestFrame(text: string, lines: map<int64, string>)
    requires IsManifest(text, lines)
    ensures MANIFEST_BASE <= text
    ensures |text| >= 15 && text[|text| - 15..] == "\n#EXT-X-ENDLIST"
  {
    var idxs :| KeysInOrder(idxs, lines) && text == Assemble(LinesText(idxs, lines));
    var front := MANIFEST_BASE + LinesText(idxs, lines);
    assert text == front + MANIFEST_END && |MANIFEST_END| == 15;
    assert text[|front|..] == MANIFEST_END;
  }

  /** Puts `x` at its place in an increasing sequence. */
  method InsertInOrder(s: seq<int64>, x: int64) returns (r: seq<int64>)
    requires Increasing(s) && x !in s
    ensures Increasing(r)
    ensures forall y :: y in r <==> y in s || y == x
  {
    var i := 0;
    while i < |s| && s[i] < x
      invariant 0 <= i <= |s|
      invariant forall j | 0 <= j < i :: s[j] < x
    {
      i := i + 1;
    }
    r := s[..i] + [x] + s[i..];
    forall y ensures y in r <==> y in s || y == x {
      assert y in s <==> y in s[..i] || y in s[i..] by { assert s == s[..i] + s[i..]; }
    }
  }

  class ManifestBuilder {
    const mediaID: string
    var segmentLines: map<int64, string>

    constructor Start(mediaID: string)
      ensures this.mediaID == mediaID && segmentLines == map[]
    {
      this.mediaID := mediaID;
      segmentLines := map[];
    }

    /** Uploads one segment. `stored` and `indexed` are what the object store and the indexer answer. */
    method UploadSegment(seg: VideoSegment, stored: Option<Error>, indexed: Option<Error>)
      returns (result: UploadResult)
      modifies this
      ensures result.objectKey == ObjectKey(mediaID, seg.path)
      ensures result.err.None? <==> stored.None? && SegmentIndex(seg).Some? && indexed.None?
      ensures stored.Some? ==> result.err == stored
      ensures stored.None? && SegmentIndex(seg).Some? ==> result.err == indexed
      ensures segmentLines ==
              if stored.None? && SegmentIndex(seg).Some?
              then old(segmentLines)[SegmentIndex(seg).value := SegmentLine(mediaID, seg)]
              else old(segmentLines)
    {
      var objectKey := ObjectKey(mediaID, seg.path);
      if stored.Some? {
        return UploadResult(objectKey, stored);
      }
      var idx := IndexOf(Base(seg.path));
      if idx.None? {
        return UploadResult(objectKey, Some("could not generate segment index for " + seg.path));
      }
      var newline := "\n#EXTINF:" + seg.durationString + ",\n" + objectKey;
      segmentLines := segmentLines[idx.value := newline];
      return UploadResult(objectKey, indexed);
    }

    /** The manifest written when every segment is there. */
    method FinishUpload() returns (final: string)
      ensures IsManifest(final, segmentLines)
    {
      var idxs: seq<int64> := [];
      var todo: set<int64> := segmentLines.Keys;
      while todo != {}
        invariant todo <= segmentLines.Keys
        invariant Increasing(idxs)
        invariant forall k :: k in idxs <==> k in segmentLines && k !in todo
        decreases todo
      {
        var k :| k in todo;
        idxs := InsertInOrder(idxs, k);
        todo := todo - {k};
      }
      assert KeysInOrder(idxs, segmentLines);
      final := MANIFEST_BASE;
      for i := 0 to |idxs|
        invariant final == MANIFEST_BASE + LinesText(idxs[..i], segmentLines)
      {
        assert idxs[..i + 1][..i] == idxs[..i];
        final := final + segmentLines[idxs[i]];
      }
      assert idxs[..|idxs|] == idxs;
      final := final + MANIFEST_END;
    }
  }
}
