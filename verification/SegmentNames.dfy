/** Segment file names: how the manifest builder reads them and how the playlist writer prints them. */
module SegmentNames {
  import opened Decimal
  import opened GoInts
  import opened Wrappers

  const PREFIX := "seg_"
  const SUFFIX := ".ts"

  /** `strings.TrimPrefix`. */
  function TrimPrefix(s: string, prefix: string): string {
    if prefix <= s then s[|prefix|..] else s
  }

  /** `strings.TrimSuffix`. */
  function TrimSuffix(s: string, suffix: string): string {
    if |suffix| <= |s| && s[|s| - |suffix|..] == suffix then s[..|s| - |suffix|] else s
  }

  function TrimTrailingSlashes(path: string): (r: string)
    ensures r <= path
    ensures r != "" ==> r[|r| - 1] != '/'
  {
    if path != "" && path[|path| - 1] == '/' then TrimTrailingSlashes(path[..|path| - 1]) else path
  }

  function AfterLastSlash(path: string): (r: string)
    ensures '/' !in r
  {
    if path == "" || path[|path| - 1] == '/' then ""
    else AfterLastSlash(path[..|path| - 1]) + [path[|path| - 1]]
  }

  /** `filepath.Base`. */
  function Base(path: string): string {
    if path == "" then "."
    else
      var trimmed := TrimTrailingSlashes(path);
      if trimmed == "" then "/" else AfterLastSlash(trimmed)
  }

  function FileName(idx: int64): string {
    PREFIX + Format03(idx) + SUFFIX
  }

  /** The index the builder extracts from a segment's base name. */
  function IndexOf(base: string): Option<int64> {
    ParseInt64(TrimSuffix(TrimPrefix(base, PREFIX), SUFFIX))
  }

  /** The object key a segment file is uploaded under. */
  function ObjectKey(mediaID: string, path: string): (key: string)
    ensures key != ""
  {
    "segments/" + mediaID + "/" + Base(path)
  }

  /** The object key the playlist refers to. */
  function SegmentPath(mediaID: string, idx: int64): string {
    "segments/" + mediaID + "/" + PREFIX + Format03(idx) + SUFFIX
  }

  lemma {:induction false} AfterLastSlashOfName(dir: string, name: string)
    requires '/' !in name
    ensures AfterLastSlash(dir + "/" + name) == name
  {
    var path := dir + "/" + name;
    if name == "" {
      assert path[|path| - 1] == '/';
    } else {
      var shorter := name[..|name| - 1];
      assert name == shorter + [name[|name| - 1]];
      assert path[..|path| - 1] == dir + "/" + shorter;
      AfterLastSlashOfName(dir, shorter);
    }
  }

  lemma {:induction false} BaseOfName(dir: string, name: string)
    requires name != "" && '/' !in name
    ensures Base(dir + "/" + name) == name
  {
    var path := dir + "/" + name;
    assert path[|path| - 1] == name[|name| - 1];
    assert TrimTrailingSlashes(path) == path;
    AfterLastSlashOfName(dir, name);
  }

  /** Trailing slashes do not matter. */
  lemma {:induction false} BaseIgnoresTrailingSlash(path: string)
    requires path != ""
    ensures Base(path + "/") == Base(path)
  {
    assert (path + "/")[..|path + "/"| - 1] == path;
  }

  lemma {:induction false} PrintedSeven()
    ensures Format03(7) == "007"
  {
    Format03Iff("007", 7);
    assert "007"[..2] == "00" && "00"[..1] == "0" && "0"[..0] == "";
  }

  lemma {:induction false} PrintedMinusSeven()
    ensures Format03(-7) == "-07"
  {
    Format03Iff("-07", -7);
    assert "-07"[1..] == "07" && "07"[..1] == "0" && "0"[..0] == "";
  }

  /** The key of segment 7, as the player asks for it, and the name of a negative index. */
  lemma {:induction false} NamesAsWritten()
    ensures SegmentPath("m", 7) == "segments/m/seg_007.ts"
    ensures FileName(-7) == "seg_-07.ts"
    ensures Base("") == "." && Base("/") == "/"
  {
    PrintedSeven();
    PrintedMinusSeven();
    assert "/"[..0] == "";
  }

  lemma {:induction false} FileNameHasNoSlash(idx: int64)
    ensures FileName(idx) != "" && '/' !in FileName(idx)
  {
  }

  lemma {:induction false} IndexOfFileName(idx: int64)
    ensures IndexOf(FileName(idx)) == Some(idx)
  {
    var name, body := FileName(idx), Format03(idx);
    assert TrimPrefix(name, PREFIX) == body + SUFFIX;
    assert TrimSuffix(body + SUFFIX, SUFFIX) == body;
    ParseFormat03(idx);
  }

  /** Printer and parser undo each other: the index survives, and the key is the one uploaded. */
  lemma {:induction false} KeyRoundTrip(mediaID: string, dir: string, idx: int64)
    ensures Base(dir + "/" + FileName(idx)) == FileName(idx)
    ensures IndexOf(Base(dir + "/" + FileName(idx))) == Some(idx)
    ensures SegmentPath(mediaID, idx) == ObjectKey(mediaID, dir + "/" + FileName(idx))
  {
    FileNameHasNoSlash(idx);
    BaseOfName(dir, FileName(idx));
    IndexOfFileName(idx);
    PathOfFileName(mediaID, idx);
  }

  lemma {:induction false} PathOfFileName(mediaID: string, idx: int64)
    ensures SegmentPath(mediaID, idx) == "segments/" + mediaID + "/" + FileName(idx)
  {
  }

  /** A key read back by re-rendering its parsed index is the key itself exactly for the printer's own names. */
  lemma {:induction false} RerenderedKey(mediaID: string, path: string)
    requires IndexOf(Base(path)).Some?
    ensures SegmentPath(mediaID, IndexOf(Base(path)).value) == ObjectKey(mediaID, path)
       <==> exists idx: int64 :: Base(path) == FileName(idx)
  {
    var n := IndexOf(Base(path)).value;
    var head := "segments/" + mediaID + "/";
    PathOfFileName(mediaID, n);
    assert (head + FileName(n))[|head|..] == FileName(n);
    assert (head + Base(path))[|head|..] == Base(path);
    forall idx: int64 | Base(path) == FileName(idx)
      ensures idx == n
    {
      IndexOfFileName(idx);
    }
  }

  /** No two (media, index) pairs share a segment path. */
  lemma {:induction false} SegmentPathInjective(a: string, m: int64, b: string, n: int64)
    requires SegmentPath(a, m) == SegmentPath(b, n)
    ensures a == b && m == n
  {
    SegmentPathParts(a, m);
    SegmentPathParts(b, n);
    assert m == n;
    var path, tail := SegmentPath(a, m), "/" + FileName(m);
    assert |a| == |path| - |tail| - 9 == |b|;
    assert a == path[9..9 + |a|];
    assert b == path[9..9 + |b|];
  }

  lemma {:induction false} SegmentPathParts(a: string, m: int64)
    ensures SegmentPath(a, m) == "segments/" + a + ("/" + FileName(m))
    ensures IndexOf(Base(SegmentPath(a, m))) == Some(m)
  {
    KeyRoundTrip(a, "segments/" + a, m);
    Associative("segments/" + a, "/", FileName(m));
  }

  lemma {:induction false} Associative(x: string, y: string, z: string)
    ensures x + y + z == x + (y + z)
  {
  }
}
