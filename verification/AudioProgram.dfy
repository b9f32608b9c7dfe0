/** The audio playlist and the client's map from timeline time to audio program time. */
module AudioProgram {
  import opened Wrappers
  import opened Playlist

  // ---- the playlist ----

  predicate InStartOrder(cuts: seq<Cut>) {
    forall i, j | 0 <= i < j < |cuts| :: cuts[i].start <= cuts[j].start
  }

  /** `sorted` may come out of `sort.Slice`, which keeps no order among equal starts. */
  ghost predicate IsSorting(cuts: seq<Cut>, sorted: seq<Cut>) {
    InStartOrder(sorted) && multiset(sorted) == multiset(cuts)
  }

  /** No section starts before its predecessor ends. */
  predicate Accepted(cuts: seq<Cut>) {
    forall i | 0 < i < |cuts| :: cuts[i - 1].end <= cuts[i].start
  }

  method SortByStart(cuts: seq<Cut>) returns (sorted: seq<Cut>)
    ensures IsSorting(cuts, sorted)
  {
    sorted := [];
    for i := 0 to |cuts|
      invariant IsSorting(cuts[..i], sorted)
    {
      sorted := InsertByStart(sorted, cuts[i]);
      assert cuts[..i + 1] == cuts[..i] + [cuts[i]];
    }
    assert cuts[..|cuts|] == cuts;
  }

  method InsertByStart(sorted: seq<Cut>, cut: Cut) returns (r: seq<Cut>)
    requires InStartOrder(sorted)
    ensures InStartOrder(r) && multiset(r) == multiset(sorted) + multiset{cut}
  {
    var k := |sorted|;
    while k > 0 && sorted[k - 1].start > cut.start
      invariant 0 <= k <= |sorted|
      invariant forall j | k <= j < |sorted| :: sorted[j].start > cut.start
    {
      k := k - 1;
    }
    r := sorted[..k] + [cut] + sorted[k..];
    InsertionKeepsOrder(sorted, k, cut);
  }

  /** The element at place `i` after an insertion at `k`. */
  function InsertedAt(sorted: seq<Cut>, k: nat, cut: Cut, i: nat): Cut
    requires k <= |sorted| && i <= |sorted|
  {
    if i < k then sorted[i] else if i == k then cut else sorted[i - 1]
  }

  lemma {:induction false} InsertionKeepsOrder(sorted: seq<Cut>, k: nat, cut: Cut)
    requires InStartOrder(sorted) && k <= |sorted|
    requires k > 0 ==> sorted[k - 1].start <= cut.start
    requires forall j | k <= j < |sorted| :: sorted[j].start > cut.start
    ensures InStartOrder(sorted[..k] + [cut] + sorted[k..])
    ensures multiset(sorted[..k] + [cut] + sorted[k..]) == multiset(sorted) + multiset{cut}
  {
    var r := sorted[..k] + [cut] + sorted[k..];
    assert forall i | 0 <= i < |r| :: r[i] == InsertedAt(sorted, k, cut, i);
    forall i: nat, j: nat | i < j < |r|
      ensures InsertedAt(sorted, k, cut, i).start <= InsertedAt(sorted, k, cut, j).start
    {
    }
    InsertionCounts(sorted, k, cut);
  }

  lemma {:induction false} InsertionCounts(sorted: seq<Cut>, k: nat, cut: Cut)
    requires k <= |sorted|
    ensures multiset(sorted[..k] + [cut] + sorted[k..]) == multiset(sorted) + multiset{cut}
  {
    assert sorted == sorted[..k] + sorted[k..];
  }

  /** The first `n` sections can be written; `answers[i]` answers the query of section `i`. */
  ghost predicate WritableTo(cuts: seq<Cut>, answers: seq<Answer>, n: nat)
    requires n <= |cuts| == |answers|
  {
    Accepted(cuts[..n]) && forall i | 0 <= i < n :: Answers(answers[i])
  }

  predicate StartsTooEarly(cuts: seq<Cut>, i: nat)
    requires i < |cuts|
  {
    i > 0 && cuts[i].start < cuts[i - 1].end
  }

  /** Section `i` is the first that cannot be written, and `error` says why. */
  ghost predicate FailsAt(cuts: seq<Cut>, answers: seq<Answer>, i: nat, error: Error)
    requires i < |cuts| == |answers|
  {
    && WritableTo(cuts, answers, i)
    && if StartsTooEarly(cuts, i) then error == Overlap
       else !Answers(answers[i]) && error == RefusedWith(answers[i])
  }

  lemma {:induction false} WritableStep(cuts: seq<Cut>, answers: seq<Answer>, n: nat)
    requires n < |cuts| == |answers| && WritableTo(cuts, answers, n)
    ensures WritableTo(cuts, answers, n + 1) <==> !StartsTooEarly(cuts, n) && Answers(answers[n])
  {
  }

  /** The sections in the order `sorted` are written, or the first that cannot be written is reported. */
  ghost predicate WrittenAs(sorted: seq<Cut>, answers: seq<Answer>, r: Result<seq<Line>, Error>)
    requires |sorted| == |answers|
  {
    && (r.Ok? <==> WritableTo(sorted, answers, |sorted|))
    && (r.Ok? ==> r.value == PlaylistLines(sorted, answers))
    && (r.Err? ==> exists i: nat :: i < |sorted| && FailsAt(sorted, answers, i, r.error))
  }

  /** `ParseAudioSectionsToHLS`, between the header and the end tag; `answers[i]` answers the query made `i`-th. */
  method ParseAudioSectionsToHLS(cuts: seq<Cut>, answers: seq<Answer>) returns (r: Result<seq<Line>, Error>)
    requires |answers| == |cuts|
    ensures exists sorted :: IsSorting(cuts, sorted) && |sorted| == |answers| && WrittenAs(sorted, answers, r)
  {
    var sortedState := SortByStart(cuts);
    SortingLength(cuts, sortedState);
    var base: seq<Line> := [];
    for i := 0 to |sortedState|
      invariant WritableTo(sortedState, answers, i)
      invariant base == PlaylistLines(sortedState[..i], answers[..i])
    {
      var section := sortedState[i];
      WritableStep(sortedState, answers, i);
      if i > 0 && section.start < sortedState[i - 1].end {
        assert FailsAt(sortedState, answers, i, Overlap);
        r := Err(Overlap);
        assert WrittenAs(sortedState, answers, r);
        return;
      }
      var seg := SerializeSection(section.asset, i == 0, answers[i]);
      if seg.Err? {
        assert FailsAt(sortedState, answers, i, seg.error);
        r := Err(seg.error);
        assert WrittenAs(sortedState, answers, r);
        return;
      }
      assert sortedState[..i + 1][..i] == sortedState[..i] && answers[..i + 1][..i] == answers[..i];
      base := base + seg.value;
    }
    assert sortedState[..|sortedState|] == sortedState && answers[..|sortedState|] == answers;
    r := Ok(base);
    assert WrittenAs(sortedState, answers, r);
  }

  lemma {:induction false} SortingLength(cuts: seq<Cut>, sorted: seq<Cut>)
    requires IsSorting(cuts, sorted)
    ensures |sorted| == |cuts|
  {
    assert |sorted| == |multiset(sorted)| && |cuts| == |multiset(cuts)|;
  }

  // ---- the overlap check ----

  predicate Nonempty(cuts: seq<Cut>) {
    forall i | 0 <= i < |cuts| :: cuts[i].start < cuts[i].end
  }

  predicate Apart(c: Cut, d: Cut) {
    c.end <= d.start || d.end <= c.start
  }

  predicate Disjoint(cuts: seq<Cut>) {
    forall i, j | 0 <= i < j < |cuts| :: Apart(cuts[i], cuts[j])
  }

  /** The same, by occurrences. */
  ghost predicate DisjointAll(m: multiset<Cut>) {
    && (forall c | c in m && m[c] >= 2 :: Apart(c, c))
    && (forall c, d | c in m && d in m && c != d :: Apart(c, d))
  }

  lemma {:induction false} CountedTwice(cuts: seq<Cut>, c: Cut) returns (i: nat, j: nat)
    requires multiset(cuts)[c] >= 2
    ensures i < j < |cuts| && cuts[i] == c && cuts[j] == c
  {
    var n := |cuts| - 1;
    assert cuts == cuts[..n] + [cuts[n]];
    if cuts[n] != c {
      i, j := CountedTwice(cuts[..n], c);
    } else {
      assert c in multiset(cuts[..n]);
      i :| i < n && cuts[..n][i] == c;
      j := n;
    }
  }

  lemma {:induction false} TwiceCounts(cuts: seq<Cut>, i: nat, j: nat)
    requires i < j < |cuts| && cuts[i] == cuts[j]
    ensures multiset(cuts)[cuts[i]] >= 2
  {
    var c := cuts[i];
    assert cuts == cuts[..j] + cuts[j..];
    assert cuts[..j][i] == c && cuts[j..][0] == c;
    assert c in multiset(cuts[..j]) && c in multiset(cuts[j..]);
  }

  lemma {:induction false} DisjointMeaning(cuts: seq<Cut>)
    ensures Disjoint(cuts) <==> DisjointAll(multiset(cuts))
  {
    if Disjoint(cuts) {
      forall c | c in multiset(cuts) && multiset(cuts)[c] >= 2
        ensures Apart(c, c)
      {
        var i, j := CountedTwice(cuts, c);
        assert Apart(cuts[i], cuts[j]);
      }
      forall c, d | c in multiset(cuts) && d in multiset(cuts) && c != d
        ensures Apart(c, d)
      {
        var i: nat :| i < |cuts| && cuts[i] == c;
        var j: nat :| j < |cuts| && cuts[j] == d;
        assert if i < j then Apart(cuts[i], cuts[j]) else Apart(cuts[j], cuts[i]);
      }
    }
    if DisjointAll(multiset(cuts)) {
      forall i, j | 0 <= i < j < |cuts|
        ensures Apart(cuts[i], cuts[j])
      {
        if cuts[i] == cuts[j] {
          TwiceCounts(cuts, i, j);
        }
      }
    }
  }

  lemma {:induction false} AcceptedInOrder(cuts: seq<Cut>, i: nat, j: nat)
    requires Accepted(cuts) && Forward(cuts) && i < j < |cuts|
    ensures cuts[i].end <= cuts[j].start
  {
    if i + 1 < j {
      AcceptedInOrder(cuts, i, j - 1);
    }
  }

  /** Of two neighbours that start together, the earlier one is empty. */
  predicate EmptyFirst(sorted: seq<Cut>) {
    forall i | 0 < i < |sorted| && sorted[i - 1].start == sorted[i].start :: sorted[i - 1].end <= sorted[i - 1].start
  }

  lemma {:induction false} SortingKeeps(cuts: seq<Cut>, sorted: seq<Cut>)
    requires IsSorting(cuts, sorted)
    ensures Forward(cuts) ==> Forward(sorted)
    ensures Nonempty(cuts) ==> Nonempty(sorted)
  {
    forall i | 0 <= i < |sorted|
      ensures exists j :: 0 <= j < |cuts| && cuts[j] == sorted[i]
    {
      assert sorted[i] in multiset(cuts);
    }
  }

  /**
   Looking at neighbours in start order finds an overlap exactly when two sections overlap at all, unless
   an empty section was sorted behind one it starts with.
   */
  lemma {:induction false} AcceptedIffDisjoint(cuts: seq<Cut>, sorted: seq<Cut>)
    requires IsSorting(cuts, sorted) && Forward(cuts)
    ensures Forward(sorted)
    ensures Accepted(sorted) <==> Disjoint(cuts) && EmptyFirst(sorted)
    ensures Nonempty(cuts) ==> Nonempty(sorted) && (Accepted(sorted) <==> Disjoint(cuts))
  {
    SortingKeeps(cuts, sorted);
    DisjointMeaning(cuts);
    DisjointMeaning(sorted);
    if Accepted(sorted) {
      forall i, j | 0 <= i < j < |sorted|
        ensures Apart(sorted[i], sorted[j])
      {
        AcceptedInOrder(sorted, i, j);
      }
    }
    if Disjoint(sorted) {
      forall i | 0 < i < |sorted|
        ensures EmptyFirst(sorted) ==> sorted[i - 1].end <= sorted[i].start
        ensures Nonempty(sorted) ==> sorted[i - 1].end <= sorted[i].start
      {
        assert Apart(sorted[i - 1], sorted[i]);
      }
    }
  }

  // ---- the seek map ----

  predicate Spans(cut: Cut, t: int) {
    cut.start <= t < cut.end
  }

  /** The total length of the sections over by `t`. */
  function Elapsed(cuts: seq<Cut>, t: int): int {
    if cuts == [] then 0
    else
      var last := cuts[|cuts| - 1];
      Elapsed(cuts[..|cuts| - 1], t) + (if t >= last.end then last.end - last.start else 0)
  }

  /** The program time of the first section that spans `t`, if any. */
  function Seek(cuts: seq<Cut>, t: int): Option<int> {
    if cuts == [] then None
    else
      var init, last := cuts[..|cuts| - 1], cuts[|cuts| - 1];
      if Seek(init, t).Some? then Seek(init, t)
      else if Spans(last, t) then Some(Elapsed(init, t) + t - last.start)
      else None
  }

  /** `audioTimelineTimeSeconds`, in milliseconds. */
  method AudioTimelineTime(audioSections: seq<Cut>, timelineMs: int) returns (r: Option<int>)
    ensures r == Seek(audioSections, timelineMs)
  {
    var audioProgramMs := 0;
    for i := 0 to |audioSections|
      invariant audioProgramMs == Elapsed(audioSections[..i], timelineMs)
      invariant Seek(audioSections[..i], timelineMs) == None
    {
      var section := audioSections[i];
      var duration := section.end - section.start;
      assert audioSections[..i + 1][..i] == audioSections[..i];
      if section.start <= timelineMs && timelineMs < section.end {
        SeekIsFinal(audioSections, timelineMs, i + 1);
        return Some(audioProgramMs + (timelineMs - section.start));
      }
      if timelineMs >= section.end {
        audioProgramMs := audioProgramMs + duration;
      }
    }
    assert audioSections[..|audioSections|] == audioSections;
    return None;
  }

  /** Later sections do not change an answer. */
  lemma {:induction false} SeekIsFinal(cuts: seq<Cut>, t: int, n: nat)
    requires n <= |cuts| && Seek(cuts[..n], t).Some?
    ensures Seek(cuts, t) == Seek(cuts[..n], t)
  {
    if n == |cuts| {
      assert cuts[..n] == cuts;
    } else {
      assert cuts[..|cuts| - 1][..n] == cuts[..n];
      SeekIsFinal(cuts[..|cuts| - 1], t, n);
    }
  }

  lemma {:induction false} SeekNone(cuts: seq<Cut>, t: int)
    ensures Seek(cuts, t).None? <==> forall i | 0 <= i < |cuts| :: !Spans(cuts[i], t)
  {
    if cuts != [] {
      SeekNone(cuts[..|cuts| - 1], t);
    }
  }

  /** In start order, the seek map adds the lengths of all earlier sections. */
  lemma {:induction false} SeekInOrder(cuts: seq<Cut>, k: nat, t: int)
    requires Accepted(cuts) && Forward(cuts) && k < |cuts| && Spans(cuts[k], t)
    ensures Seek(cuts, t) == Some(TotalDuration(cuts[..k]) + t - cuts[k].start)
  {
    forall i | 0 <= i < k
      ensures cuts[i].end <= t
    {
      AcceptedInOrder(cuts, i, k);
    }
    ElapsedAll(cuts[..k], t);
    SeekNone(cuts[..k], t);
    assert cuts[..k + 1][..k] == cuts[..k];
    SeekIsFinal(cuts, t, k + 1);
  }

  lemma {:induction false} ElapsedAll(cuts: seq<Cut>, t: int)
    requires forall i | 0 <= i < |cuts| :: cuts[i].end <= t
    ensures Elapsed(cuts, t) == TotalDuration(cuts)
  {
    if cuts != [] {
      ElapsedAll(cuts[..|cuts| - 1], t);
    }
  }

  // ---- the order the client keeps ----

  lemma {:induction false} ElapsedAppend(a: seq<Cut>, b: seq<Cut>, t: int)
    ensures Elapsed(a + b, t) == Elapsed(a, t) + Elapsed(b, t)
  {
    if b == [] {
      assert a + b == a;
    } else {
      assert (a + b)[..|a + b| - 1] == a + b[..|b| - 1];
      ElapsedAppend(a, b[..|b| - 1], t);
    }
  }

  lemma {:induction false} TakeOut(cuts: seq<Cut>, j: nat, t: int)
    requires j < |cuts|
    ensures Elapsed(cuts, t) == Elapsed(cuts[..j] + cuts[j + 1..], t) + Elapsed([cuts[j]], t)
    ensures multiset(cuts[..j] + cuts[j + 1..]) == multiset(cuts) - multiset{cuts[j]}
  {
    var before, after := cuts[..j], cuts[j + 1..];
    assert cuts == before + [cuts[j]] + after;
    ElapsedAppend(before, after, t);
    ElapsedAppend(before + [cuts[j]], after, t);
    ElapsedAppend(before, [cuts[j]], t);
  }

  lemma {:induction false} ElapsedPermutes(a: seq<Cut>, b: seq<Cut>, t: int)
    requires multiset(a) == multiset(b)
    ensures Elapsed(a, t) == Elapsed(b, t)
    decreases |a|
  {
    assert |a| == |multiset(a)| == |multiset(b)| == |b|;
    if a != [] {
      var n := |a| - 1;
      assert a[n] in multiset(b);
      var j: nat :| j < |b| && b[j] == a[n];
      TakeOut(a, n, t);
      TakeOut(b, j, t);
      ElapsedPermutes(a[..n] + a[n + 1..], b[..j] + b[j + 1..], t);
    }
  }

  lemma {:induction false} LastComesLast(cuts: seq<Cut>, c: Cut)
    requires Accepted(cuts) && Nonempty(cuts) && c in cuts
    ensures c == cuts[|cuts| - 1] || c.end <= cuts[|cuts| - 1].start
  {
    var i: nat :| i < |cuts| && cuts[i] == c;
    if i < |cuts| - 1 {
      AcceptedInOrder(cuts, i, |cuts| - 1);
    }
  }

  lemma {:induction false} LastsAgree(a: seq<Cut>, b: seq<Cut>)
    requires multiset(a) == multiset(b) && Nonempty(a) && Nonempty(b) && a != [] && b != []
    requires Accepted(a) && Accepted(b)
    ensures a[|a| - 1] == b[|b| - 1]
  {
    var c, d := a[|a| - 1], b[|b| - 1];
    assert c in multiset(b) && d in multiset(a);
    LastComesLast(a, d);
    LastComesLast(b, c);
    assert c.start < c.end && d.start < d.end;
  }

  lemma {:induction false} InitCounts(a: seq<Cut>)
    requires a != []
    ensures multiset(a[..|a| - 1]) == multiset(a) - multiset{a[|a| - 1]}
  {
    assert a == a[..|a| - 1] + [a[|a| - 1]];
  }

  lemma {:induction false} InitsAgree(a: seq<Cut>, b: seq<Cut>)
    requires multiset(a) == multiset(b) && a != [] && b != [] && a[|a| - 1] == b[|b| - 1]
    ensures multiset(a[..|a| - 1]) == multiset(b[..|b| - 1])
  {
    InitCounts(a);
    InitCounts(b);
  }

  lemma {:induction false} OrderIsUnique(a: seq<Cut>, b: seq<Cut>)
    requires multiset(a) == multiset(b) && Nonempty(a) && Nonempty(b)
    requires Accepted(a) && Accepted(b)
    ensures a == b
  {
    assert |a| == |multiset(a)| == |multiset(b)| == |b|;
    if a != [] {
      var n := |a| - 1;
      LastsAgree(a, b);
      InitsAgree(a, b);
      OrderIsUnique(a[..n], b[..n]);
    }
  }

  /** An accepted playlist comes from a client in start order exactly when both hold the same list. */
  lemma {:induction false} SortingIsUnique(cuts: seq<Cut>, sorted: seq<Cut>)
    requires IsSorting(cuts, sorted) && Nonempty(cuts) && Disjoint(cuts)
    ensures Nonempty(sorted) && Accepted(sorted)
    ensures InStartOrder(cuts) <==> cuts == sorted
  {
    AcceptedIffDisjoint(cuts, sorted);
    if InStartOrder(cuts) {
      OrderIsUnique(cuts, sorted);
    }
  }

  lemma {:induction false} ElapsedMonotone(cuts: seq<Cut>, i: nat, j: nat, t: int)
    requires Nonempty(cuts) && i <= j < |cuts| && cuts[j].end <= t
    ensures Elapsed(cuts[..i], t) < Elapsed(cuts, t)
    decreases |cuts|
  {
    var n := |cuts| - 1;
    if j < n {
      assert cuts[..n][..i] == cuts[..i];
      ElapsedMonotone(cuts[..n], i, j, t);
    } else {
      ElapsedNotLess(cuts[..n], i, t);
      assert cuts[..n][..i] == cuts[..i];
    }
  }

  lemma {:induction false} ElapsedNotLess(cuts: seq<Cut>, i: nat, t: int)
    requires Nonempty(cuts) && i <= |cuts|
    ensures Elapsed(cuts[..i], t) <= Elapsed(cuts, t)
    decreases |cuts|
  {
    if i == |cuts| {
      assert cuts[..i] == cuts;
    } else {
      assert cuts[..|cuts| - 1][..i] == cuts[..i];
      ElapsedNotLess(cuts[..|cuts| - 1], i, t);
    }
  }

  /** At the start of its section, the seek map adds up what precedes it in the list. */
  lemma {:induction false} SeekStart(cuts: seq<Cut>, i: nat)
    requires Nonempty(cuts) && Disjoint(cuts) && i < |cuts|
    ensures Seek(cuts, cuts[i].start) == Some(Elapsed(cuts[..i], cuts[i].start))
  {
    var t := cuts[i].start;
    forall j | 0 <= j < i
      ensures !Spans(cuts[j], t)
    {
      assert Apart(cuts[j], cuts[i]);
    }
    SeekNone(cuts[..i], t);
    assert cuts[..i + 1][..i] == cuts[..i];
    SeekIsFinal(cuts, t, i + 1);
  }

  lemma {:induction false} SeekMisses(cuts: seq<Cut>, sorted: seq<Cut>, i: nat, j: nat)
    requires IsSorting(cuts, sorted) && Nonempty(cuts) && Disjoint(cuts)
    requires i < j < |cuts| && cuts[i].start > cuts[j].start
    ensures Seek(cuts, cuts[i].start) != Seek(sorted, cuts[i].start)
  {
    var t := cuts[i].start;
    assert Apart(cuts[i], cuts[j]);
    SeekStart(cuts, i);
    ElapsedMonotone(cuts, i, j, t);
    ElapsedPermutes(cuts, sorted, t);
    SortingIsUnique(cuts, sorted);
    assert cuts[i] in multiset(sorted);
    var k: nat :| k < |sorted| && sorted[k] == cuts[i];
    SeekInOrder(sorted, k, t);
    ElapsedInOrder(sorted, k);
  }

  lemma {:induction false} ElapsedInOrder(cuts: seq<Cut>, k: nat)
    requires Accepted(cuts) && Nonempty(cuts) && k < |cuts|
    ensures Elapsed(cuts, cuts[k].start) == TotalDuration(cuts[..k])
  {
    var t := cuts[k].start;
    forall i | 0 <= i < |cuts|
      ensures cuts[i].end <= t <==> i < k
    {
      if i < k {
        AcceptedInOrder(cuts, i, k);
      } else if k < i {
        AcceptedInOrder(cuts, k, i);
      }
    }
    ElapsedAll(cuts[..k], t);
    ElapsedNone(cuts[k..], t);
    assert cuts == cuts[..k] + cuts[k..];
    ElapsedAppend(cuts[..k], cuts[k..], t);
  }

  lemma {:induction false} ElapsedNone(cuts: seq<Cut>, t: int)
    requires forall i | 0 <= i < |cuts| :: t < cuts[i].end
    ensures Elapsed(cuts, t) == 0
  {
    if cuts != [] {
      ElapsedNone(cuts[..|cuts| - 1], t);
    }
  }

  // ---- with empty sections ----

  /** The sections that are not empty. */
  function Solid(cuts: seq<Cut>): seq<Cut> {
    if cuts == [] then []
    else
      var init, last := cuts[..|cuts| - 1], cuts[|cuts| - 1];
      if last.start < last.end then Solid(init) + [last] else Solid(init)
  }

  lemma {:induction false} SolidSeek(cuts: seq<Cut>, t: int)
    requires Forward(cuts)
    ensures Elapsed(Solid(cuts), t) == Elapsed(cuts, t) && Seek(Solid(cuts), t) == Seek(cuts, t)
  {
    if cuts != [] {
      var init, last := cuts[..|cuts| - 1], cuts[|cuts| - 1];
      assert cuts == init + [last];
      SolidSeek(init, t);
      SeekSnoc(init, last, t);
      SeekSnoc(Solid(init), last, t);
    }
  }

  /** The two functions when one more section follows. */
  lemma {:induction false} SeekSnoc(init: seq<Cut>, last: Cut, t: int)
    ensures Elapsed(init + [last], t) == Elapsed(init, t) + (if t >= last.end then last.end - last.start else 0)
    ensures Seek(init + [last], t) == if Seek(init, t).Some? then Seek(init, t)
      else if Spans(last, t) then Some(Elapsed(init, t) + t - last.start) else None
  {
    assert (init + [last])[..|init|] == init;
  }

  lemma {:induction false} SolidCounts(cuts: seq<Cut>, c: Cut)
    ensures multiset(Solid(cuts))[c] == if c.start < c.end then multiset(cuts)[c] else 0
  {
    if cuts != [] {
      var init, last := cuts[..|cuts| - 1], cuts[|cuts| - 1];
      SolidCounts(init, c);
      assert cuts == init + [last];
    }
  }

  lemma {:induction false} SolidMembers(cuts: seq<Cut>)
    ensures Nonempty(Solid(cuts))
    ensures InStartOrder(cuts) ==> InStartOrder(Solid(cuts))
    ensures forall c | c in Solid(cuts) :: c in cuts
  {
    if cuts != [] {
      var init, last := cuts[..|cuts| - 1], cuts[|cuts| - 1];
      SolidMembers(init);
      forall c | c in Solid(init)
        ensures InStartOrder(cuts) ==> c.start <= last.start
      {
        var i: nat :| i < |init| && init[i] == c;
      }
    }
  }

  lemma {:induction false} SolidSorting(cuts: seq<Cut>, sorted: seq<Cut>)
    requires IsSorting(cuts, sorted) && Disjoint(cuts)
    ensures IsSorting(Solid(cuts), Solid(sorted)) && Disjoint(Solid(cuts))
  {
    SolidMembers(sorted);
    forall c
      ensures multiset(Solid(sorted))[c] == multiset(Solid(cuts))[c] <= multiset(cuts)[c]
    {
      SolidCounts(cuts, c);
      SolidCounts(sorted, c);
    }
    assert multiset(Solid(sorted)) == multiset(Solid(cuts));
    DisjointMeaning(cuts);
    DisjointMeaning(Solid(cuts));
  }

  /**
   The client's map agrees with the served order at all times exactly when it holds the sections that
   are not empty in start order.
   */
  lemma {:induction false} SeekNeedsOrder(cuts: seq<Cut>, sorted: seq<Cut>)
    requires IsSorting(cuts, sorted) && Forward(cuts) && Disjoint(cuts)
    ensures SameSeeks(cuts, sorted) <==> InStartOrder(Solid(cuts))
  {
    SortingKeeps(cuts, sorted);
    SolidMembers(cuts);
    SolidSorting(cuts, sorted);
    SolidNeedsOrder(Solid(cuts), Solid(sorted));
    SolidSeeks(cuts, sorted);
  }

  /** The two lists give the same seek map. */
  ghost predicate SameSeeks(cuts: seq<Cut>, served: seq<Cut>) {
    forall t: int :: Seek(cuts, t) == Seek(served, t)
  }

  lemma {:induction false} SolidSeeks(cuts: seq<Cut>, served: seq<Cut>)
    requires Forward(cuts) && Forward(served)
    ensures SameSeeks(cuts, served) <==> SameSeeks(Solid(cuts), Solid(served))
  {
    var own, other := Solid(cuts), Solid(served);
    forall t: int
      ensures Seek(own, t) == Seek(cuts, t) && Seek(other, t) == Seek(served, t)
    {
      SolidSeek(cuts, t);
      SolidSeek(served, t);
    }
  }

  lemma {:induction false} SolidNeedsOrder(cuts: seq<Cut>, sorted: seq<Cut>)
    requires IsSorting(cuts, sorted) && Nonempty(cuts) && Disjoint(cuts)
    ensures SameSeeks(cuts, sorted) <==> InStartOrder(cuts)
  {
    if InStartOrder(cuts) {
      SortingIsUnique(cuts, sorted);
    } else {
      var i: nat, j: nat :| i < j < |cuts| && cuts[i].start > cuts[j].start;
      SeekMisses(cuts, sorted, i, j);
    }
  }
}
