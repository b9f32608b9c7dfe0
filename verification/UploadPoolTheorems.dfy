/** The upload pool ends, accounts for every segment, and produces one manifest whatever the schedule. */
module UploadPoolTheorems {
  import opened GoInts
  import opened Wrappers
  import opened SegmentNames
  import opened ManifestBuilder
  import opened UploadPool
  import opened UploadPoolInvariants

  /** `s` is reached from the start by `actions`. */
  predicate Reaches(job: Job, workerCount: int, actions: seq<Action>, s: Pool) {
    Run(job, Start(workerCount), actions) == Some(s)
  }

  lemma {:induction false} ReachableInv(job: Job, workerCount: int, actions: seq<Action>, s: Pool)
    requires Reaches(job, workerCount, actions, s)
    ensures Inv(job, s)
  {
    StartInv(job, workerCount);
    InvRun(job, Start(workerCount), actions);
  }

  // ---- the pool always ends ----

  /** In every reachable state in which `uploadSegments` has not returned, some goroutine can move. */
  lemma {:induction false} NeverStuck(job: Job, workerCount: int, actions: seq<Action>, s: Pool)
    requires Reaches(job, workerCount, actions, s) && !s.consumer.Returned?
    ensures exists a :: a != OutsideCancel && Enabled(job, s, a)
  {
    ReachableInv(job, workerCount, actions, s);
    if s.consumer.Handling? {
      assert Enabled(job, s, Handle(None));
    } else if w :| 0 <= w < |s.workers| && !s.workers[w].Idle? && !s.workers[w].Stopped? {
      WorkerCanMove(job, s, w);
    } else {
      ProducerOrWorkerCanMove(job, s);
    }
  }

  lemma {:induction false} WorkerCanMove(job: Job, s: Pool, w: nat)
    requires w < |s.workers| && !s.workers[w].Idle? && !s.workers[w].Stopped? && s.consumer.Receiving?
    ensures exists a :: a != OutsideCancel && Enabled(job, s, a)
  {
    match s.workers[w]
    case Storing(_) => assert Enabled(job, s, Store(w, None));
    case Recording(_) => assert Enabled(job, s, Record(w));
    case Indexing(_) => assert Enabled(job, s, Index(w, None));
    case Sending(_, _) => assert Enabled(job, s, Deliver(w));
    case Failing => assert Enabled(job, s, CancelAfterFailure(w));
  }

  lemma {:induction false} ProducerOrWorkerCanMove(job: Job, s: Pool)
    requires Flow(job, s) && s.consumer.Receiving?
    requires forall w | 0 <= w < |s.workers| :: s.workers[w].Idle? || s.workers[w].Stopped?
    ensures exists a :: a != OutsideCancel && Enabled(job, s, a)
  {
    match s.producer
    case Pulling => assert Enabled(job, s, Pull);
    case Offering(_) =>
      if s.workers[0].Idle? { assert Enabled(job, s, HandOver(0)); } else { assert Enabled(job, s, GiveUp); }
    case Reporting(_) => assert Enabled(job, s, ReportBroken);
    case Cancelling => assert Enabled(job, s, CancelAfterBroken);
    case Closing => assert Enabled(job, s, CloseJobs);
    case Waiting =>
      if w :| 0 <= w < |s.workers| && s.workers[w].Idle? { assert Enabled(job, s, Exit(w)); }
      else { assert Enabled(job, s, ReleaseContext); }
    case Releasing => assert Enabled(job, s, CloseResults);
    case Ended => assert Enabled(job, s, Return);
  }

  function WorkerRank(w: Worker): nat {
    match w
    case Idle => 1
    case Storing(_) => 7
    case Recording(_) => 6
    case Indexing(_) => 5
    case Sending(_, _) => 4
    case Failing => 2
    case Stopped => 0
  }

  function WorkersRank(ws: seq<Worker>): nat {
    if ws == [] then 0 else WorkerRank(ws[0]) + WorkersRank(ws[1..])
  }

  function ProducerRank(p: Producer): nat {
    match p
    case Pulling => 5
    case Offering(_) => 12
    case Reporting(_) => 6
    case Cancelling => 4
    case Closing => 3
    case Waiting => 2
    case Releasing => 1
    case Ended => 0
  }

  function ConsumerRank(c: Consumer): nat {
    match c
    case Handling(_) => 2
    case Receiving => 1
    case Returned(_) => 0
  }

  /** The rank of everything but the workers. */
  function OtherRank(job: Job, s: Pool): nat
    requires s.pulled <= |job.items|
  {
    10 * (|job.items| - s.pulled) + ProducerRank(s.producer) + ConsumerRank(s.consumer) + (if s.outside then 0 else 1)
  }

  function Measure(job: Job, s: Pool): nat
    requires s.pulled <= |job.items|
  {
    OtherRank(job, s) + WorkersRank(s.workers)
  }

  /** The worker an action moves. */
  function Mover(a: Action): Option<nat> {
    match a
    case HandOver(w) => Some(w)
    case Store(w, _) => Some(w)
    case Record(w) => Some(w)
    case Index(w, _) => Some(w)
    case Deliver(w) => Some(w)
    case CancelAfterFailure(w) => Some(w)
    case Exit(w) => Some(w)
    case _ => None
  }

  lemma {:induction false} HandOverRanks(job: Job, s: Pool, w: nat)
    requires s.pulled <= |job.items| && Enabled(job, s, HandOver(w))
    ensures var t := StepProducer(job, s, HandOver(w));
            && t.pulled == s.pulled && w < |s.workers| == |t.workers|
            && t.workers == s.workers[w := t.workers[w]]
            && OtherRank(job, t) + WorkerRank(t.workers[w]) < OtherRank(job, s) + WorkerRank(s.workers[w])
  {
  }

  /** A worker's own rank drops, by more than the consumer's can grow when a result is delivered. */
  lemma {:induction false} MovesRank(job: Job, s: Pool, t: Pool, w: nat)
    requires s.pulled <= |job.items| && Moves(s, t, w) && (s.workers[w].Sending? ==> s.consumer.Receiving?)
    ensures t.pulled == s.pulled
    ensures OtherRank(job, t) + WorkerRank(t.workers[w]) < OtherRank(job, s) + WorkerRank(s.workers[w])
  {
  }

  lemma {:induction false} MoverRanks(job: Job, s: Pool, a: Action)
    requires s.pulled <= |job.items| && Enabled(job, s, a) && Mover(a).Some?
    ensures var t, w := Step(job, s, a), Mover(a).value;
            && t.pulled == s.pulled && w < |s.workers| == |t.workers|
            && t.workers == s.workers[w := t.workers[w]]
            && OtherRank(job, t) + WorkerRank(t.workers[w]) < OtherRank(job, s) + WorkerRank(s.workers[w])
  {
    if ByWorker(a) {
      WorkerMoves(job, s, a);
      MovesRank(job, s, StepWorker(job, s, a), a.w);
    } else {
      HandOverRanks(job, s, a.w);
    }
  }

  lemma {:induction false} ConsumerRanks(job: Job, s: Pool, a: Action)
    requires s.pulled <= |job.items| && Enabled(job, s, a) && ByConsumer(a)
    ensures var t := StepConsumer(job, s, a);
            t.pulled <= |job.items| && t.workers == s.workers && OtherRank(job, t) < OtherRank(job, s)
  {
  }

  lemma {:induction false} ProducerRanks(job: Job, s: Pool, a: Action)
    requires s.pulled <= |job.items| && Enabled(job, s, a) && Mover(a).None? && !ByConsumer(a) && !ByWorker(a)
    ensures var t := StepProducer(job, s, a);
            t.pulled <= |job.items| && t.workers == s.workers && OtherRank(job, t) < OtherRank(job, s)
  {
    if a.Pull? {
      PullRanks(job, s);
    }
  }

  lemma {:induction false} PullRanks(job: Job, s: Pool)
    requires s.pulled <= |job.items| && s.producer.Pulling?
    ensures var t := StepPull(job, s);
            t.pulled <= |job.items| && t.workers == s.workers && OtherRank(job, t) < OtherRank(job, s)
  {
  }

  lemma {:induction false} OtherRanks(job: Job, s: Pool, a: Action)
    requires s.pulled <= |job.items| && Enabled(job, s, a) && Mover(a).None?
    ensures var t := Step(job, s, a);
            t.pulled <= |job.items| && t.workers == s.workers && OtherRank(job, t) < OtherRank(job, s)
  {
    if ByConsumer(a) {
      ConsumerRanks(job, s, a);
    } else {
      ProducerRanks(job, s, a);
    }
  }

  lemma {:induction false} WorkersRankUpdate(ws: seq<Worker>, i: nat, w: Worker)
    requires i < |ws|
    ensures WorkersRank(ws[i := w]) == WorkersRank(ws) - WorkerRank(ws[i]) + WorkerRank(w)
  {
    if i == 0 {
      assert ws[0 := w][1..] == ws[1..];
    } else {
      WorkersRankUpdate(ws[1..], i - 1, w);
      assert ws[i := w][1..] == ws[1..][i - 1 := w];
    }
  }

  lemma {:induction false} MeasureDecreases(job: Job, s: Pool, a: Action)
    requires s.pulled <= |job.items| && Enabled(job, s, a)
    ensures Step(job, s, a).pulled <= |job.items| && Measure(job, Step(job, s, a)) < Measure(job, s)
  {
    if Mover(a).Some? {
      MoverRanks(job, s, a);
      WorkersRankUpdate(s.workers, Mover(a).value, Step(job, s, a).workers[Mover(a).value]);
    } else {
      OtherRanks(job, s, a);
    }
  }

  lemma {:induction false} RunMeasure(job: Job, s: Pool, actions: seq<Action>)
    requires s.pulled <= |job.items| && Run(job, s, actions).Some?
    ensures |actions| <= Measure(job, s)
    decreases |actions|
  {
    if actions != [] {
      MeasureDecreases(job, s, actions[0]);
      RunMeasure(job, Step(job, s, actions[0]), actions[1..]);
    }
  }

  lemma {:induction false} IdleRank(ws: seq<Worker>)
    requires forall w | 0 <= w < |ws| :: ws[w].Idle?
    ensures WorkersRank(ws) == |ws|
  {
    if ws != [] { IdleRank(ws[1..]); }
  }

  /** No run is longer than ten steps a segment, one a worker, and seven more. */
  lemma {:induction false} RunsAreBounded(job: Job, workerCount: int, actions: seq<Action>, s: Pool)
    requires Reaches(job, workerCount, actions, s)
    ensures |s.workers| == if workerCount <= 0 then 1 else workerCount
    ensures |actions| <= 10 * |job.items| + |s.workers| + 7
  {
    StartInv(job, workerCount);
    RunMeasure(job, Start(workerCount), actions);
    IdleRank(Start(workerCount).workers);
    WorkersStay(job, Start(workerCount), actions);
  }

  lemma {:induction false} WorkersStay(job: Job, s: Pool, actions: seq<Action>)
    requires Run(job, s, actions).Some?
    ensures |Run(job, s, actions).value.workers| == |s.workers|
    decreases |actions|
  {
    if actions != [] {
      WorkersStayOnce(job, s, actions[0]);
      WorkersStay(job, Step(job, s, actions[0]), actions[1..]);
    }
  }

  lemma {:induction false} WorkersStayOnce(job: Job, s: Pool, a: Action)
    requires Enabled(job, s, a)
    ensures |Step(job, s, a).workers| == |s.workers|
  {
    if ByWorker(a) {
      WorkerMoves(job, s, a);
    } else if !ByConsumer(a) && !a.HandOver? {
      ProducerKeeps(job, s, a);
    }
  }

  // ---- the workers run side by side ----

  /** The first `k` workers each hold one of the first `k` segments; the others are idle. */
  ghost predicate Busy(s: Pool, k: nat) {
    && k <= |s.workers| && s.producer.Pulling? && s.pulled == k && !s.cancelled
    && forall w: nat | w < |s.workers| :: if w < k then HeldBy(s.workers[w]) == Some(w) else s.workers[w].Idle?
  }

  /** All workers can hold a segment at the same time, as soon as there is one for each. */
  lemma {:induction false} WorkersRunSideBySide(job: Job, workerCount: int, k: nat)
    returns (actions: seq<Action>, s: Pool)
    requires k <= |Start(workerCount).workers| && k <= |job.items|
    requires forall p | 0 <= p < k :: job.items[p].Produced?
    ensures Reaches(job, workerCount, actions, s) && Busy(s, k) && |s.workers| == |Start(workerCount).workers|
    ensures s.entered == Upto(k)
  {
    if k == 0 {
      actions, s := [], Start(workerCount);
    } else {
      var before, t := WorkersRunSideBySide(job, workerCount, k - 1);
      var pulled := t.(producer := Offering(k - 1), pulled := k);
      var a1 := Extend(job, workerCount, before, t, Pull, pulled);
      s := pulled.(producer := Pulling, workers := t.workers[k - 1 := Storing(k - 1)], entered := t.entered + [k - 1]);
      actions := Extend(job, workerCount, a1, pulled, HandOver(k - 1), s);
    }
  }

  // ---- accounting ----

  /** `s` lists 0, 1, ..., n - 1 once each, in some order. */
  ghost predicate Enumerates(s: seq<nat>, n: nat) {
    NoDuplicates(s) && forall p: nat :: p in s <==> p < n
  }

  function Upto(n: nat): (s: seq<nat>)
    ensures |s| == n && forall i | 0 <= i < n :: s[i] == i
  {
    seq(n, i => i)
  }

  lemma {:induction false} EnumerationLength(s: seq<nat>, n: nat)
    requires Enumerates(s, n)
    ensures |s| == n
  {
    assert s != [] ==> s[0] in s;
    if n > 0 {
      var last: nat := n - 1;
      assert last in s;
      var i :| 0 <= i < |s| && s[i] == last;
      var r := s[..i] + s[i + 1..];
      assert forall k | 0 <= k < |r| :: r[k] == if k < i then s[k] else s[k + 1];
      forall p: nat ensures p in r <==> p < n - 1 {
        if p < n - 1 {
          assert p in s;
          var k :| 0 <= k < |s| && s[k] == p;
          assert r[if k < i then k else k - 1] == p;
        }
        if p in r {
          var k :| 0 <= k < |r| && r[k] == p;
          assert p in s && p != s[i];
        }
      }
      EnumerationLength(r, n - 1);
    }
  }

  lemma {:induction false} UptoEnumerates(n: nat)
    ensures Enumerates(Upto(n), n)
  {
    var s := Upto(n);
    forall p: nat ensures p in s <==> p < n {
      if p < n { assert s[p] == p; }
    }
  }

  /** At any moment of any run each segment has been entered at most once, and in stream order. */
  lemma {:induction false} EnteredAtMostOnce(job: Job, workerCount: int, actions: seq<Action>, s: Pool)
    requires Reaches(job, workerCount, actions, s)
    ensures s.entered == Upto(|s.entered|) && NoDuplicates(s.entered) && |s.entered| <= |job.items|
  {
    ReachableInv(job, workerCount, actions, s);
  }

  /**
   When `uploadSegments` returns, whatever the outcome, its cleanup list holds the key of every
   segment whose upload was entered, once each, and nothing else.
   */
  lemma {:induction false} CleanupListIsExact(job: Job, workerCount: int, actions: seq<Action>, s: Pool)
    requires Reaches(job, workerCount, actions, s) && s.consumer.Returned?
    ensures Enumerates(s.handled, |s.entered|)
    ensures |s.tally.uploadedObjects| == |s.handled| == |s.entered|
    ensures forall i | 0 <= i < |s.entered| ::
      && s.handled[i] < |job.items| && job.items[s.handled[i]].Produced?
      && s.tally.uploadedObjects[i] == ObjectKey(job.mediaID, job.items[s.handled[i]].seg.path)
    ensures forall p | p in s.entered :: Key(job, p) in s.tally.uploadedObjects
  {
    ReachableInv(job, workerCount, actions, s);
    forall p: nat ensures p in s.handled <==> p < |s.entered| {
      if p < |s.entered| { assert Placed(s, p); }
    }
    EnumerationLength(s.handled, |s.entered|);
    forall i | 0 <= i < |s.entered|
      ensures s.handled[i] < |job.items| && job.items[s.handled[i]].Produced?
    {
      assert s.handled[i] in s.handled;
    }
    forall p | p in s.entered ensures Key(job, p) in s.tally.uploadedObjects {
      assert p in s.handled;
      var i :| 0 <= i < |s.handled| && s.handled[i] == p;
      assert s.tally.uploadedObjects[i] == Key(job, p);
    }
  }

  /** `uploadSegments` returns an error exactly when some operation failed. */
  lemma {:induction false} ErrorExactlyWhenFaulty(job: Job, workerCount: int, actions: seq<Action>, s: Pool)
    requires Reaches(job, workerCount, actions, s) && s.consumer.Returned?
    ensures s.consumer.err.Some? <==> s.faulty
  {
    ReachableInv(job, workerCount, actions, s);
  }

  /** What the consumer handled in one turn: the result it received and the answer of its progress call. */
  datatype Turn = Turn(result: UploadResult, progress: Option<Error>)

  /** The turn a step makes, if it is one. */
  function TurnOf(job: Job, s: Pool, a: Action): seq<Turn>
    requires Enabled(job, s, a)
  {
    if a.Handle? then [Turn(AsResult(job, s.consumer.msg), a.progress)] else []
  }

  /** The consumer's turns in a run, in order. */
  function Turns(job: Job, s: Pool, actions: seq<Action>): seq<Turn>
    requires Run(job, s, actions).Some?
    decreases |actions|
  {
    if actions == [] then []
    else TurnOf(job, s, actions[0]) + Turns(job, Step(job, s, actions[0]), actions[1..])
  }

  function ResultsOf(turns: seq<Turn>): (results: seq<UploadResult>)
    ensures |results| == |turns| && forall i | 0 <= i < |turns| :: results[i] == turns[i].result
  {
    seq(|turns|, i requires 0 <= i < |turns| => turns[i].result)
  }

  function ProgressOf(turns: seq<Turn>): (progress: seq<Option<Error>>)
    ensures |progress| == |turns| && forall i | 0 <= i < |turns| :: progress[i] == turns[i].progress
  {
    seq(|turns|, i requires 0 <= i < |turns| => turns[i].progress)
  }

  /** The tally is that of the draining loop over the turns. */
  predicate Tallies(s: Pool, turns: seq<Turn>) {
    s.tally == DrainAll(ResultsOf(turns), ProgressOf(turns))
  }

  lemma {:induction false} TalliesStep(job: Job, s: Pool, a: Action, turns: seq<Turn>)
    requires Enabled(job, s, a) && Tallies(s, turns)
    ensures Tallies(Step(job, s, a), turns + TurnOf(job, s, a))
  {
    if a.Handle? {
      var longer := turns + TurnOf(job, s, a);
      assert ResultsOf(longer)[..|turns|] == ResultsOf(turns) && ProgressOf(longer)[..|turns|] == ProgressOf(turns);
    } else {
      HandledStays(job, s, a);
      assert turns + [] == turns;
    }
  }

  lemma {:induction false} RegroupTurns(a: seq<Turn>, b: seq<Turn>, c: seq<Turn>)
    ensures (a + b) + c == a + (b + c)
  {
  }

  lemma {:induction false} TalliesRun(job: Job, s: Pool, actions: seq<Action>, before: seq<Turn>)
    requires Run(job, s, actions).Some? && Tallies(s, before)
    ensures Tallies(Run(job, s, actions).value, before + Turns(job, s, actions))
    decreases |actions|
  {
    if actions == [] {
      assert before + [] == before;
    } else {
      var next, turn := Step(job, s, actions[0]), TurnOf(job, s, actions[0]);
      TalliesStep(job, s, actions[0], before);
      TalliesRun(job, next, actions[1..], before + turn);
      RegroupTurns(before, turn, Turns(job, next, actions[1..]));
    }
  }

  /**
   In every run, whatever the schedule, `uploadSegments` returns the error of the first message or progress
   call that failed, and nil when none did.
   */
  lemma {:induction false} ReturnsTheFirstError(job: Job, workerCount: int, actions: seq<Action>, s: Pool)
    requires Reaches(job, workerCount, actions, s) && s.consumer.Returned?
    ensures var turns := Turns(job, Start(workerCount), actions);
      && (s.consumer.err.None? <==> AllWell(ResultsOf(turns), ProgressOf(turns)))
      && (forall k: nat | FirstFailure(ResultsOf(turns), ProgressOf(turns), k) ::
            s.consumer.err == TurnError(turns[k].result, turns[k].progress))
  {
    var turns := Turns(job, Start(workerCount), actions);
    ReachableInv(job, workerCount, actions, s);
    TalliesRun(job, Start(workerCount), actions, []);
    assert [] + turns == turns;
    DrainOutcome(ResultsOf(turns), ProgressOf(turns));
    forall k: nat | FirstFailure(ResultsOf(turns), ProgressOf(turns), k)
      ensures s.consumer.err == TurnError(turns[k].result, turns[k].progress)
    {
      FirstErrorIsReturned(ResultsOf(turns), ProgressOf(turns), k);
    }
  }

  /** The consumer knows of a failure only once the context of the pool is done. */
  predicate CancelsOnFailure(s: Pool) {
    s.tally.uploadErr.Some? || s.tally.streamErr.Some? ==> s.cancelled
  }

  lemma {:induction false} CancelsStep(job: Job, s: Pool, a: Action)
    requires Enabled(job, s, a) && CancelsOnFailure(s)
    ensures CancelsOnFailure(Step(job, s, a))
  {
    if ByWorker(a) {
      WorkerMoves(job, s, a);
    } else if !ByConsumer(a) {
      HandedStays(job, s, a);
    }
  }

  lemma {:induction false} CancelsRun(job: Job, s: Pool, actions: seq<Action>)
    requires Run(job, s, actions).Some? && CancelsOnFailure(s)
    ensures CancelsOnFailure(Run(job, s, actions).value)
    decreases |actions|
  {
    if actions != [] {
      CancelsStep(job, s, actions[0]);
      CancelsRun(job, Step(job, s, actions[0]), actions[1..]);
    }
  }

  /** In every run, at every moment: once a failure has been handled the pool's context is done. */
  lemma {:induction false} FirstErrorCancels(job: Job, workerCount: int, actions: seq<Action>, s: Pool)
    requires Reaches(job, workerCount, actions, s)
    requires !AllWell(ResultsOf(Turns(job, Start(workerCount), actions)),
                      ProgressOf(Turns(job, Start(workerCount), actions)))
    ensures s.cancelled
  {
    var turns := Turns(job, Start(workerCount), actions);
    CancelsRun(job, Start(workerCount), actions);
    TalliesRun(job, Start(workerCount), actions, []);
    assert [] + turns == turns;
    DrainOutcome(ResultsOf(turns), ProgressOf(turns));
  }

  /** The hypothesis of a complete upload: no failure and no outside cancellation. */
  predicate Succeeded(s: Pool) {
    s.consumer == Returned(None) && !s.outside
  }

  /** Every segment of the stream was stored, recorded in the manifest, and indexed, once each. */
  ghost predicate Complete(job: Job, s: Pool) {
    && s.entered == Upto(|job.items|)
    && Enumerates(s.recorded, |job.items|) && Enumerates(s.indexed, |job.items|)
  }

  /** When `uploadSegments` returns nil, every segment it entered has gone all the way. */
  lemma {:induction false} NilMeansDone(job: Job, workerCount: int, actions: seq<Action>, s: Pool)
    requires Reaches(job, workerCount, actions, s) && s.consumer == Returned(None)
    ensures Enumerates(s.handled, |s.entered|)
    ensures Enumerates(s.recorded, |s.entered|) && Enumerates(s.indexed, |s.entered|)
    ensures s.tally.completed == |s.entered| && s.lines == LinesOf(job, s.recorded)
    ensures forall p | 0 <= p < |s.entered| :: p < |job.items| && job.items[p].Produced? && IndexAt(job, p).Some?
  {
    ReachableInv(job, workerCount, actions, s);
    CleanupListIsExact(job, workerCount, actions, s);
    forall p: nat
      ensures p in s.recorded <==> p < |s.entered|
      ensures p in s.indexed <==> p < |s.entered|
    {
      assert p in s.handled <==> p < |s.entered|;
    }
    assert forall p: nat | p < |s.entered| :: p in s.recorded;
  }

  /** A nil return without outside cancellation means every segment was stored, recorded and indexed once. */
  lemma {:induction false} SuccessIsComplete(job: Job, workerCount: int, actions: seq<Action>, s: Pool)
    requires Reaches(job, workerCount, actions, s) && Succeeded(s)
    ensures forall p | 0 <= p < |job.items| :: job.items[p].Produced? && IndexAt(job, p).Some?
    ensures Complete(job, s) && Enumerates(s.handled, |job.items|)
    ensures s.tally.completed == |job.items|
    ensures s.lines == LinesOf(job, s.recorded)
  {
    ReachableInv(job, workerCount, actions, s);
    NilMeansDone(job, workerCount, actions, s);
    assert |s.entered| == |job.items|;
  }

  // ---- when a nil return loses segments ----

  /** The producer has left its loop. */
  predicate Left(s: Pool) {
    s.producer.Closing? || JobsClosed(s)
  }

  /** It left with segments to hand over. */
  predicate LeftEarly(job: Job, s: Pool) {
    Left(s) && |s.entered| < |job.items| && job.items[0].Produced?
  }

  /** It left with everything handed over, or after an error. */
  ghost predicate LeftInOrder(job: Job, s: Pool) {
    Left(s) ==> |s.entered| == |job.items| || Trouble(s)
  }

  lemma {:induction false} LeftStays(job: Job, s: Pool, a: Action)
    requires Enabled(job, s, a) && Left(s)
    ensures Left(Step(job, s, a)) && Step(job, s, a).entered == s.entered
  {
    if ByWorker(a) {
      WorkerMoves(job, s, a);
    }
  }

  lemma {:induction false} GiveUpLeavesEarly(job: Job, s: Pool)
    requires Flow(job, s) && Enabled(job, s, GiveUp)
    ensures LeftEarly(job, Step(job, s, GiveUp))
  {
    assert s.entered != [] ==> job.items[0].Produced?;
  }

  lemma {:induction false} EarlyStays(job: Job, s: Pool, actions: seq<Action>)
    requires Inv(job, s) && Run(job, s, actions).Some? && (LeftEarly(job, s) || GiveUp in actions)
    ensures LeftEarly(job, Run(job, s, actions).value)
    decreases |actions|
  {
    if actions != [] {
      var a := actions[0];
      InvStep(job, s, a);
      if LeftEarly(job, s) {
        LeftStays(job, s, a);
      } else if a == GiveUp {
        GiveUpLeavesEarly(job, s);
      } else {
        assert GiveUp in actions[1..];
      }
      EarlyStays(job, Step(job, s, a), actions[1..]);
    }
  }

  /** Whatever becomes of a known failure, it stays known. */
  lemma {:induction false} TroubleStays(job: Job, s: Pool, a: Action)
    requires Trouble(s) && Enabled(job, s, a)
    ensures Trouble(Step(job, s, a))
  {
    if ByWorker(a) {
      WorkerMoves(job, s, a);
    } else if !ByConsumer(a) {
      HandedStays(job, s, a);
    }
  }

  /** The producer leaves its loop in three ways. */
  lemma {:induction false} OthersStayIn(job: Job, s: Pool, a: Action)
    requires Enabled(job, s, a) && !Left(s) && a != GiveUp && !a.Pull? && !a.CancelAfterBroken?
    ensures !Left(Step(job, s, a))
  {
    if ByWorker(a) {
      WorkerMoves(job, s, a);
    }
  }

  lemma {:induction false} PullLeaves(job: Job, s: Pool)
    requires Flow(job, s) && s.producer.Pulling?
    ensures LeftInOrder(job, StepPull(job, s))
  {
  }

  lemma {:induction false} LeavesInOrder(job: Job, s: Pool, a: Action)
    requires Inv(job, s) && Enabled(job, s, a) && a != GiveUp && !Left(s)
    ensures LeftInOrder(job, Step(job, s, a))
  {
    if a.Pull? {
      PullLeaves(job, s);
    } else if a.CancelAfterBroken? {
      TroubleStays(job, s, a);
    } else {
      OthersStayIn(job, s, a);
    }
  }

  lemma {:induction false} OrderStays(job: Job, s: Pool, actions: seq<Action>)
    requires Inv(job, s) && Run(job, s, actions).Some? && LeftInOrder(job, s) && GiveUp !in actions
    ensures LeftInOrder(job, Run(job, s, actions).value)
    decreases |actions|
  {
    if actions != [] {
      var a := actions[0];
      InvStep(job, s, a);
      if Left(s) {
        LeftStays(job, s, a);
        if Trouble(s) {
          TroubleStays(job, s, a);
        }
      } else {
        LeavesInOrder(job, s, a);
      }
      OrderStays(job, Step(job, s, a), actions[1..]);
    }
  }

  /**
   A nil return means that every segment was stored, recorded and indexed if and only if the producer
   never gave up a segment it was offering.
   */
  lemma {:induction false} NilIsCompleteIff(job: Job, workerCount: int, actions: seq<Action>, s: Pool)
    requires Reaches(job, workerCount, actions, s) && s.consumer == Returned(None)
    ensures Complete(job, s) <==> GiveUp !in actions
  {
    StartInv(job, workerCount);
    ReachableInv(job, workerCount, actions, s);
    NilMeansDone(job, workerCount, actions, s);
    if GiveUp in actions {
      EarlyStays(job, Start(workerCount), actions);
    } else {
      OrderStays(job, Start(workerCount), actions);
      assert |s.entered| == |job.items|;
    }
  }

  /** The producer left its loop at a broken item only after it cancelled the pool's context. */
  predicate CancelsWhenBroken(job: Job, s: Pool) {
    Left(s) && 0 < s.pulled <= |job.items| && job.items[s.pulled - 1].Broken? ==> s.cancelled
  }

  lemma {:induction false} LeavesWithoutBreak(job: Job, s: Pool, a: Action)
    requires Flow(job, s) && Enabled(job, s, a) && (a == GiveUp || a.Pull?)
    ensures CancelsWhenBroken(job, Step(job, s, a))
  {
    assert forall p | 0 <= p < |s.entered| :: job.items[p].Produced?;
  }

  lemma {:induction false} PulledStays(job: Job, s: Pool, a: Action)
    requires Enabled(job, s, a) && !a.Pull?
    ensures Step(job, s, a).pulled == s.pulled && (s.cancelled ==> Step(job, s, a).cancelled)
  {
    if ByWorker(a) {
      WorkerMoves(job, s, a);
    }
  }

  lemma {:induction false} BreakCancelsStep(job: Job, s: Pool, a: Action)
    requires Flow(job, s) && Enabled(job, s, a) && CancelsWhenBroken(job, s)
    ensures CancelsWhenBroken(job, Step(job, s, a))
  {
    if a == GiveUp || a.Pull? {
      LeavesWithoutBreak(job, s, a);
    } else {
      PulledStays(job, s, a);
      if !Left(s) && !a.CancelAfterBroken? {
        OthersStayIn(job, s, a);
      }
    }
  }

  lemma {:induction false} BreakCancelsRun(job: Job, s: Pool, actions: seq<Action>)
    requires Inv(job, s) && Run(job, s, actions).Some? && CancelsWhenBroken(job, s)
    ensures CancelsWhenBroken(job, Run(job, s, actions).value)
    decreases |actions|
  {
    if actions != [] {
      InvStep(job, s, actions[0]);
      BreakCancelsStep(job, s, actions[0]);
      BreakCancelsRun(job, Step(job, s, actions[0]), actions[1..]);
    }
  }

  /** In every run: when the stream broke and the producer is out of its loop, the pool's context is done. */
  lemma {:induction false} BrokenStreamCancels(job: Job, workerCount: int, actions: seq<Action>, s: Pool)
    requires Reaches(job, workerCount, actions, s)
    ensures CancelsWhenBroken(job, s)
  {
    StartInv(job, workerCount);
    BreakCancelsRun(job, Start(workerCount), actions);
  }

  /** A run that returns nil with segments missing. */
  ghost predicate Loses(job: Job, workerCount: int, actions: seq<Action>, s: Pool) {
    Reaches(job, workerCount, actions, s) && s.consumer == Returned(None) && !Complete(job, s)
  }

  /** Whatever the number of workers, such a run exists if and only if the stream begins with a segment. */
  lemma {:induction false} OutsideCancellationCanLoseSegments(job: Job, workerCount: int)
    ensures (exists actions, s :: Loses(job, workerCount, actions, s)) <==>
            |job.items| >= 1 && job.items[0].Produced?
  {
    if actions, s :| Loses(job, workerCount, actions, s) {
      StartInv(job, workerCount);
      NilIsCompleteIff(job, workerCount, actions, s);
      EarlyStays(job, Start(workerCount), actions);
    }
    if |job.items| >= 1 && job.items[0].Produced? {
      var actions, s := LosesAll(job, workerCount);
      assert Loses(job, workerCount, actions, s);
    }
  }

  /** The caller's context is cancelled while the first segment is on offer: nil, and nothing uploaded. */
  lemma {:induction false} LosesAll(job: Job, workerCount: int) returns (all: seq<Action>, t: Pool)
    requires |job.items| >= 1 && job.items[0].Produced?
    ensures Reaches(job, workerCount, all, t) && t.consumer == Returned(None) && t.entered == []
  {
    var s0 := Start(workerCount);
    var s1 := s0.(producer := Offering(0), pulled := 1);
    assert Reaches(job, workerCount, [], s0);
    var a1 := Extend(job, workerCount, [], s0, Pull, s1);
    var a2 := Extend(job, workerCount, a1, s1, OutsideCancel, s1.(cancelled := true, outside := true));
    var actions, s := GivesUp(job, workerCount, a2, s1.(cancelled := true, outside := true));
    all, t := WorkersLeave(job, workerCount, actions, s, 0);
  }

  lemma {:induction false} GivesUp(job: Job, n: int, actions: seq<Action>, s: Pool) returns (all: seq<Action>, t: Pool)
    requires Reaches(job, n, actions, s) && s.producer.Offering? && s.cancelled
    ensures Reaches(job, n, all, t) && t == s.(producer := Waiting)
  {
    var s1 := s.(producer := Closing);
    var a1 := Extend(job, n, actions, s, GiveUp, s1);
    t := s1.(producer := Waiting);
    all := Extend(job, n, a1, s1, CloseJobs, t);
  }

  /** The first `k` workers have gone; the others go, and the pool winds down. */
  lemma {:induction false} WorkersLeave(job: Job, n: int, actions: seq<Action>, s: Pool, k: nat)
          returns (all: seq<Action>, t: Pool)
    requires Reaches(job, n, actions, s) && s.producer.Waiting? && s.consumer.Receiving? && k <= |s.workers|
    requires forall w | 0 <= w < |s.workers| :: s.workers[w] == if w < k then Stopped else Idle
    ensures Reaches(job, n, all, t) && t.consumer == Returned(Outcome(s.tally)) && t.entered == s.entered
    decreases |s.workers| - k
  {
    if k == |s.workers| {
      all, t := WindDown(job, n, actions, s);
    } else {
      var s1 := s.(workers := s.workers[k := Stopped]);
      var a1 := Extend(job, n, actions, s, Exit(k), s1);
      all, t := WorkersLeave(job, n, a1, s1, k + 1);
    }
  }

  /** With jobs closed and all workers gone, nothing keeps the consumer from returning. */
  lemma {:induction false} WindDown(job: Job, n: int, actions: seq<Action>, s: Pool) returns (all: seq<Action>, t: Pool)
    requires Reaches(job, n, actions, s) && s.producer.Waiting? && s.consumer.Receiving?
    requires forall w | 0 <= w < |s.workers| :: s.workers[w].Stopped?
    ensures Reaches(job, n, all, t) && t.consumer == Returned(Outcome(s.tally))
    ensures t.entered == s.entered && t.outside == s.outside
  {
    var s1 := s.(producer := Releasing, cancelled := true);
    var s2 := s1.(producer := Ended);
    t := s2.(consumer := Returned(Outcome(s.tally)));
    var a1 := Extend(job, n, actions, s, ReleaseContext, s1);
    var a2 := Extend(job, n, a1, s1, CloseResults, s2);
    all := Extend(job, n, a2, s2, Return, t);
  }

  lemma {:induction false} Extend(job: Job, n: int, actions: seq<Action>, s: Pool, a: Action, t: Pool)
          returns (longer: seq<Action>)
    requires Reaches(job, n, actions, s) && Enabled(job, s, a) && t == Step(job, s, a)
    ensures Reaches(job, n, longer, t)
  {
    longer := actions + [a];
    RunAppend(job, Start(n), actions, a);
  }

  lemma {:induction false} RunAppend(job: Job, s: Pool, actions: seq<Action>, a: Action)
    requires Run(job, s, actions).Some? && Enabled(job, Run(job, s, actions).value, a)
    ensures Run(job, s, actions + [a]) == Some(Step(job, Run(job, s, actions).value, a))
    decreases |actions|
  {
    if actions == [] {
      assert [a][1..] == [];
      assert Run(job, Step(job, s, a), []) == Some(Step(job, s, a));
    } else {
      assert (actions + [a])[1..] == actions[1..] + [a];
      RunAppend(job, Step(job, s, actions[0]), actions[1..], a);
    }
  }

  // ---- the manifest does not depend on the schedule ----

  /** No two segments of the stream have the same index. */
  ghost predicate DistinctIndices(job: Job) {
    forall p: nat, q: nat | p < q < |job.items| :: IndexAt(job, p).None? || IndexAt(job, p) != IndexAt(job, q)
  }

  /** The stream the segmenter yields: files numbered in order in one directory. */
  ghost predicate FromSegmenter(job: Job, dir: string) {
    |job.items| <= INT64_MAX &&
    forall p: nat | p < |job.items| :: job.items[p].Produced? && job.items[p].seg.path == dir + "/" + FileName(p)
  }

  lemma {:induction false} SegmenterIndices(job: Job, dir: string)
    requires FromSegmenter(job, dir)
    ensures forall p: nat | p < |job.items| :: IndexAt(job, p) == Some(p)
    ensures DistinctIndices(job)
  {
    forall p: nat | p < |job.items| ensures IndexAt(job, p) == Some(p) {
      KeyRoundTrip(job.mediaID, dir, p);
    }
  }

  lemma {:induction false} LinesOfHas(job: Job, recorded: seq<nat>)
    requires DistinctIndices(job) && NoDuplicates(recorded)
    requires forall p | p in recorded :: p < |job.items| && IndexAt(job, p).Some?
    ensures forall p | p in recorded ::
      && IndexAt(job, p).value in LinesOf(job, recorded)
      && LinesOf(job, recorded)[IndexAt(job, p).value] == SegmentLine(job.mediaID, Segment(job, p))
    ensures forall k | k in LinesOf(job, recorded) :: exists p :: p in recorded && IndexAt(job, p) == Some(k)
  {
    if recorded != [] {
      var init, last := recorded[..|recorded| - 1], recorded[|recorded| - 1];
      assert forall p :: p in recorded <==> p in init || p == last;
      assert last !in init;
      LinesOfHas(job, init);
      forall p | p in init ensures IndexAt(job, p) != IndexAt(job, last) {
        assert p != last;
      }
      forall k | k in LinesOf(job, recorded) ensures exists p :: p in recorded && IndexAt(job, p) == Some(k) {
        if k in LinesOf(job, init) {
          var p :| p in init && IndexAt(job, p) == Some(k);
          assert p in recorded;
        } else {
          assert last in recorded && IndexAt(job, last) == Some(k);
        }
      }
    }
  }

  /** The order in which the workers add their lines does not matter. */
  lemma {:induction false} LinesOfAnyOrder(job: Job, r: seq<nat>, t: seq<nat>, n: nat)
    requires DistinctIndices(job) && n <= |job.items|
    requires Enumerates(r, n) && Enumerates(t, n)
    requires forall p: nat | p < n :: IndexAt(job, p).Some?
    ensures LinesOf(job, r) == LinesOf(job, t)
  {
    LinesIncluded(job, r, t, n);
    LinesIncluded(job, t, r, n);
    var a, b := LinesOf(job, r), LinesOf(job, t);
    assert a.Keys == b.Keys;
  }

  lemma {:induction false} LinesIncluded(job: Job, r: seq<nat>, t: seq<nat>, n: nat)
    requires DistinctIndices(job) && n <= |job.items|
    requires Enumerates(r, n) && Enumerates(t, n)
    requires forall p: nat | p < n :: IndexAt(job, p).Some?
    ensures forall k: int64 | k in LinesOf(job, r) :: k in LinesOf(job, t) && LinesOf(job, t)[k] == LinesOf(job, r)[k]
  {
    LinesOfHas(job, r);
    LinesOfHas(job, t);
    forall k: int64 | k in LinesOf(job, r)
      ensures k in LinesOf(job, t) && LinesOf(job, t)[k] == LinesOf(job, r)[k]
    {
      var p :| p in r && IndexAt(job, p) == Some(k);
      assert p in t;
    }
  }

  /**
   Whatever the number of workers and the order of completion, a successful run leaves the builder
   with the lines of the one-by-one upload, so the manifest written is the same text.
   */
  lemma {:induction false} ScheduleIndependence(job: Job, n: int, actions: seq<Action>, s: Pool, text: string)
    requires DistinctIndices(job)
    requires Reaches(job, n, actions, s) && Succeeded(s)
    requires IsManifest(text, s.lines)
    ensures s.lines == LinesOf(job, Upto(|job.items|))
    ensures IsManifest(text, LinesOf(job, Upto(|job.items|)))
  {
    SuccessIsComplete(job, n, actions, s);
    UptoEnumerates(|job.items|);
    LinesOfAnyOrder(job, s.recorded, Upto(|job.items|), |job.items|);
  }

  /** In particular two successful runs write the same manifest, for instance one with a single worker. */
  lemma {:induction false} ManifestsAgree(job: Job, m: int, xs: seq<Action>, s: Pool, text: string,
                       n: int, ys: seq<Action>, t: Pool, other: string)
    requires DistinctIndices(job)
    requires Reaches(job, m, xs, s) && Succeeded(s) && IsManifest(text, s.lines)
    requires Reaches(job, n, ys, t) && Succeeded(t) && IsManifest(other, t.lines)
    ensures text == other
  {
    ScheduleIndependence(job, m, xs, s, text);
    ScheduleIndependence(job, n, ys, t, other);
    var idxs :| KeysInOrder(idxs, s.lines) && text == Assemble(LinesText(idxs, s.lines));
    ManifestIsUnique(other, idxs, s.lines);
  }

  /** The manifest of the segmenter's stream: the segments' lines in stream order. */
  lemma {:induction false} SegmenterManifest(job: Job, dir: string, n: int, actions: seq<Action>, s: Pool, text: string)
    requires FromSegmenter(job, dir)
    requires Reaches(job, n, actions, s) && Succeeded(s) && IsManifest(text, s.lines)
    ensures text == Assemble(StreamText(job, |job.items|))
  {
    SuccessIsComplete(job, n, actions, s);
    SegmenterText(job, dir, s.recorded, text);
  }

  lemma {:induction false} SegmenterText(job: Job, dir: string, recorded: seq<nat>, text: string)
    requires FromSegmenter(job, dir) && Enumerates(recorded, |job.items|)
    requires IsManifest(text, LinesOf(job, recorded))
    ensures text == Assemble(StreamText(job, |job.items|))
  {
    var idxs: seq<int64> := seq(|job.items|, i => i);
    SegmenterLines(job, dir, recorded, idxs);
    StreamManifest(job, idxs, LinesOf(job, recorded), text);
  }

  /** The lines are those of the stream, keyed by position. */
  ghost predicate LinesOfStream(job: Job, idxs: seq<int64>, lines: map<int64, string>) {
    && |idxs| == |job.items| && KeysInOrder(idxs, lines)
    && forall p: nat | p < |idxs| ::
         && idxs[p] == p && job.items[p].Produced? && p in lines
         && lines[p] == SegmentLine(job.mediaID, Segment(job, p))
  }

  lemma {:induction false} SegmenterLines(job: Job, dir: string, recorded: seq<nat>, idxs: seq<int64>)
    requires FromSegmenter(job, dir) && Enumerates(recorded, |job.items|)
    requires |idxs| == |job.items| && forall p: nat | p < |idxs| :: idxs[p] == p
    ensures LinesOfStream(job, idxs, LinesOf(job, recorded))
  {
    SegmenterIndices(job, dir);
    SegmenterKeys(job, recorded, idxs);
  }

  lemma {:induction false} SegmenterKeys(job: Job, recorded: seq<nat>, idxs: seq<int64>)
    requires DistinctIndices(job) && Enumerates(recorded, |job.items|)
    requires forall p: nat | p < |job.items| :: job.items[p].Produced? && IndexAt(job, p) == Some(p)
    requires |idxs| == |job.items| && forall p: nat | p < |idxs| :: idxs[p] == p
    ensures LinesOfStream(job, idxs, LinesOf(job, recorded))
  {
    var lines := LinesOf(job, recorded);
    LinesOfHas(job, recorded);
    forall p: nat | p < |job.items|
      ensures LineAt(job, lines, p)
    {
      assert p in recorded && IndexAt(job, p) == Some(p);
    }
    forall k: int64 | k in lines
      ensures 0 <= k < |job.items|
    {
      var p :| p in recorded && IndexAt(job, p) == Some(k);
    }
    KeyedByPosition(job, idxs, lines);
  }

  ghost predicate LineAt(job: Job, lines: map<int64, string>, p: nat) {
    && p < |job.items| && p in lines && job.items[p].Produced?
    && lines[p] == SegmentLine(job.mediaID, Segment(job, p))
  }

  lemma {:induction false} KeyedByPosition(job: Job, idxs: seq<int64>, lines: map<int64, string>)
    requires |idxs| == |job.items| && forall p: nat | p < |idxs| :: idxs[p] == p
    requires forall p: nat | p < |job.items| :: LineAt(job, lines, p)
    requires forall k: int64 | k in lines :: 0 <= k < |job.items|
    ensures LinesOfStream(job, idxs, lines)
  {
    forall p: nat | p < |idxs|
      ensures p in lines && job.items[p].Produced? && lines[p] == SegmentLine(job.mediaID, Segment(job, p))
    {
      assert LineAt(job, lines, p);
    }
    forall k: int64
      ensures k in idxs <==> k in lines
    {
      if k in lines {
        assert idxs[k] == k;
      }
      if k in idxs {
        var p: nat :| p < |idxs| && idxs[p] == k;
        assert LineAt(job, lines, p);
      }
    }
  }

  function StreamText(job: Job, n: nat): string
    requires n <= |job.items| && forall p: nat | p < n :: job.items[p].Produced?
  {
    if n == 0 then "" else StreamText(job, n - 1) + SegmentLine(job.mediaID, Segment(job, n - 1))
  }

  lemma {:induction false} StreamLines(job: Job, idxs: seq<int64>, lines: map<int64, string>, n: nat)
    requires LinesOfStream(job, idxs, lines) && n <= |idxs|
    ensures forall k | k in idxs[..n] :: k in lines
    ensures LinesText(idxs[..n], lines) == StreamText(job, n)
  {
    if n > 0 {
      StreamLines(job, idxs, lines, n - 1);
      assert idxs[..n][..n - 1] == idxs[..n - 1];
    }
  }

  lemma {:induction false} StreamManifest(job: Job, idxs: seq<int64>, lines: map<int64, string>, text: string)
    requires LinesOfStream(job, idxs, lines) && IsManifest(text, lines)
    ensures forall p: nat | p < |job.items| :: job.items[p].Produced?
    ensures text == Assemble(StreamText(job, |job.items|))
  {
    ManifestIsUnique(text, idxs, lines);
    StreamIsListed(job, idxs, lines);
  }

  lemma {:induction false} StreamIsListed(job: Job, idxs: seq<int64>, lines: map<int64, string>)
    requires LinesOfStream(job, idxs, lines)
    ensures forall p: nat | p < |job.items| :: job.items[p].Produced?
    ensures LinesText(idxs, lines) == StreamText(job, |job.items|)
  {
    assert forall p: nat | p < |job.items| :: idxs[p] == p;
    StreamLines(job, idxs, lines, |idxs|);
    assert idxs[..|idxs|] == idxs;
  }
}
