/** What every step of the upload pool keeps. */
module UploadPoolInvariants {
  import opened GoInts
  import opened Wrappers
  import opened ManifestBuilder
  import opened UploadPool

  function HeldBy(w: Worker): Option<nat> {
    match w
    case Storing(pos) => Some(pos)
    case Recording(pos) => Some(pos)
    case Indexing(pos) => Some(pos)
    case Sending(pos, _) => Some(pos)
    case _ => None
  }

  function HeldByConsumer(c: Consumer): Option<nat> {
    if c.Handling? && c.msg.FromWorker? then Some(c.msg.pos) else None
  }

  ghost predicate NoDuplicates(s: seq<nat>) {
    forall i, j | 0 <= i < j < |s| :: s[i] != s[j]
  }

  /** Segments enter in stream order, and nobody leaves early without the context being done. */
  ghost predicate Flow(job: Job, s: Pool) {
    && |s.workers| >= 1
    && |s.entered| <= s.pulled <= |job.items|
    && (forall i | 0 <= i < |s.entered| :: s.entered[i] == i)
    && (forall p | 0 <= p < |s.entered| :: job.items[p].Produced?)
    && (s.producer.Pulling? ==> |s.entered| == s.pulled)
    && (s.producer.Offering? ==> s.producer.pos == |s.entered| && s.pulled == |s.entered| + 1
                                 && job.items[s.producer.pos].Produced?)
    && (!JobsClosed(s) && !s.cancelled ==> forall w | 0 <= w < |s.workers| :: !s.workers[w].Stopped?)
    && (s.producer.Releasing? || s.producer.Ended? ==> forall w | 0 <= w < |s.workers| :: s.workers[w].Stopped?)
    && (s.consumer.Returned? ==> s.producer.Ended? && s.consumer.err == Outcome(s.tally))
  }

  ghost predicate Placed(s: Pool, p: nat) {
    p in s.handled || HeldByConsumer(s.consumer) == Some(p)
    || exists w :: 0 <= w < |s.workers| && HeldBy(s.workers[w]) == Some(p)
  }

  /** Every entered segment is with exactly one worker, with the consumer, or handled. */
  ghost predicate Custody(job: Job, s: Pool) {
    && NoDuplicates(s.handled)
    && (forall p | p in s.handled :: p < |s.entered|)
    && (forall w | 0 <= w < |s.workers| && HeldBy(s.workers[w]).Some? ::
          HeldBy(s.workers[w]).value < |s.entered| && HeldBy(s.workers[w]).value !in s.handled)
    && (forall v, w | 0 <= v < w < |s.workers| && HeldBy(s.workers[v]).Some? ::
          HeldBy(s.workers[v]) != HeldBy(s.workers[w]))
    && (HeldByConsumer(s.consumer).Some? ==>
          HeldByConsumer(s.consumer).value < |s.entered| && HeldByConsumer(s.consumer).value !in s.handled)
    && (forall w | 0 <= w < |s.workers| && HeldBy(s.workers[w]).Some? ::
          HeldBy(s.workers[w]) != HeldByConsumer(s.consumer))
    && (forall p | 0 <= p < |s.entered| :: Placed(s, p))
  }

  /** The consumer's list holds the keys of the handled segments, in that order. */
  ghost predicate Keys(job: Job, s: Pool) {
    && |s.tally.uploadedObjects| == |s.handled|
    && forall i | 0 <= i < |s.handled| :: s.tally.uploadedObjects[i] == Key(job, s.handled[i])
  }

  ghost predicate WorkRecord(s: Pool, w: Worker) {
    match w
    case Storing(p) => p !in s.recorded && p !in s.indexed
    case Recording(p) => p !in s.recorded && p !in s.indexed
    case Indexing(p) => p in s.recorded && p !in s.indexed
    case Sending(p, err) => err.None? ==> p in s.recorded && p in s.indexed
    case _ => true
  }

  function LinesOf(job: Job, recorded: seq<nat>): map<int64, string> {
    if recorded == [] then map[]
    else AddLine(job, LinesOf(job, recorded[..|recorded| - 1]), recorded[|recorded| - 1])
  }

  /** How far each segment has come, and what the builder holds. */
  ghost predicate Work(job: Job, s: Pool) {
    && NoDuplicates(s.recorded) && NoDuplicates(s.indexed)
    && (forall p | p in s.recorded :: p < |s.entered| && IndexAt(job, p).Some?)
    && (forall p | p in s.indexed :: p < |s.entered|)
    && (forall w | 0 <= w < |s.workers| && s.workers[w].Recording? :: IndexAt(job, s.workers[w].pos).Some?)
    && (forall w | 0 <= w < |s.workers| :: WorkRecord(s, s.workers[w]))
    && (s.consumer.Handling? && s.consumer.msg.FromWorker? && s.consumer.msg.err.None? ==>
          s.consumer.msg.pos in s.recorded && s.consumer.msg.pos in s.indexed)
    && (s.tally.uploadErr.None? ==> forall p | p in s.handled :: p in s.recorded && p in s.indexed)
    && s.lines == LinesOf(job, s.recorded)
  }

  predicate ErrorInHand(s: Pool) {
    s.consumer.Handling? && (s.consumer.msg.FromProducer? || s.consumer.msg.err.Some?)
  }

  /** The failure is known to the consumer. */
  predicate Trouble(s: Pool) {
    s.tally.uploadErr.Some? || s.tally.streamErr.Some? || ErrorInHand(s)
  }

  ghost predicate ErrorUnderway(s: Pool) {
    s.producer.Reporting?
    || exists w :: 0 <= w < |s.workers| && s.workers[w].Sending? && s.workers[w].err.Some?
  }

  /** The context is done, or segments are left behind, only after a failure or an outside cancellation. */
  ghost predicate Blame(job: Job, s: Pool) {
    && (s.cancelled ==> s.outside || Trouble(s) || s.producer.Releasing? || s.producer.Ended?)
    && (forall w | 0 <= w < |s.workers| && s.workers[w].Failing? :: Trouble(s))
    && (s.producer.Cancelling? ==> Trouble(s))
    && (s.producer.Closing? || JobsClosed(s) ==> |s.entered| == |job.items| || s.outside || Trouble(s))
    && (s.tally.uploadErr.None? && s.tally.streamErr.None? ==> s.tally.completed == |s.handled|)
  }

  /** Something failed exactly when the consumer knows or an error is on its way. */
  ghost predicate Faults(s: Pool) {
    s.faulty <==> Trouble(s) || ErrorUnderway(s)
  }

  ghost predicate Inv(job: Job, s: Pool) {
    Flow(job, s) && Custody(job, s) && Keys(job, s) && Work(job, s) && Blame(job, s) && Faults(s)
  }

  lemma {:induction false} StartInv(job: Job, workerCount: int)
    ensures Inv(job, Start(workerCount))
  {
  }

  /** Worker `w` is about to report an error. */
  predicate ErrorAt(s: Pool, w: nat)
    requires w < |s.workers|
  {
    s.workers[w].Sending? && s.workers[w].err.Some?
  }

  /** What a worker turns into. */
  predicate NextStage(v: Worker, w: Worker) {
    match v
    case Idle => w.Stopped?
    case Storing(pos) => w == Recording(pos) || (w.Sending? && w.pos == pos && w.err.Some?)
    case Recording(pos) => w == Indexing(pos)
    case Indexing(pos) => w.Sending? && w.pos == pos
    case Sending(_, err) => w == if err.Some? then Failing else Idle
    case Failing => w.Stopped?
    case Stopped => false
  }

  /** Worker `w` moves on: what changes with it and what does not. */
  predicate Moves(s: Pool, t: Pool, w: nat) {
    && w < |s.workers| == |t.workers| && t.workers == s.workers[w := t.workers[w]]
    && NextStage(s.workers[w], t.workers[w])
    && t.producer == s.producer && t.pulled == s.pulled && t.entered == s.entered
    && t.handled == s.handled && t.tally == s.tally && t.outside == s.outside
    && t.cancelled == (s.cancelled || s.workers[w].Failing?)
    && t.faulty == (s.faulty || ErrorAt(t, w))
    && (t.workers[w].Stopped? ==> t.cancelled || JobsClosed(s))
    && t.consumer == if s.workers[w].Sending? then Handling(FromWorker(s.workers[w].pos, s.workers[w].err))
                     else s.consumer
  }

  lemma {:induction false} StoreMoves(job: Job, s: Pool, w: nat, err: Option<Error>)
    requires w < |s.workers| && s.workers[w].Storing?
    ensures Moves(s, StepStore(job, s, w, err), w)
  {
  }

  lemma {:induction false} RecordMoves(job: Job, s: Pool, w: nat)
    requires w < |s.workers| && s.workers[w].Recording?
    ensures Moves(s, StepRecord(job, s, w), w)
  {
  }

  lemma {:induction false} IndexMoves(s: Pool, w: nat, err: Option<Error>)
    requires w < |s.workers| && s.workers[w].Indexing?
    ensures Moves(s, StepIndex(s, w, err), w)
  {
  }

  lemma {:induction false} DeliverMoves(s: Pool, w: nat)
    requires w < |s.workers| && s.workers[w].Sending?
    ensures Moves(s, StepDeliver(s, w), w)
  {
  }

  lemma {:induction false} WorkerMoves(job: Job, s: Pool, a: Action)
    requires Enabled(job, s, a) && ByWorker(a)
    ensures Moves(s, StepWorker(job, s, a), a.w)
    ensures a.Deliver? <==> s.workers[a.w].Sending?
  {
    match a
    case Store(w, err) => StoreMoves(job, s, w, err);
    case Record(w) => RecordMoves(job, s, w);
    case Index(w, err) => IndexMoves(s, w, err);
    case Deliver(w) => DeliverMoves(s, w);
    case CancelAfterFailure(w) =>
    case Exit(w) =>
  }

  lemma {:induction false} FlowMoves(job: Job, s: Pool, t: Pool, w: nat)
    requires Flow(job, s) && Moves(s, t, w)
    ensures Flow(job, t)
  {
  }

  lemma {:induction false} FlowWorker(job: Job, s: Pool, a: Action)
    requires Flow(job, s) && Enabled(job, s, a) && ByWorker(a)
    ensures Flow(job, StepWorker(job, s, a))
  {
    WorkerMoves(job, s, a);
    FlowMoves(job, s, StepWorker(job, s, a), a.w);
  }

  lemma {:induction false} FlowConsumer(job: Job, s: Pool, a: Action)
    requires Flow(job, s) && Enabled(job, s, a) && ByConsumer(a)
    ensures Flow(job, StepConsumer(job, s, a))
  {
  }

  lemma {:induction false} FlowProducer(job: Job, s: Pool, a: Action)
    requires Flow(job, s) && Enabled(job, s, a) && !ByWorker(a) && !ByConsumer(a)
    ensures Flow(job, StepProducer(job, s, a))
  {
  }

  lemma {:induction false} FlowStep(job: Job, s: Pool, a: Action)
    requires Flow(job, s) && Enabled(job, s, a)
    ensures Flow(job, Step(job, s, a))
  {
    if ByWorker(a) {
      FlowWorker(job, s, a);
    } else if ByConsumer(a) {
      FlowConsumer(job, s, a);
    } else {
      FlowProducer(job, s, a);
    }
  }

  /** Steps that move no segment from one holder to another. */
  lemma {:induction false} CustodyKept(job: Job, s: Pool, t: Pool)
    requires Custody(job, s) && SameHolders(s, t)
    ensures Custody(job, t)
  {
    forall p | 0 <= p < |t.entered| ensures Placed(t, p) {
      assert Placed(s, p);
    }
  }

  lemma {:induction false} CustodyHandOver(job: Job, s: Pool, w: nat)
    requires Flow(job, s) && Custody(job, s) && Enabled(job, s, HandOver(w))
    ensures Custody(job, Step(job, s, HandOver(w)))
  {
    var t := Step(job, s, HandOver(w));
    assert HeldBy(t.workers[w]) == Some(|s.entered|);
    forall p | 0 <= p < |t.entered| ensures Placed(t, p) {
      if p < |s.entered| {
        assert Placed(s, p);
        if v :| 0 <= v < |s.workers| && HeldBy(s.workers[v]) == Some(p) {
          assert t.workers[v] == s.workers[v];
        }
      }
    }
  }

  lemma {:induction false} CustodyDeliver(job: Job, s: Pool, w: nat)
    requires Custody(job, s) && Enabled(job, s, Deliver(w))
    ensures Custody(job, Step(job, s, Deliver(w)))
  {
    var t := Step(job, s, Deliver(w));
    assert HeldBy(s.workers[w]) == HeldByConsumer(t.consumer);
    forall p | 0 <= p < |t.entered| ensures Placed(t, p) {
      assert Placed(s, p);
      if v :| 0 <= v < |s.workers| && HeldBy(s.workers[v]) == Some(p) {
        assert v == w || t.workers[v] == s.workers[v];
      }
    }
  }

  lemma {:induction false} CustodyHandle(job: Job, s: Pool, progress: Option<Error>)
    requires Custody(job, s) && Enabled(job, s, Handle(progress))
    ensures Custody(job, Step(job, s, Handle(progress)))
  {
    var t := Step(job, s, Handle(progress));
    assert forall p | p in t.handled :: p in s.handled || HeldByConsumer(s.consumer) == Some(p);
    forall p | 0 <= p < |t.entered| ensures Placed(t, p) {
      assert Placed(s, p);
      assert p in s.handled ==> p in t.handled;
    }
  }

  /** No segment changes hands between the two states. */
  predicate SameHolders(s: Pool, t: Pool) {
    && t.entered == s.entered && t.handled == s.handled && |t.workers| == |s.workers|
    && HeldByConsumer(t.consumer) == HeldByConsumer(s.consumer)
    && forall w | 0 <= w < |s.workers| :: HeldBy(t.workers[w]) == HeldBy(s.workers[w])
  }

  lemma {:induction false} MoverHolds(s: Pool, t: Pool, w: nat)
    requires Moves(s, t, w) && !s.workers[w].Sending?
    ensures SameHolders(s, t)
  {
  }

  lemma {:induction false} ReturnHolds(job: Job, s: Pool)
    requires Enabled(job, s, Return)
    ensures SameHolders(s, StepConsumer(job, s, Return))
  {
  }

  lemma {:induction false} ProducerHolds(job: Job, s: Pool, a: Action)
    requires Enabled(job, s, a) && !ByWorker(a) && !ByConsumer(a) && !a.HandOver?
    ensures SameHolders(s, StepProducer(job, s, a))
  {
  }

  lemma {:induction false} StepHolds(job: Job, s: Pool, a: Action)
    requires Enabled(job, s, a) && !a.HandOver? && !a.Deliver? && !a.Handle?
    ensures SameHolders(s, Step(job, s, a))
  {
    if ByWorker(a) {
      WorkerMoves(job, s, a);
      MoverHolds(s, StepWorker(job, s, a), a.w);
    } else if a.Return? {
      ReturnHolds(job, s);
    } else {
      ProducerHolds(job, s, a);
    }
  }

  lemma {:induction false} CustodyStep(job: Job, s: Pool, a: Action)
    requires Flow(job, s) && Custody(job, s) && Enabled(job, s, a)
    ensures Custody(job, Step(job, s, a))
  {
    if a.HandOver? {
      CustodyHandOver(job, s, a.w);
    } else if a.Deliver? {
      CustodyDeliver(job, s, a.w);
    } else if a.Handle? {
      CustodyHandle(job, s, a.progress);
    } else {
      StepHolds(job, s, a);
      CustodyKept(job, s, Step(job, s, a));
    }
  }

  lemma {:induction false} KeysHandle(job: Job, s: Pool, progress: Option<Error>)
    requires Keys(job, s) && Enabled(job, s, Handle(progress))
    requires HeldByConsumer(s.consumer).Some? ==> Key(job, HeldByConsumer(s.consumer).value) != ""
    ensures Keys(job, Step(job, s, Handle(progress)))
  {
  }

  lemma {:induction false} KeysStep(job: Job, s: Pool, a: Action)
    requires Flow(job, s) && Custody(job, s) && Keys(job, s) && Enabled(job, s, a)
    ensures Keys(job, Step(job, s, a))
  {
    if a.Handle? {
      KeysHandle(job, s, a.progress);
    } else {
      KeysKept(job, s, a);
    }
  }

  lemma {:induction false} HandledStays(job: Job, s: Pool, a: Action)
    requires Enabled(job, s, a) && !a.Handle?
    ensures Step(job, s, a).handled == s.handled && Step(job, s, a).tally == s.tally
  {
    if ByWorker(a) {
      WorkerMoves(job, s, a);
    } else if !a.Return? {
      HandedStays(job, s, a);
    }
  }

  lemma {:induction false} HandedStays(job: Job, s: Pool, a: Action)
    requires Enabled(job, s, a) && !ByWorker(a) && !ByConsumer(a)
    ensures StepProducer(job, s, a).handled == s.handled && StepProducer(job, s, a).tally == s.tally
  {
  }

  lemma {:induction false} KeysKept(job: Job, s: Pool, a: Action)
    requires Keys(job, s) && Enabled(job, s, a) && !a.Handle?
    ensures Keys(job, Step(job, s, a))
  {
    HandledStays(job, s, a);
  }

  /** One worker changes, the records stay. */
  lemma {:induction false} WorkMoves(job: Job, s: Pool, t: Pool, w: nat)
    requires Work(job, s) && w < |s.workers|
    requires |s.entered| <= |t.entered|
    requires t.recorded == s.recorded && t.indexed == s.indexed && t.lines == s.lines
    requires |t.workers| == |s.workers| && t.workers == s.workers[w := t.workers[w]]
    requires t.handled == s.handled && t.tally == s.tally
    requires t.consumer == s.consumer ||
             (t.consumer.Handling? && t.consumer.msg.FromWorker? && s.workers[w].Sending?
              && t.consumer.msg == FromWorker(s.workers[w].pos, s.workers[w].err))
    requires WorkRecord(s, t.workers[w])
    requires t.workers[w].Recording? ==> IndexAt(job, t.workers[w].pos).Some?
    ensures Work(job, t)
  {
  }

  lemma {:induction false} LinesOfAppend(job: Job, recorded: seq<nat>, pos: nat)
    ensures LinesOf(job, recorded + [pos]) == AddLine(job, LinesOf(job, recorded), pos)
  {
  }

  /** Worker `w` finishes a part of its work: its segment joins one or both logs. */
  lemma {:induction false} WorkAdvances(job: Job, s: Pool, t: Pool, w: nat)
    requires Custody(job, s) && Work(job, s) && w < |s.workers| && HeldBy(s.workers[w]).Some?
    requires t.entered == s.entered && t.handled == s.handled && t.tally == s.tally && t.consumer == s.consumer
    requires |t.workers| == |s.workers| && t.workers == s.workers[w := t.workers[w]]
    requires t.lines == LinesOf(job, t.recorded)
    requires NoDuplicates(t.recorded) && NoDuplicates(t.indexed)
    requires forall p :: p in s.recorded ==> p in t.recorded
    requires forall p :: p in s.indexed ==> p in t.indexed
    requires forall p | p in t.recorded :: p in s.recorded || Some(p) == HeldBy(s.workers[w])
    requires forall p | p in t.indexed :: p in s.indexed || Some(p) == HeldBy(s.workers[w])
    requires IndexAt(job, HeldBy(s.workers[w]).value).Some? || t.recorded == s.recorded
    requires WorkRecord(t, t.workers[w]) && !t.workers[w].Recording?
    ensures Work(job, t)
  {
    forall v | 0 <= v < |t.workers|
      ensures WorkRecord(t, t.workers[v])
      ensures t.workers[v].Recording? ==> IndexAt(job, t.workers[v].pos).Some?
    {
      if v != w {
        assert t.workers[v] == s.workers[v] && WorkRecord(s, s.workers[v]);
        assert HeldBy(s.workers[v]) != HeldBy(s.workers[w]) by {
          if v < w { assert HeldBy(s.workers[v]).Some? ==> HeldBy(s.workers[v]) != HeldBy(s.workers[w]); }
        }
      }
    }
  }

  lemma {:induction false} WorkRecordStep(job: Job, s: Pool, w: nat)
    requires Custody(job, s) && Work(job, s) && w < |s.workers| && s.workers[w].Recording?
    ensures Work(job, StepRecord(job, s, w))
  {
    var t, pos := StepRecord(job, s, w), s.workers[w].pos;
    assert WorkRecord(s, s.workers[w]);
    assert HeldBy(s.workers[w]) == Some(pos);
    LinesOfAppend(job, s.recorded, pos);
    WorkAdvances(job, s, t, w);
  }

  lemma {:induction false} WorkIndexStep(job: Job, s: Pool, w: nat, err: Option<Error>)
    requires Custody(job, s) && Work(job, s) && w < |s.workers| && s.workers[w].Indexing?
    ensures Work(job, StepIndex(s, w, err))
  {
    var t, pos := StepIndex(s, w, err), s.workers[w].pos;
    assert WorkRecord(s, s.workers[w]);
    assert HeldBy(s.workers[w]) == Some(pos);
    WorkAdvances(job, s, t, w);
  }

  lemma {:induction false} WorkHandleStep(job: Job, s: Pool, progress: Option<Error>)
    requires Work(job, s) && s.consumer.Handling?
    ensures Work(job, StepHandle(job, s, progress))
  {
  }

  lemma {:induction false} WorkHandOver(job: Job, s: Pool, w: nat)
    requires Work(job, s) && Enabled(job, s, HandOver(w)) && s.producer.pos == |s.entered|
    ensures Work(job, StepProducer(job, s, HandOver(w)))
  {
  }

  lemma {:induction false} WorkStore(job: Job, s: Pool, w: nat, err: Option<Error>)
    requires Work(job, s) && w < |s.workers| && s.workers[w].Storing?
    ensures Work(job, StepStore(job, s, w, err))
  {
    var t := StepStore(job, s, w, err);
    assert WorkRecord(s, s.workers[w]);
    StoreMoves(job, s, w, err);
    StoreRecords(job, s, w, err);
    WorkMoves(job, s, t, w);
  }

  lemma {:induction false} StoreRecords(job: Job, s: Pool, w: nat, err: Option<Error>)
    requires w < |s.workers| && s.workers[w].Storing?
    ensures var t := StepStore(job, s, w, err);
      && t.recorded == s.recorded && t.indexed == s.indexed && t.lines == s.lines && w < |t.workers|
      && (t.workers[w].Recording? ==> IndexAt(job, t.workers[w].pos).Some?)
  {
  }

  /** A worker lets go of its segment or stops. */
  lemma {:induction false} WorkLetGo(job: Job, s: Pool, a: Action)
    requires Work(job, s) && Enabled(job, s, a) && (a.Deliver? || a.CancelAfterFailure? || a.Exit?)
    ensures Work(job, StepWorker(job, s, a))
  {
    WorkerMoves(job, s, a);
    WorkMoves(job, s, StepWorker(job, s, a), a.w);
  }

  lemma {:induction false} WorkWorker(job: Job, s: Pool, a: Action)
    requires Custody(job, s) && Work(job, s) && Enabled(job, s, a) && ByWorker(a)
    ensures Work(job, StepWorker(job, s, a))
  {
    if a.Record? {
      WorkRecordStep(job, s, a.w);
    } else if a.Index? {
      WorkIndexStep(job, s, a.w, a.err);
    } else if a.Store? {
      WorkStore(job, s, a.w, a.err);
    } else {
      WorkLetGo(job, s, a);
    }
  }

  lemma {:induction false} WorkConsumer(job: Job, s: Pool, a: Action)
    requires Work(job, s) && Enabled(job, s, a) && ByConsumer(a)
    ensures Work(job, StepConsumer(job, s, a))
  {
    if a.Handle? {
      WorkHandleStep(job, s, a.progress);
    } else {
      WorkKept(job, s, StepConsumer(job, s, a));
    }
  }

  lemma {:induction false} WorkProducer(job: Job, s: Pool, a: Action)
    requires Flow(job, s) && Work(job, s) && Enabled(job, s, a) && !ByWorker(a) && !ByConsumer(a)
    ensures Work(job, StepProducer(job, s, a))
  {
    if a.HandOver? {
      WorkHandOver(job, s, a.w);
    } else {
      ProducerKeeps(job, s, a);
      WorkKept(job, s, StepProducer(job, s, a));
    }
  }

  lemma {:induction false} WorkStep(job: Job, s: Pool, a: Action)
    requires Flow(job, s) && Custody(job, s) && Work(job, s) && Enabled(job, s, a)
    ensures Work(job, Step(job, s, a))
  {
    if ByWorker(a) {
      WorkWorker(job, s, a);
    } else if ByConsumer(a) {
      WorkConsumer(job, s, a);
    } else {
      WorkProducer(job, s, a);
    }
  }

  /** The other steps of the producer, and the consumer's return, touch no segment's record. */
  lemma {:induction false} WorkKept(job: Job, s: Pool, t: Pool)
    requires Work(job, s)
    requires t.entered == s.entered && t.handled == s.handled && t.workers == s.workers && t.tally == s.tally
    requires t.recorded == s.recorded && t.indexed == s.indexed && t.lines == s.lines
    requires t.consumer == s.consumer || !t.consumer.Handling? || t.consumer.msg.FromProducer?
    ensures Work(job, t)
  {
  }

  lemma {:induction false} ProducerKeeps(job: Job, s: Pool, a: Action)
    requires Enabled(job, s, a) && !ByWorker(a) && !ByConsumer(a) && !a.HandOver?
    ensures var t := StepProducer(job, s, a);
      && t.entered == s.entered && t.handled == s.handled && t.workers == s.workers && t.tally == s.tally
      && t.recorded == s.recorded && t.indexed == s.indexed && t.lines == s.lines
      && (t.consumer == s.consumer || !t.consumer.Handling? || t.consumer.msg.FromProducer?)
  {
  }

  lemma {:induction false} BlameMoves(job: Job, s: Pool, t: Pool, w: nat)
    requires Blame(job, s) && Moves(s, t, w) && (s.workers[w].Sending? ==> s.consumer.Receiving?)
    ensures Blame(job, t)
  {
    assert Trouble(s) ==> Trouble(t);
  }

  lemma {:induction false} BlameWorker(job: Job, s: Pool, a: Action)
    requires Blame(job, s) && Enabled(job, s, a) && ByWorker(a)
    ensures Blame(job, StepWorker(job, s, a))
  {
    WorkerMoves(job, s, a);
    BlameMoves(job, s, StepWorker(job, s, a), a.w);
  }

  lemma {:induction false} BlameConsumer(job: Job, s: Pool, a: Action)
    requires Flow(job, s) && Blame(job, s) && Enabled(job, s, a) && ByConsumer(a)
    ensures Blame(job, StepConsumer(job, s, a))
  {
  }

  lemma {:induction false} BlameProducer(job: Job, s: Pool, a: Action)
    requires Flow(job, s) && Blame(job, s) && Enabled(job, s, a) && !ByWorker(a) && !ByConsumer(a)
    ensures Blame(job, StepProducer(job, s, a))
  {
  }

  lemma {:induction false} BlameStep(job: Job, s: Pool, a: Action)
    requires Flow(job, s) && Blame(job, s) && Enabled(job, s, a)
    ensures Blame(job, Step(job, s, a))
  {
    if ByWorker(a) {
      BlameWorker(job, s, a);
    } else if ByConsumer(a) {
      BlameConsumer(job, s, a);
    } else {
      BlameProducer(job, s, a);
    }
  }

  lemma {:induction false} FaultsMoves(s: Pool, t: Pool, w: nat)
    requires Faults(s) && Moves(s, t, w) && (s.workers[w].Sending? ==> s.consumer.Receiving?)
    ensures Faults(t)
  {
    ErrorMoves(s, t, w);
  }

  lemma {:induction false} FaultsWorker(job: Job, s: Pool, a: Action)
    requires Faults(s) && Enabled(job, s, a) && ByWorker(a)
    ensures Faults(StepWorker(job, s, a))
  {
    WorkerMoves(job, s, a);
    FaultsMoves(s, StepWorker(job, s, a), a.w);
  }

  /** When one worker moves, the errors on their way change at most there. */
  lemma {:induction false} ErrorMoves(s: Pool, t: Pool, w: nat)
    requires w < |s.workers| == |t.workers| && t.producer == s.producer
    requires forall v | 0 <= v < |s.workers| && v != w :: t.workers[v] == s.workers[v]
    ensures ErrorUnderway(s) || ErrorAt(t, w) <==> ErrorUnderway(t) || ErrorAt(s, w)
  {
  }

  lemma {:induction false} FaultsConsumer(job: Job, s: Pool, a: Action)
    requires Faults(s) && Enabled(job, s, a) && ByConsumer(a)
    ensures Faults(StepConsumer(job, s, a))
  {
  }

  lemma {:induction false} FaultsProducer(job: Job, s: Pool, a: Action)
    requires Faults(s) && Enabled(job, s, a) && !ByWorker(a) && !ByConsumer(a)
    ensures Faults(StepProducer(job, s, a))
  {
    var t := StepProducer(job, s, a);
    if v :| 0 <= v < |s.workers| && s.workers[v].Sending? && s.workers[v].err.Some? {
      assert t.workers[v] == s.workers[v];
    }
  }

  lemma {:induction false} FaultsStep(job: Job, s: Pool, a: Action)
    requires Faults(s) && Enabled(job, s, a)
    ensures Faults(Step(job, s, a))
  {
    if ByWorker(a) {
      FaultsWorker(job, s, a);
    } else if ByConsumer(a) {
      FaultsConsumer(job, s, a);
    } else {
      FaultsProducer(job, s, a);
    }
  }

  lemma {:induction false} InvStep(job: Job, s: Pool, a: Action)
    requires Inv(job, s) && Enabled(job, s, a)
    ensures Inv(job, Step(job, s, a))
  {
    FlowStep(job, s, a);
    CustodyStep(job, s, a);
    KeysStep(job, s, a);
    WorkStep(job, s, a);
    BlameStep(job, s, a);
    FaultsStep(job, s, a);
  }

  lemma {:induction false} InvRun(job: Job, s: Pool, actions: seq<Action>)
    requires Inv(job, s) && Run(job, s, actions).Some?
    ensures Inv(job, Run(job, s, actions).value)
    decreases |actions|
  {
    if actions != [] {
      InvStep(job, s, actions[0]);
      InvRun(job, Step(job, s, actions[0]), actions[1..]);
    }
  }
}
