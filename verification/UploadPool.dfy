/**
 The segment upload pool: one producer reading the segment stream, a number of workers, and one
 consumer draining the results, joined by unbuffered channels and a cancellable context. Every
 atomic action of a goroutine is one step; a run is any sequence of enabled steps.
 */
module UploadPool {
  import opened GoInts
  import opened Wrappers
  import opened SegmentNames
  import opened ManifestBuilder

  /** What the segment iterator yields. */
  datatype Item = Produced(seg: VideoSegment) | Broken(err: Error)

  /** The input of a pool: the media being uploaded and the whole segment stream. */
  datatype Job = Job(mediaID: string, items: seq<Item>)

  /** Positions in the stream name the segments. */
  datatype Producer =
    | Pulling                      // about to ask the iterator for the next item
    | Offering(pos: nat)           // in the select: hand the segment over or notice cancellation
    | Reporting(err: Error)        // sending the iterator's error to results
    | Cancelling                   // about to cancel after that
    | Closing                      // out of the loop, about to close jobs
    | Waiting                      // jobs closed, waiting for the workers
    | Releasing                    // context released, about to close results
    | Ended                        // results closed

  datatype Worker =
    | Idle                                        // ranging over jobs
    | Storing(pos: nat)                           // UploadSegment: writing the object
    | Recording(pos: nat)                         // object written, index parsed, about to add the line
    | Indexing(pos: nat)                          // line added, index rows being inserted
    | Sending(pos: nat, err: Option<Error>)       // sending the result
    | Failing                                     // error sent, about to cancel and return
    | Stopped

  datatype Message = FromWorker(pos: nat, err: Option<Error>) | FromProducer(cause: Error)

  datatype Consumer =
    | Receiving
    | Handling(msg: Message)
    | Returned(err: Option<Error>)

  /** The local variables of the draining loop. */
  datatype Tally = Tally(
    uploadedObjects: seq<string>,
    completed: nat,
    uploadErr: Option<Error>,
    streamErr: Option<Error>)

  datatype Pool = Pool(
    producer: Producer,
    workers: seq<Worker>,
    consumer: Consumer,
    pulled: nat,                     // items taken from the iterator
    cancelled: bool,                 // the context of the pool is done
    lines: map<int64, string>,       // the builder's segment lines
    tally: Tally,
    // what happened so far, in order
    entered: seq<nat>,               // segments whose upload was entered
    recorded: seq<nat>,              // segments whose line was added
    indexed: seq<nat>,               // segments whose index rows were all inserted
    handled: seq<nat>,               // segments whose result the consumer handled
    faulty: bool,                    // some operation failed
    outside: bool)                   // the caller's context was cancelled

  datatype Action =
    | Pull
    | HandOver(w: nat)
    | GiveUp
    | ReportBroken
    | CancelAfterBroken
    | CloseJobs
    | ReleaseContext
    | CloseResults
    | Store(w: nat, err: Option<Error>)
    | Record(w: nat)
    | Index(w: nat, err: Option<Error>)
    | Deliver(w: nat)
    | CancelAfterFailure(w: nat)
    | Exit(w: nat)
    | Handle(progress: Option<Error>)
    | Return
    | OutsideCancel

  function Segment(job: Job, pos: nat): VideoSegment
    requires pos < |job.items| && job.items[pos].Produced?
  {
    job.items[pos].seg
  }

  function Key(job: Job, pos: nat): string {
    if pos < |job.items| && job.items[pos].Produced? then ObjectKey(job.mediaID, job.items[pos].seg.path) else ""
  }

  /** `UploadWorker.Upload`: at least one worker, nothing pulled yet. */
  function Start(workerCount: int): Pool {
    var n := if workerCount <= 0 then 1 else workerCount;
    Pool(Pulling, seq(n, _ => Idle), Receiving, 0, false, map[], Tally([], 0, None, None),
         [], [], [], [], false, false)
  }

  function JobsClosed(s: Pool): bool {
    s.producer.Waiting? || s.producer.Releasing? || s.producer.Ended?
  }

  /** One turn of the draining loop on `result`; `progress` is what sendProgress answers. */
  function Drain(t: Tally, result: UploadResult, progress: Option<Error>): Tally {
    var t1 := if result.objectKey != "" then t.(uploadedObjects := t.uploadedObjects + [result.objectKey]) else t;
    if result.err.Some? then
      if t1.uploadErr.None? then t1.(uploadErr := result.err) else t1
    else if t1.uploadErr.Some? || t1.streamErr.Some? then t1
    else t1.(completed := t1.completed + 1, streamErr := progress)
  }

  function AsResult(job: Job, msg: Message): UploadResult {
    match msg
    case FromWorker(pos, err) => UploadResult(Key(job, pos), err)
    case FromProducer(cause) => UploadResult("", Some(cause))
  }

  /** The error `uploadSegments` returns once results is closed. */
  function Outcome(t: Tally): Option<Error> {
    if t.streamErr.Some? then t.streamErr else t.uploadErr
  }

  /** The draining loop over a whole list of results. */
  function DrainAll(results: seq<UploadResult>, progress: seq<Option<Error>>): Tally
    requires |progress| == |results|
  {
    if results == [] then Tally([], 0, None, None)
    else
      var n := |results| - 1;
      Drain(DrainAll(results[..n], progress[..n]), results[n], progress[n])
  }

  /** `uploadSegments`, given everything received before results is closed. */
  method UploadSegments(results: seq<UploadResult>, progress: seq<Option<Error>>)
    returns (uploadedObjects: seq<string>, err: Option<Error>)
    requires |progress| == |results|
    ensures uploadedObjects == DrainAll(results, progress).uploadedObjects
    ensures err == Outcome(DrainAll(results, progress))
  {
    uploadedObjects := [];
    var completedSegments := 0;
    var uploadErr: Option<Error> := None;
    var streamErr: Option<Error> := None;
    for i := 0 to |results|
      invariant DrainAll(results[..i], progress[..i]) == Tally(uploadedObjects, completedSegments, uploadErr, streamErr)
    {
      assert results[..i + 1][..i] == results[..i] && progress[..i + 1][..i] == progress[..i];
      var result := results[i];
      if result.objectKey != "" {
        uploadedObjects := uploadedObjects + [result.objectKey];
      }
      if result.err.Some? {
        if uploadErr.None? {
          uploadErr := result.err;
        }
      } else if uploadErr.None? && streamErr.None? {
        completedSegments := completedSegments + 1;
        if progress[i].Some? {
          streamErr := progress[i];
        }
      }
    }
    assert results[..|results|] == results && progress[..|results|] == progress;
    if streamErr.Some? {
      return uploadedObjects, streamErr;
    }
    return uploadedObjects, uploadErr;
  }

  ghost predicate AllWell(results: seq<UploadResult>, progress: seq<Option<Error>>)
    requires |progress| == |results|
  {
    forall i | 0 <= i < |results| :: results[i].err.None? && progress[i].None?
  }

  /** The loop reports an error exactly when some result or some consulted progress call failed. */
  lemma {:induction false} DrainOutcome(results: seq<UploadResult>, progress: seq<Option<Error>>)
    requires |progress| == |results|
    ensures Outcome(DrainAll(results, progress)).None? <==> AllWell(results, progress)
    ensures AllWell(results, progress) ==> DrainAll(results, progress).completed == |results|
  {
    if results != [] {
      var n := |results| - 1;
      DrainOutcome(results[..n], progress[..n]);
      assert AllWell(results, progress) <==>
             AllWell(results[..n], progress[..n]) && results[n].err.None? && progress[n].None? by {
        assert forall i | 0 <= i < n :: results[..n][i] == results[i] && progress[..n][i] == progress[i];
      }
    }
  }

  /** The error of a turn: the result's own, or else what the progress call answers. */
  function TurnError(result: UploadResult, progress: Option<Error>): Option<Error> {
    if result.err.Some? then result.err else progress
  }

  /** Turn `k` is the first one with an error. */
  ghost predicate FirstFailure(results: seq<UploadResult>, progress: seq<Option<Error>>, k: nat) {
    && k < |results| == |progress| && TurnError(results[k], progress[k]).Some?
    && AllWell(results[..k], progress[..k])
  }

  /** The error of the first turn that has one is returned, whatever follows it. */
  lemma {:induction false} FirstErrorIsReturned(results: seq<UploadResult>, progress: seq<Option<Error>>, k: nat)
    requires FirstFailure(results, progress, k)
    ensures Outcome(DrainAll(results, progress)) == TurnError(results[k], progress[k])
    ensures results[k].err.Some? ==> DrainAll(results, progress).uploadErr == results[k].err
    ensures results[k].err.Some? <==> DrainAll(results, progress).streamErr.None?
    ensures DrainAll(results, progress).completed == if results[k].err.Some? then k else k + 1
    decreases |results|
  {
    var n := |results| - 1;
    if k < n {
      assert results[..n][..k] == results[..k] && progress[..n][..k] == progress[..k];
      FirstErrorIsReturned(results[..n], progress[..n], k);
    } else {
      DrainOutcome(results[..n], progress[..n]);
    }
  }

  /** The list returned holds the keys of the results, all of them and nothing else. */
  lemma {:induction false} DrainedKeys(results: seq<UploadResult>, progress: seq<Option<Error>>)
    requires |progress| == |results|
    ensures forall k :: k in DrainAll(results, progress).uploadedObjects
                        <==> k != "" && exists i :: 0 <= i < |results| && results[i].objectKey == k
  {
    if results != [] {
      var n := |results| - 1;
      DrainedKeys(results[..n], progress[..n]);
      forall k
        ensures k in DrainAll(results, progress).uploadedObjects
                <==> k != "" && exists i :: 0 <= i < |results| && results[i].objectKey == k
      {
        assert (exists i :: 0 <= i < |results| && results[i].objectKey == k) <==>
               (exists i :: 0 <= i < n && results[..n][i].objectKey == k) || results[n].objectKey == k;
      }
    }
  }

  predicate Enabled(job: Job, s: Pool, a: Action) {
    match a
    case Pull => s.producer.Pulling?
    case HandOver(w) => s.producer.Offering? && w < |s.workers| && s.workers[w].Idle?
    case GiveUp => s.producer.Offering? && s.cancelled
    case ReportBroken => s.producer.Reporting? && s.consumer.Receiving?
    case CancelAfterBroken => s.producer.Cancelling?
    case CloseJobs => s.producer.Closing?
    case ReleaseContext => s.producer.Waiting? && forall w | 0 <= w < |s.workers| :: s.workers[w].Stopped?
    case CloseResults => s.producer.Releasing?
    case Store(w, _) => w < |s.workers| && s.workers[w].Storing?
    case Record(w) => w < |s.workers| && s.workers[w].Recording?
    case Index(w, _) => w < |s.workers| && s.workers[w].Indexing?
    case Deliver(w) => w < |s.workers| && s.workers[w].Sending? && s.consumer.Receiving?
    case CancelAfterFailure(w) => w < |s.workers| && s.workers[w].Failing?
    case Exit(w) => w < |s.workers| && s.workers[w].Idle? && JobsClosed(s)
    case Handle(_) => s.consumer.Handling?
    case Return => s.consumer.Receiving? && s.producer.Ended?
    case OutsideCancel => !s.outside
  }

  /** The index of a stream position, when its file name has one. */
  function IndexAt(job: Job, pos: nat): Option<int64> {
    if pos < |job.items| && job.items[pos].Produced? then SegmentIndex(job.items[pos].seg) else None
  }

  function AddLine(job: Job, lines: map<int64, string>, pos: nat): map<int64, string> {
    if pos < |job.items| && job.items[pos].Produced? && IndexAt(job, pos).Some?
    then lines[IndexAt(job, pos).value := SegmentLine(job.mediaID, job.items[pos].seg)]
    else lines
  }

  function StepPull(job: Job, s: Pool): Pool {
    if s.pulled >= |job.items| then s.(producer := Closing)
    else match job.items[s.pulled]
      case Produced(_) => s.(producer := Offering(s.pulled), pulled := s.pulled + 1)
      case Broken(err) => s.(producer := Reporting(err), pulled := s.pulled + 1, faulty := true)
  }

  /** What `UploadSegment` fails with before it adds the line, if it does. */
  function StoreError(job: Job, pos: nat, err: Option<Error>): Option<Error> {
    if err.None? && IndexAt(job, pos).None? then Some("could not generate segment index") else err
  }

  function StepStore(job: Job, s: Pool, w: nat, err: Option<Error>): Pool
    requires w < |s.workers| && s.workers[w].Storing?
  {
    var pos := s.workers[w].pos;
    var failure := StoreError(job, pos, err);
    if failure.Some? then s.(workers := s.workers[w := Sending(pos, failure)], faulty := true)
    else s.(workers := s.workers[w := Recording(pos)])
  }

  function StepRecord(job: Job, s: Pool, w: nat): Pool
    requires w < |s.workers| && s.workers[w].Recording?
  {
    var pos := s.workers[w].pos;
    s.(workers := s.workers[w := Indexing(pos)], lines := AddLine(job, s.lines, pos), recorded := s.recorded + [pos])
  }

  function StepIndex(s: Pool, w: nat, err: Option<Error>): Pool
    requires w < |s.workers| && s.workers[w].Indexing?
  {
    var pos := s.workers[w].pos;
    s.(workers := s.workers[w := Sending(pos, err)], faulty := s.faulty || err.Some?,
       indexed := if err.None? then s.indexed + [pos] else s.indexed)
  }

  function StepDeliver(s: Pool, w: nat): Pool
    requires w < |s.workers| && s.workers[w].Sending?
  {
    var pos, err := s.workers[w].pos, s.workers[w].err;
    s.(workers := s.workers[w := if err.Some? then Failing else Idle], consumer := Handling(FromWorker(pos, err)))
  }

  function StepHandle(job: Job, s: Pool, progress: Option<Error>): Pool
    requires s.consumer.Handling?
  {
    var msg := s.consumer.msg;
    var t := Drain(s.tally, AsResult(job, msg), progress);
    // cancelUpload runs when either error variable is first set
    var failed := t.uploadErr != s.tally.uploadErr || t.streamErr != s.tally.streamErr;
    s.(consumer := Receiving, tally := t, cancelled := s.cancelled || failed,
       faulty := s.faulty || t.streamErr != s.tally.streamErr,
       handled := if msg.FromWorker? then s.handled + [msg.pos] else s.handled)
  }

  /** The steps a worker takes once it has a segment, or no more segments come. */
  predicate ByWorker(a: Action) {
    a.Store? || a.Record? || a.Index? || a.Deliver? || a.CancelAfterFailure? || a.Exit?
  }

  predicate ByConsumer(a: Action) {
    a.Handle? || a.Return?
  }

  function StepWorker(job: Job, s: Pool, a: Action): Pool
    requires Enabled(job, s, a) && ByWorker(a)
  {
    match a
    case Store(w, err) => StepStore(job, s, w, err)
    case Record(w) => StepRecord(job, s, w)
    case Index(w, err) => StepIndex(s, w, err)
    case Deliver(w) => StepDeliver(s, w)
    case CancelAfterFailure(w) => s.(workers := s.workers[w := Stopped], cancelled := true)
    case Exit(w) => s.(workers := s.workers[w := Stopped])
  }

  function StepConsumer(job: Job, s: Pool, a: Action): Pool
    requires Enabled(job, s, a) && ByConsumer(a)
  {
    match a
    case Handle(progress) => StepHandle(job, s, progress)
    case Return => s.(consumer := Returned(Outcome(s.tally)))
  }

  /** The steps of the producer, and of the caller's context. */
  function StepProducer(job: Job, s: Pool, a: Action): Pool
    requires Enabled(job, s, a) && !ByWorker(a) && !ByConsumer(a)
  {
    match a
    case Pull => StepPull(job, s)
    case HandOver(w) =>
      var pos := s.producer.pos;
      s.(producer := Pulling, workers := s.workers[w := Storing(pos)], entered := s.entered + [pos])
    case GiveUp => s.(producer := Closing)
    case ReportBroken => s.(producer := Cancelling, consumer := Handling(FromProducer(s.producer.err)))
    case CancelAfterBroken => s.(producer := Closing, cancelled := true)
    case CloseJobs => s.(producer := Waiting)
    case ReleaseContext => s.(producer := Releasing, cancelled := true)
    case CloseResults => s.(producer := Ended)
    case OutsideCancel => s.(cancelled := true, outside := true)
  }

  function Step(job: Job, s: Pool, a: Action): Pool
    requires Enabled(job, s, a)
  {
    if ByWorker(a) then StepWorker(job, s, a)
    else if ByConsumer(a) then StepConsumer(job, s, a)
    else StepProducer(job, s, a)
  }

  /** The state after the given steps, provided each is enabled in its turn. */
  function Run(job: Job, s: Pool, actions: seq<Action>): Option<Pool>
    decreases |actions|
  {
    if actions == [] then Some(s)
    else if !Enabled(job, s, actions[0]) then None
    else Run(job, Step(job, s, actions[0]), actions[1..])
  }
}
