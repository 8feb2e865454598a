/**
 * The coordinator: it starts the scan workers on a shared result queue and
 * then consumes their events, crediting processed files to the metrics,
 * switching the global status as discovery ends or fails, and closing the
 * result stream with a sentinel once every worker has completed.
 */
module Pool {
  import opened ScanTypes
  import opened Metrics
  import opened Worker

  /** How `await_results` ends: it returns, it raises, or it would block on an empty queue. */
  datatype AwaitOutcome = Returned | Raised(error: Error) | Waiting

  /** The coordinator's state: the metrics, the global status and the result queue. */
  datatype Coord = Coord(tally: Tally, status: Status, queue: seq<Option<ScanEvent>>)

  /** After one event the coordinator either goes on or stops with an outcome. */
  datatype Step = Continue(next: Coord) | Stop(outcome: AwaitOutcome, last: Coord)

  /** How the coordinator stopped, and its state then. */
  datatype Await = Await(outcome: AwaitOutcome, last: Coord)

  /** The COMPLETED events still on the queue. */
  function Unfinished(q: seq<Option<ScanEvent>>): nat
  {
    if q == [] then 0
    else (if q[0].Some? && q[0].value.payload.Completed? then 1 else 0) + Unfinished(q[1..])
  }

  lemma {:induction false} UnfinishedAppendSentinel(q: seq<Option<ScanEvent>>)
    ensures Unfinished(q + [None]) == Unfinished(q)
  {
    if q == [] {
      assert (q + [None])[1..] == [];
    } else {
      assert (q + [None])[1..] == q[1..] + [None];
      UnfinishedAppendSentinel(q[1..]);
    }
  }

  /** Each event consumed brings the coordinator closer to an end. */
  function Measure(q: seq<Option<ScanEvent>>): nat
  {
    |q| + Unfinished(q)
  }

  /**
   * The handling of one event `e`, with `c` the state once `e` is taken
   * off the queue and `allDone` the answer `is_complete` gives.
   */
  function Handle(c: Coord, e: ScanEvent, allDone: bool): Step
  {
    match e.payload
    case Completed => Continue(if allDone then c.(queue := c.queue + [None]) else c)
    case FileProcessed(_, length, _) =>
      if Recordable(c.tally, e.workerIndex) then Continue(c.(tally := Record(c.tally, e.workerIndex, length)))
      else Stop(Raised(IndexError(e.workerIndex)), c)
    case FileQueueEmptied => Continue(c.(status := ProcessingFiles))
    case Exception(_) => Continue(c)
    case FatalException(error) => Stop(Raised(error), c.(status := Failed))
  }

  lemma HandleDecreases(c: Coord, q: seq<Option<ScanEvent>>, allDone: bool)
    requires q != [] && q[0].Some?
    ensures var h := Handle(c.(queue := q[1..]), q[0].value, allDone);
      h.Continue? ==> Measure(h.next.queue) < Measure(q)
  {
    UnfinishedAppendSentinel(q[1..]);
  }

  /**
   * The `await_results` loop from state `c`; `allDone` stands for every
   * call of `is_complete`, since no worker's flag changes while the
   * coordinator runs.
   */
  function AwaitOn(c: Coord, allDone: bool): Await
    decreases Measure(c.queue)
  {
    var q := c.queue;
    if q == [] then Await(Waiting, c)
    else if q[0].None? then Await(Returned, c.(queue := q[1..]))
    else
      var h := Handle(c.(queue := q[1..]), q[0].value, allDone);
      HandleDecreases(c, q, allDone);
      match h
      case Continue(next) => AwaitOn(next, allDone)
      case Stop(outcome, last) => Await(outcome, last)
  }

  /** One event of the loop. */
  lemma AwaitOnStep(c: Coord, allDone: bool)
    requires c.queue != [] && c.queue[0].Some?
    ensures var h := Handle(c.(queue := c.queue[1..]), c.queue[0].value, allDone);
      AwaitOn(c, allDone) == if h.Continue? then AwaitOn(h.next, allDone) else Await(h.outcome, h.last)
  {
  }

  predicate HasPayload(q: seq<Option<ScanEvent>>, kind: Payload -> bool)
  {
    exists k :: 0 <= k < |q| && q[k].Some? && kind(q[k].value.payload)
  }

  predicate HasSentinel(q: seq<Option<ScanEvent>>)
  {
    exists k :: 0 <= k < |q| && q[k].None?
  }

  lemma {:induction false} HasPayloadCons(q: seq<Option<ScanEvent>>, kind: Payload -> bool)
    requires q != []
    ensures HasPayload(q, kind) <==> (q[0].Some? && kind(q[0].value.payload)) || HasPayload(q[1..], kind)
  {
    if HasPayload(q, kind) {
      var k :| 0 <= k < |q| && q[k].Some? && kind(q[k].value.payload);
      if k > 0 {
        assert q[1..][k - 1] == q[k];
      }
    }
    if HasPayload(q[1..], kind) {
      var k :| 0 <= k < |q[1..]| && q[1..][k].Some? && kind(q[1..][k].value.payload);
      assert q[k + 1] == q[1..][k];
    }
  }

  lemma {:induction false} HasPayloadSentinel(q: seq<Option<ScanEvent>>, kind: Payload -> bool)
    ensures HasPayload(q + [None], kind) <==> HasPayload(q, kind)
  {
    if HasPayload(q + [None], kind) {
      var k :| 0 <= k < |q + [None]| && (q + [None])[k].Some? && kind((q + [None])[k].value.payload);
      assert q[k] == (q + [None])[k];
    }
    if HasPayload(q, kind) {
      var k :| 0 <= k < |q| && q[k].Some? && kind(q[k].value.payload);
      assert (q + [None])[k] == q[k];
    }
  }

  lemma {:induction false} HasSentinelCons(q: seq<Option<ScanEvent>>)
    requires q != []
    ensures HasSentinel(q) <==> q[0].None? || HasSentinel(q[1..])
  {
    if HasSentinel(q) {
      var k :| 0 <= k < |q| && q[k].None?;
      if k > 0 {
        assert q[1..][k - 1] == q[k];
      }
    }
    if HasSentinel(q[1..]) {
      var k :| 0 <= k < |q[1..]| && q[1..][k].None?;
      assert q[k + 1] == q[1..][k];
    }
  }

  /**
   * The status moves only to PROCESSING_FILES, on a FILE_QUEUE_EMPTIED
   * event, or to FAILED, on a FATAL_EXCEPTION event whose failure is then
   * raised; the coordinator never sets COMPLETE. The counter lists keep
   * their lengths.
   */
  lemma {:induction false} AwaitStatus(c: Coord, allDone: bool)
    ensures var r := AwaitOn(c, allDone).last;
      r.status == c.status || r.status == ProcessingFiles || r.status == Failed
    ensures var r := AwaitOn(c, allDone).last;
      c.status != Complete ==> r.status != Complete
    ensures var r := AwaitOn(c, allDone).last;
      r.status == ProcessingFiles && c.status != ProcessingFiles ==> HasPayload(c.queue, IsEmptied)
    ensures var r := AwaitOn(c, allDone);
      r.last.status == Failed && c.status != Failed ==> r.outcome.Raised? && HasPayload(c.queue, IsFatal)
    ensures var r := AwaitOn(c, allDone).last;
      |r.tally.counts| == |c.tally.counts| && |r.tally.bytes| == |c.tally.bytes|
    decreases Measure(c.queue)
  {
    var q := c.queue;
    if q != [] && q[0].Some? {
      var h := Handle(c.(queue := q[1..]), q[0].value, allDone);
      HandleDecreases(c, q, allDone);
      HasPayloadCons(q, IsEmptied);
      HasPayloadCons(q, IsFatal);
      if h.Continue? {
        AwaitStatus(h.next, allDone);
        HasPayloadSentinel(q[1..], IsEmptied);
        HasPayloadSentinel(q[1..], IsFatal);
      }
    }
  }

  /**
   * The coordinator returns only on a sentinel that was already queued or,
   * when every worker is complete, on the one it put back itself after a
   * COMPLETED event. It stops waiting only on an empty queue.
   */
  lemma {:induction false} AwaitReturns(c: Coord, allDone: bool)
    ensures var r := AwaitOn(c, allDone);
      r.outcome == Returned ==> HasSentinel(c.queue) || (allDone && HasPayload(c.queue, IsCompleted))
    ensures var r := AwaitOn(c, allDone);
      r.outcome == Waiting ==> r.last.queue == []
    decreases Measure(c.queue)
  {
    var q := c.queue;
    if q != [] && q[0].Some? {
      var h := Handle(c.(queue := q[1..]), q[0].value, allDone);
      HandleDecreases(c, q, allDone);
      HasSentinelCons(q);
      HasPayloadCons(q, IsCompleted);
      if h.Continue? {
        AwaitReturns(h.next, allDone);
      }
    }
  }

  /**
   * While some worker has not completed the coordinator puts nothing back:
   * what it leaves on the queue is an unconsumed suffix of it.
   */
  lemma {:induction false} AwaitLeavesSuffix(c: Coord)
    ensures var r := AwaitOn(c, false).last;
      |r.queue| <= |c.queue| && r.queue == c.queue[|c.queue| - |r.queue|..]
    decreases |c.queue|
  {
    var q := c.queue;
    if q != [] {
      var r := AwaitOn(c, false).last;
      if q[0].Some? {
        var h := Handle(c.(queue := q[1..]), q[0].value, false);
        if h.Continue? {
          AwaitLeavesSuffix(h.next);
        }
      }
      assert |r.queue| <= |q[1..]| && r.queue == q[1..][|q[1..]| - |r.queue|..];
      assert q[1..][|q[1..]| - |r.queue|..] == q[|q| - |r.queue|..];
    }
  }

  // The metrics over a queue of well-formed events.

  /** Every item is an event, none is fatal, and every processed file names a known worker. */
  predicate Orderly(t: Tally, q: seq<Option<ScanEvent>>)
  {
    forall k :: 0 <= k < |q| ==>
      && q[k].Some?
      && !q[k].value.payload.FatalException?
      && (q[k].value.payload.FileProcessed? ==> Recordable(t, q[k].value.workerIndex))
  }

  /** The FILE_PROCESSED events of the queue as (worker, length) results, in order. */
  function FileResults(q: seq<Option<ScanEvent>>): seq<FileResult>
  {
    if q == [] then []
    else if q[0].Some? && q[0].value.payload.FileProcessed? then
      [FileResult(q[0].value.workerIndex, q[0].value.payload.length)] + FileResults(q[1..])
    else FileResults(q[1..])
  }

  lemma OrderlyTail(t: Tally, q: seq<Option<ScanEvent>>)
    requires q != [] && Orderly(t, q)
    ensures Orderly(t, q[1..])
  {
    forall k | 0 <= k < |q[1..]|
      ensures q[1..][k] == q[k + 1]
    {
    }
  }

  lemma {:induction false} OrderlyRecordable(t: Tally, q: seq<Option<ScanEvent>>)
    requires Orderly(t, q)
    ensures AllRecordable(t, FileResults(q))
  {
    if q != [] {
      OrderlyTail(t, q);
      OrderlyRecordable(t, q[1..]);
    }
  }

  /** Recording a result keeps every index recordable. */
  lemma OrderlyAfterRecord(t: Tally, i: nat, length: int, q: seq<Option<ScanEvent>>)
    requires Recordable(t, i) && Orderly(t, q)
    ensures Orderly(Record(t, i, length), q)
  {
  }

  /**
   * On a queue of well-formed events followed by nothing or by a sentinel,
   * the coordinator credits every FILE_PROCESSED event, in order, and
   * nothing else.
   */
  lemma {:induction false} AwaitRecordsAll(t: Tally, st: Status, p: seq<Option<ScanEvent>>,
                                        s: seq<Option<ScanEvent>>, allDone: bool)
    requires |t.counts| == |t.bytes| && Orderly(t, p)
    requires s == [] || s[0].None?
    ensures AllRecordable(t, FileResults(p))
    ensures AwaitOn(Coord(t, st, p + s), allDone).last.tally == RecordAll(t, FileResults(p))
    decreases Measure(p + s)
  {
    OrderlyRecordable(t, p);
    var q := p + s;
    if p == [] {
      assert q == s;
    } else {
      assert q[0] == p[0] && q[1..] == p[1..] + s;
      var e := p[0].value;
      var h := Handle(Coord(t, st, q[1..]), e, allDone);
      HandleDecreases(Coord(t, st, q), q, allDone);
      OrderlyTail(t, p);
      var n := h.next;
      if e.payload.Completed? && allDone {
        assert n.queue == p[1..] + (s + [None]);
        AwaitRecordsAll(t, st, p[1..], s + [None], allDone);
      } else {
        assert n.queue == p[1..] + s;
        if e.payload.FileProcessed? {
          OrderlyAfterRecord(t, e.workerIndex, e.payload.length, p[1..]);
        }
        AwaitRecordsAll(n.tally, n.status, p[1..], s, allDone);
      }
    }
  }

  /**
   * On such a queue the coordinator ends in PROCESSING_FILES exactly when
   * it consumed some FILE_QUEUE_EMPTIED event; it returns when a sentinel
   * follows or when every worker is complete and a COMPLETED event came,
   * and otherwise waits on the empty queue.
   */
  lemma {:induction false} AwaitEndsAs(t: Tally, st: Status, p: seq<Option<ScanEvent>>,
                                    s: seq<Option<ScanEvent>>, allDone: bool)
    requires Orderly(t, p)
    requires s == [] || s[0].None?
    ensures AwaitOn(Coord(t, st, p + s), allDone).last.status
            == if HasPayload(p, IsEmptied) then ProcessingFiles else st
    ensures AwaitOn(Coord(t, st, p + s), allDone).outcome
            == if s != [] || (allDone && HasPayload(p, IsCompleted)) then Returned else Waiting
    decreases Measure(p + s)
  {
    var q := p + s;
    if p == [] {
      assert q == s;
      assert !HasPayload(p, IsEmptied) && !HasPayload(p, IsCompleted);
    } else {
      assert q[0] == p[0] && q[1..] == p[1..] + s;
      var e := p[0].value;
      var h := Handle(Coord(t, st, q[1..]), e, allDone);
      HandleDecreases(Coord(t, st, q), q, allDone);
      HasPayloadCons(p, IsEmptied);
      HasPayloadCons(p, IsCompleted);
      OrderlyTail(t, p);
      var n := h.next;
      if e.payload.Completed? && allDone {
        assert n.queue == p[1..] + (s + [None]);
        AwaitEndsAs(t, st, p[1..], s + [None], allDone);
      } else {
        assert n.queue == p[1..] + s;
        if e.payload.FileProcessed? {
          OrderlyAfterRecord(t, e.workerIndex, e.payload.length, p[1..]);
        }
        AwaitEndsAs(n.tally, n.status, p[1..], s, allDone);
      }
    }
  }

  /**
   * Over such a queue the total file count rises by the number of
   * FILE_PROCESSED events and the total byte count by their lengths.
   */
  lemma AwaitTotals(t: Tally, st: Status, p: seq<Option<ScanEvent>>, s: seq<Option<ScanEvent>>, allDone: bool)
    requires |t.counts| == |t.bytes| && Orderly(t, p)
    requires s == [] || s[0].None?
    ensures var r := AwaitOn(Coord(t, st, p + s), allDone).last;
      && Sum(r.tally.counts) == Sum(t.counts) + |FileResults(p)|
      && Sum(r.tally.bytes) == Sum(t.bytes) + SumLengths(FileResults(p))
  {
    AwaitRecordsAll(t, st, p, s, allDone);
    RecordAllTotals(t, FileResults(p));
  }

  /** `n` end-of-stream sentinels. */
  function Sentinels(n: nat): seq<Option<ScanEvent>>
  {
    if n == 0 then [] else [None] + Sentinels(n - 1)
  }

  /**
   * A FATAL_EXCEPTION event after well-formed events is handled: the
   * coordinator sets FAILED and raises that event's error, and consumes
   * nothing after it. What is left is the rest of the queue, plus one
   * sentinel per COMPLETED event before it when every worker is complete.
   */
  lemma {:induction false} AwaitFatal(t: Tally, st: Status, p: seq<Option<ScanEvent>>, i: nat, error: Error,
                                   s: seq<Option<ScanEvent>>, allDone: bool)
    requires Orderly(t, p)
    ensures var r := AwaitOn(Coord(t, st, p + [Some(ScanEvent(i, FatalException(error)))] + s), allDone);
      && r.outcome == Raised(error)
      && r.last.status == Failed
      && r.last.queue == s + Sentinels(if allDone then Unfinished(p) else 0)
    decreases |p|
  {
    var f := Some(ScanEvent(i, FatalException(error)));
    var q := p + [f] + s;
    if p == [] {
      assert q[0] == f && q[1..] == s;
      assert s + [] == s;
    } else {
      assert q[0] == p[0] && q[1..] == p[1..] + [f] + s;
      var e := p[0].value;
      var h := Handle(Coord(t, st, q[1..]), e, allDone);
      OrderlyTail(t, p);
      var n := h.next;
      if e.payload.Completed? && allDone {
        assert n.queue == p[1..] + [f] + (s + [None]);
        AwaitFatal(t, st, p[1..], i, error, s + [None], allDone);
        assert s + Sentinels(Unfinished(p)) == (s + [None]) + Sentinels(Unfinished(p[1..]));
      } else {
        assert n.queue == p[1..] + [f] + s;
        if e.payload.FileProcessed? {
          OrderlyAfterRecord(t, e.workerIndex, e.payload.length, p[1..]);
        }
        AwaitFatal(n.tally, n.status, p[1..], i, error, s, allDone);
      }
    }
  }

  /**
   * When such a FATAL_EXCEPTION event ends the loop, the metrics hold
   * exactly the FILE_PROCESSED events before it, recorded in order.
   */
  lemma {:induction false} AwaitFatalRecords(t: Tally, st: Status, p: seq<Option<ScanEvent>>, i: nat,
                                          error: Error, s: seq<Option<ScanEvent>>, allDone: bool)
    requires |t.counts| == |t.bytes| && Orderly(t, p)
    ensures AllRecordable(t, FileResults(p))
    ensures AwaitOn(Coord(t, st, p + [Some(ScanEvent(i, FatalException(error)))] + s), allDone).last.tally
            == RecordAll(t, FileResults(p))
    decreases |p|
  {
    OrderlyRecordable(t, p);
    var f := Some(ScanEvent(i, FatalException(error)));
    var q := p + [f] + s;
    if p == [] {
      assert q[0] == f && q[1..] == s;
    } else {
      assert q[0] == p[0] && q[1..] == p[1..] + [f] + s;
      var e := p[0].value;
      var h := Handle(Coord(t, st, q[1..]), e, allDone);
      OrderlyTail(t, p);
      var n := h.next;
      if e.payload.Completed? && allDone {
        assert n.queue == p[1..] + [f] + (s + [None]);
        AwaitFatalRecords(t, st, p[1..], i, error, s + [None], allDone);
      } else {
        assert n.queue == p[1..] + [f] + s;
        if e.payload.FileProcessed? {
          OrderlyAfterRecord(t, e.workerIndex, e.payload.length, p[1..]);
        }
        AwaitFatalRecords(n.tally, n.status, p[1..], i, error, s, allDone);
      }
    }
  }

  /** Every worker's completion flag is set (true of an empty pool). */
  ghost predicate AllComplete(workers: seq<ScanWorker>)
    reads workers
  {
    forall k :: 0 <= k < |workers| ==> workers[k].complete
  }

  /** The pool of scan workers and the coordinator's side of the result queue. */
  class ScanWorkerPool {
    const size: int
    const matcher: Matcher
    const metrics: ScanMetrics
    const chunkSize: int
    var started: bool
    var status: Status
    var resultQueue: Queue<Option<ScanEvent>>
    var workers: seq<ScanWorker>

    constructor (size: int, matcher: Matcher, metrics: ScanMetrics, chunkSize: int)
      ensures this.size == size && this.matcher == matcher
      ensures this.metrics == metrics && this.chunkSize == chunkSize
      ensures !started && workers == []
    {
      this.size := size;
      this.matcher := matcher;
      this.metrics := metrics;
      this.chunkSize := chunkSize;
      started := false;
      status := LocatingFiles;
      resultQueue := new Queue();
      workers := [];
    }

    /**
     * Starts `size` workers (none when `size` is not positive), numbered
     * from 0, on a fresh result queue, with the status at LOCATING_FILES.
     * A second start raises and changes nothing.
     */
    method Start() returns (outcome: Outcome)
      modifies this
      ensures old(started) ==> outcome == Fail(ScanningException(POOL_ALREADY_STARTED))
      ensures old(started) ==> unchanged(this)
      ensures !old(started) ==>
        && outcome == Pass && started && status == LocatingFiles
        && fresh(resultQueue) && resultQueue.items == []
        && |workers| == (if size < 0 then 0 else size)
        && forall k :: 0 <= k < |workers| ==>
             && fresh(workers[k])
             && workers[k].index == k && workers[k].resultQueue == resultQueue
             && workers[k].matcher == matcher && workers[k].chunkSize == chunkSize
             && workers[k].working && !workers[k].complete
    {
      if started {
        return Fail(ScanningException(POOL_ALREADY_STARTED));
      }
      status := LocatingFiles;
      resultQueue := new Queue();
      workers := [];
      var count := if size < 0 then 0 else size;
      for i := 0 to count
        invariant !started && status == LocatingFiles
        invariant fresh(resultQueue) && resultQueue.items == []
        invariant |workers| == i
        invariant forall k :: 0 <= k < i ==>
             && fresh(workers[k])
             && workers[k].index == k && workers[k].resultQueue == resultQueue
             && workers[k].matcher == matcher && workers[k].chunkSize == chunkSize
             && workers[k].working && !workers[k].complete
      {
        var worker := new ScanWorker(i, resultQueue, matcher, chunkSize);
        workers := workers + [worker];
      }
      started := true;
      outcome := Pass;
    }

    /** `_assert_started`. */
    function AssertStarted(): (outcome: Outcome)
      reads this
      ensures outcome.Pass? <==> started
      ensures outcome.Fail? ==> outcome.error == ScanningException(POOL_NOT_STARTED)
    {
      if started then Pass else Fail(ScanningException(POOL_NOT_STARTED))
    }

    /** Waits for every worker; only the guard is modelled. */
    method Stop() returns (outcome: Outcome)
      ensures outcome == AssertStarted()
    {
      outcome := AssertStarted();
    }

    /** Kills every worker; only the guard is modelled. */
    method Terminate() returns (outcome: Outcome)
      ensures outcome == AssertStarted()
    {
      outcome := AssertStarted();
    }

    /** Asks each worker in turn whether it has completed, stopping at the first that has not. */
    method IsComplete() returns (result: Result<bool>)
      ensures !started ==> result == Err(ScanningException(POOL_NOT_STARTED))
      ensures started ==> result == Ok(AllComplete(workers))
    {
      var guard := AssertStarted();
      if guard.Fail? {
        return Err(guard.error);
      }
      for i := 0 to |workers|
        invariant forall k :: 0 <= k < i ==> workers[k].complete
      {
        if !workers[i].IsComplete() {
          return Ok(false);
        }
      }
      result := Ok(true);
    }

    /**
     * Consumes events from the result queue until the sentinel, a raised
     * failure, or an empty queue, exactly as `AwaitOn` describes.
     */
    method AwaitResults() returns (outcome: AwaitOutcome)
      requires metrics.Valid()
      modifies this, resultQueue, metrics
      ensures metrics.Valid()
      ensures !old(started) ==>
        && outcome == Raised(ScanningException(POOL_NOT_STARTED))
        && resultQueue.items == old(resultQueue.items) && metrics.State() == old(metrics.State())
        && status == old(status)
      ensures old(started) ==>
        var r := AwaitOn(Coord(old(metrics.State()), old(status), old(resultQueue.items)), AllComplete(workers));
        && outcome == r.outcome && metrics.State() == r.last.tally
        && status == r.last.status && resultQueue.items == r.last.queue
      ensures resultQueue == old(resultQueue) && workers == old(workers) && started == old(started)
    {
      var guard := AssertStarted();
      if guard.Fail? {
        return Raised(guard.error);
      }
      ghost var allDone := AllComplete(workers);
      ghost var r := AwaitOn(Coord(metrics.State(), status, resultQueue.items), allDone);
      while true
        invariant resultQueue == old(resultQueue) && workers == old(workers) && started
        invariant metrics.Valid() && allDone == AllComplete(workers)
        invariant AwaitOn(Coord(metrics.State(), status, resultQueue.items), allDone) == r
        decreases Measure(resultQueue.items)
      {
        if resultQueue.items == [] {
          return Waiting;
        }
        ghost var here := Coord(metrics.State(), status, resultQueue.items);
        var item := resultQueue.Get();
        if item.None? {
          return Returned;
        }
        var event := item.value;
        AwaitOnStep(here, allDone);
        HandleDecreases(here, here.queue, allDone);
        match event.payload {
          case Completed =>
            var done := IsComplete();
            if done == Ok(true) {
              resultQueue.Put(None);
            }
          case FileProcessed(_, length, _) =>
            var recorded := metrics.RecordResult(event.workerIndex, length);
            if recorded.Fail? {
              return Raised(recorded.error);
            }
          case FileQueueEmptied =>
            status := ProcessingFiles;
          case Exception(_) =>
          case FatalException(error) =>
            status := Failed;
            var terminated := Terminate();
            return Raised(error);
        }
      }
    }
  }
}
