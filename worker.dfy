/**
 * A scan worker: it takes items from the shared file queue, streams each
 * file through a fresh matcher context chunk by chunk, and reports what
 * happened as events on the result queue. The end-of-stream sentinel, or
 * an empty read once discovery is over, completes the worker; completion
 * is a one-way latch announced by exactly one COMPLETED event.
 */
module Worker {
  import opened ScanTypes

  /**
   * The matcher, which is not part of this model: the final match mapping
   * of a fresh context after it was fed the given chunks, in order.
   */
  type Matcher = seq<seq<byte>> -> Matches

  /** What opening and reading a path gives: its bytes, or an OSError. */
  datatype FileData = Contents(bytes: seq<byte>) | Unreadable

  /** The files the workers can open; a path with no entry cannot be opened. */
  type Files = map<Path, FileData>

  // ---------------------------------------------------------------------
  // The chunked read of one file.

  /**
   * `file.read(n)` at offset `pos`: up to n bytes, and the rest of the file
   * for n == -1. The model also reads to the end for n below -1, where the
   * buffered reader raises ValueError instead.
   */
  function ReadChunk(data: seq<byte>, pos: nat, n: int): (chunk: seq<byte>)
    requires pos <= |data|
    ensures pos + |chunk| <= |data|
  {
    if n < 0 || pos + n > |data| then data[pos..] else data[pos..pos + n]
  }

  /**
   * A read returns the next bytes of the file, at most n of them when n is
   * not negative, fewer only at the end of the file, and nothing exactly
   * when n is 0 or the file is exhausted.
   */
  lemma ReadChunkContract(data: seq<byte>, pos: nat, n: int)
    requires pos <= |data|
    ensures var chunk := ReadChunk(data, pos, n);
      && chunk == data[pos..pos + |chunk|]
      && (n >= 0 ==> |chunk| <= n)
      && (chunk == [] <==> n == 0 || pos == |data|)
      && (0 <= n && |chunk| < n ==> pos + |chunk| == |data|)
  {
  }

  /** The chunks the read loop takes from offset `pos` on: read until an empty read. */
  function ChunksFrom(data: seq<byte>, pos: nat, n: int): seq<seq<byte>>
    requires pos <= |data|
    decreases |data| - pos
  {
    var chunk := ReadChunk(data, pos, n);
    if chunk == [] then [] else [chunk] + ChunksFrom(data, pos + |chunk|, n)
  }

  /** The chunks of a whole file. */
  function Chunks(data: seq<byte>, n: int): seq<seq<byte>>
  {
    ChunksFrom(data, 0, n)
  }

  function Concat(chunks: seq<seq<byte>>): seq<byte>
  {
    if chunks == [] then [] else chunks[0] + Concat(chunks[1..])
  }

  /** The running `length` total of the read loop. */
  function TotalLength(chunks: seq<seq<byte>>): nat
  {
    if chunks == [] then 0 else |chunks[0]| + TotalLength(chunks[1..])
  }

  lemma {:induction false} TotalLengthIsConcatLength(chunks: seq<seq<byte>>)
    ensures TotalLength(chunks) == |Concat(chunks)|
  {
    if chunks != [] {
      TotalLengthIsConcatLength(chunks[1..]);
    }
  }

  lemma {:induction false} ChunksFromContract(data: seq<byte>, pos: nat, n: int)
    requires pos <= |data|
    ensures var cs := ChunksFrom(data, pos, n);
      && (n != 0 ==> Concat(cs) == data[pos..])
      && (n == 0 ==> cs == [])
      && (forall k :: 0 <= k < |cs| ==> cs[k] != [])
      && (n > 0 ==> forall k :: 0 <= k < |cs| ==> |cs[k]| <= n)
      && (n > 0 ==> forall k :: 0 <= k < |cs| - 1 ==> |cs[k]| == n)
    decreases |data| - pos
  {
    var chunk := ReadChunk(data, pos, n);
    ReadChunkContract(data, pos, n);
    if chunk != [] {
      var next := pos + |chunk|;
      ChunksFromContract(data, next, n);
      var cs := ChunksFrom(data, pos, n);
      var rest := ChunksFrom(data, next, n);
      assert cs == [chunk] + rest;
      assert data[pos..] == chunk + data[next..];
      if n > 0 && |cs| > 1 {
        assert next < |data|;
      }
      forall k | 0 < k < |cs|
        ensures cs[k] == rest[k - 1]
      {
      }
    }
  }

  /**
   * For any chunk size other than 0 the chunks put back together are the
   * whole file, every chunk is non-empty, a positive size bounds each chunk
   * and fills every chunk but the last. A chunk size of 0 reads nothing.
   */
  lemma ChunksContract(data: seq<byte>, n: int)
    ensures n != 0 ==> Concat(Chunks(data, n)) == data
    ensures n == 0 ==> Chunks(data, n) == []
    ensures forall k :: 0 <= k < |Chunks(data, n)| ==> Chunks(data, n)[k] != []
    ensures n > 0 ==> forall k :: 0 <= k < |Chunks(data, n)| ==> |Chunks(data, n)[k]| <= n
    ensures n > 0 ==> forall k :: 0 <= k < |Chunks(data, n)| - 1 ==> |Chunks(data, n)[k]| == n
  {
    ChunksFromContract(data, 0, n);
    assert data[0..] == data;
  }

  /** One pass of the read loop, with `fed` the chunks already fed to the context. */
  lemma ReadStep(data: seq<byte>, pos: nat, n: int, fed: seq<seq<byte>>)
    requires pos <= |data|
    requires fed + ChunksFrom(data, pos, n) == Chunks(data, n)
    ensures var chunk := ReadChunk(data, pos, n);
      && (chunk == [] ==> fed == Chunks(data, n))
      && (chunk == [] <==> n == 0 || pos == |data|)
      && (chunk != [] ==> pos < pos + |chunk| <= |data|)
      && (chunk != [] ==> (fed + [chunk]) + ChunksFrom(data, pos + |chunk|, n) == Chunks(data, n))
  {
    var chunk := ReadChunk(data, pos, n);
    ReadChunkContract(data, pos, n);
    if chunk == [] {
      assert fed + [] == fed;
    } else {
      var later := ChunksFrom(data, pos + |chunk|, n);
      assert ChunksFrom(data, pos, n) == [chunk] + later;
      assert (fed + [chunk]) + later == fed + ([chunk] + later);
    }
  }

  /** The reported `length` is the file size for every chunk size but 0. */
  lemma LengthIsFileSize(data: seq<byte>, n: int)
    ensures TotalLength(Chunks(data, n)) == if n == 0 then 0 else |data|
  {
    ChunksContract(data, n);
    TotalLengthIsConcatLength(Chunks(data, n));
  }

  // ---------------------------------------------------------------------
  // What one worker run reports.

  /** One read of the file queue: an item, or an empty read and the status seen then. */
  datatype Read = Got(item: WorkItem) | Empty(seen: Status)

  /** A read after which the worker completes. */
  predicate Ends(r: Read)
  {
    r == Got(EndOfFiles) || r == Empty(ProcessingFiles)
  }

  /** The event `_process_file` puts for `path`. */
  function FileEvent(index: nat, chunkSize: int, matcher: Matcher, files: Files, path: Path): ScanEvent
  {
    if path !in files || files[path].Unreadable? then ScanEvent(index, Exception(OSError(path)))
    else
      var chunks := Chunks(files[path].bytes, chunkSize);
      ScanEvent(index, FileProcessed(path, TotalLength(chunks), matcher(chunks)))
  }

  /** The events one pass of the `work` loop puts for one read. */
  function StepEvents(index: nat, chunkSize: int, matcher: Matcher, files: Files, read: Read): seq<ScanEvent>
  {
    match read
    case Got(EndOfFiles) => [ScanEvent(index, FileQueueEmptied), ScanEvent(index, Completed)]
    case Got(Failure(e)) => [ScanEvent(index, FatalException(e))]
    case Got(FilePath(p)) => [FileEvent(index, chunkSize, matcher, files, p)]
    case Empty(seen) => if seen == ProcessingFiles then [ScanEvent(index, Completed)] else []
  }

  /** The events a worker run puts, how many reads it takes, and whether it completed. */
  datatype WorkRun = WorkRun(events: seq<ScanEvent>, consumed: nat, finished: bool)

  /** The `work` loop over a given sequence of reads. */
  function WorkOn(index: nat, chunkSize: int, matcher: Matcher, files: Files, feed: seq<Read>): (run: WorkRun)
    ensures run.consumed <= |feed|
  {
    if feed == [] then WorkRun([], 0, false)
    else
      var events := StepEvents(index, chunkSize, matcher, files, feed[0]);
      if Ends(feed[0]) then WorkRun(events, 1, true)
      else
        var rest := WorkOn(index, chunkSize, matcher, files, feed[1..]);
        WorkRun(events + rest.events, rest.consumed + 1, rest.finished)
  }

  /** One pass of the loop at position `i` of the feed. */
  lemma WorkOnStep(index: nat, chunkSize: int, matcher: Matcher, files: Files, feed: seq<Read>, i: nat)
    requires i < |feed|
    ensures var run := WorkOn(index, chunkSize, matcher, files, feed[i..]);
      var step := StepEvents(index, chunkSize, matcher, files, feed[i]);
      if Ends(feed[i]) then run == WorkRun(step, 1, true)
      else
        var rest := WorkOn(index, chunkSize, matcher, files, feed[i + 1..]);
        run == WorkRun(step + rest.events, rest.consumed + 1, rest.finished)
  {
    assert feed[i..][0] == feed[i];
    assert feed[i..][1..] == feed[i + 1..];
  }

  /**
   * A run whose first `consumed` reads moved the queue from `start` to
   * `now`, with `rest` still to come, adds up to `run`.
   */
  predicate Resumes(run: WorkRun, start: seq<Option<ScanEvent>>, now: seq<Option<ScanEvent>>,
                    consumed: nat, rest: WorkRun)
  {
    && start + Posted(run.events) == now + Posted(rest.events)
    && run.consumed == consumed + rest.consumed
    && run.finished == rest.finished
  }

  /** One pass of the loop at position `i`, as seen on the result queue. */
  lemma PassFacts(index: nat, chunkSize: int, matcher: Matcher, files: Files, feed: seq<Read>, i: nat)
    requires i < |feed|
    ensures var here := WorkOn(index, chunkSize, matcher, files, feed[i..]);
      var step := StepEvents(index, chunkSize, matcher, files, feed[i]);
      var rest := WorkOn(index, chunkSize, matcher, files, feed[i + 1..]);
      if Ends(feed[i]) then here == WorkRun(step, 1, true)
      else
        && (forall q: seq<Option<ScanEvent>> {:trigger q + Posted(here.events)} ::
              q + Posted(here.events) == (q + Posted(step)) + Posted(rest.events))
        && here.consumed == rest.consumed + 1
        && here.finished == rest.finished
  {
    WorkOnStep(index, chunkSize, matcher, files, feed, i);
    var step := StepEvents(index, chunkSize, matcher, files, feed[i]);
    var rest := WorkOn(index, chunkSize, matcher, files, feed[i + 1..]);
    if !Ends(feed[i]) {
      PostedAppend(step, rest.events);
    }
  }

  // Counting events and reads of one kind.

  function Count(events: seq<ScanEvent>, kind: Payload -> bool): nat
  {
    if events == [] then 0 else (if kind(events[0].payload) then 1 else 0) + Count(events[1..], kind)
  }

  lemma {:induction false} CountAppend(a: seq<ScanEvent>, b: seq<ScanEvent>, kind: Payload -> bool)
    ensures Count(a + b, kind) == Count(a, kind) + Count(b, kind)
  {
    if a != [] {
      assert (a + b)[0] == a[0];
      assert (a + b)[1..] == a[1..] + b;
      CountAppend(a[1..], b, kind);
    } else {
      assert a + b == b;
    }
  }

  function CountReads(feed: seq<Read>, kind: Read -> bool): nat
  {
    if feed == [] then 0 else (if kind(feed[0]) then 1 else 0) + CountReads(feed[1..], kind)
  }

  predicate IsCompleted(p: Payload) { p.Completed? }

  /** FILE_PROCESSED or EXCEPTION: the answer to one file path. */
  predicate AnswersFile(p: Payload) { p.FileProcessed? || p.Exception? }

  predicate IsFatal(p: Payload) { p.FatalException? }

  predicate IsEmptied(p: Payload) { p.FileQueueEmptied? }

  predicate IsPathRead(r: Read) { r.Got? && r.item.FilePath? }

  predicate IsFailureRead(r: Read) { r.Got? && r.item.Failure? }

  /** What one pass puts, by kind of read. */
  lemma StepFacts(index: nat, chunkSize: int, matcher: Matcher, files: Files, read: Read)
    ensures var step := StepEvents(index, chunkSize, matcher, files, read);
      Count(step, IsCompleted) == (if Ends(read) then 1 else 0)
    ensures var step := StepEvents(index, chunkSize, matcher, files, read);
      Ends(read) ==> step != [] && step[|step| - 1] == ScanEvent(index, Completed)
    ensures var step := StepEvents(index, chunkSize, matcher, files, read);
      read == Got(EndOfFiles) ==> |step| == 2 && step[0] == ScanEvent(index, FileQueueEmptied)
    ensures var step := StepEvents(index, chunkSize, matcher, files, read);
      Count(step, AnswersFile) == (if IsPathRead(read) then 1 else 0)
    ensures var step := StepEvents(index, chunkSize, matcher, files, read);
      Count(step, IsFatal) == (if IsFailureRead(read) then 1 else 0)
    ensures var step := StepEvents(index, chunkSize, matcher, files, read);
      Count(step, IsEmptied) == (if read == Got(EndOfFiles) then 1 else 0)
    ensures var step := StepEvents(index, chunkSize, matcher, files, read);
      IsPathRead(read) || IsFailureRead(read) || read == Empty(ProcessingFiles) ==> |step| == 1
    ensures var step := StepEvents(index, chunkSize, matcher, files, read);
      read.Empty? && read.seen != ProcessingFiles ==> step == []
    ensures var step := StepEvents(index, chunkSize, matcher, files, read);
      read.Got? && read.item.Failure? ==> step == [ScanEvent(index, FatalException(read.item.error))]
    ensures var step := StepEvents(index, chunkSize, matcher, files, read);
      forall k :: 0 <= k < |step| ==> step[k].workerIndex == index
  {
    var step := StepEvents(index, chunkSize, matcher, files, read);
    match read {
      case Got(EndOfFiles) =>
        assert step[1..] == [ScanEvent(index, Completed)];
        assert step[1..][1..] == [];
        assert Count(step[1..], IsCompleted) == 1;
        assert Count(step[1..], AnswersFile) == 0;
        assert Count(step[1..], IsFatal) == 0;
        assert Count(step[1..], IsEmptied) == 0;
      case Got(Failure(e)) =>
        assert step[1..] == [];
      case Got(FilePath(p)) =>
        assert step[1..] == [];
        assert AnswersFile(step[0].payload);
      case Empty(seen) =>
        if seen == ProcessingFiles {
          assert step[1..] == [];
        }
    }
  }

  predicate SomeEnd(feed: seq<Read>)
  {
    exists k :: 0 <= k < |feed| && Ends(feed[k])
  }

  lemma {:induction false} SomeEndCons(feed: seq<Read>)
    requires feed != []
    ensures SomeEnd(feed) <==> Ends(feed[0]) || SomeEnd(feed[1..])
  {
    if SomeEnd(feed) && !Ends(feed[0]) {
      var k :| 0 <= k < |feed| && Ends(feed[k]);
      assert feed[1..][k - 1] == feed[k];
    }
    if SomeEnd(feed[1..]) {
      var k :| 0 <= k < |feed[1..]| && Ends(feed[1..][k]);
      assert feed[k + 1] == feed[1..][k];
    }
  }

  /**
   * The worker completes exactly at the first sentinel or the first empty
   * read seen while files are being processed, and takes no read after it;
   * without such a read it takes every read and keeps working.
   */
  lemma {:induction false} WorkEnds(index: nat, chunkSize: int, matcher: Matcher, files: Files,
                                 feed: seq<Read>)
    ensures var run := WorkOn(index, chunkSize, matcher, files, feed);
      && (run.finished <==> SomeEnd(feed))
      && (run.finished ==> run.consumed >= 1 && Ends(feed[run.consumed - 1]))
      && (forall k :: 0 <= k < run.consumed - 1 ==> !Ends(feed[k]))
      && (!run.finished ==> run.consumed == |feed|)
  {
    if feed != [] {
      SomeEndCons(feed);
      if !Ends(feed[0]) {
        var run := WorkOn(index, chunkSize, matcher, files, feed);
        var rest := WorkOn(index, chunkSize, matcher, files, feed[1..]);
        WorkEnds(index, chunkSize, matcher, files, feed[1..]);
        forall k | 0 <= k < run.consumed - 1
          ensures !Ends(feed[k])
        {
          if k > 0 {
            assert feed[k] == feed[1..][k - 1];
          }
        }
        if run.finished {
          assert feed[run.consumed - 1] == feed[1..][rest.consumed - 1];
        }
      }
    }
  }

  /**
   * COMPLETED is put exactly once when the run completes, as its last
   * event, and never otherwise; FILE_QUEUE_EMPTIED comes just before it
   * when the sentinel ended the run.
   */
  lemma {:induction false} WorkCompletedOnce(index: nat, chunkSize: int, matcher: Matcher, files: Files,
                                          feed: seq<Read>)
    ensures var run := WorkOn(index, chunkSize, matcher, files, feed);
      && Count(run.events, IsCompleted) == (if run.finished then 1 else 0)
      && (run.finished ==> run.events != [] && run.events[|run.events| - 1] == ScanEvent(index, Completed))
      && (run.finished && feed[run.consumed - 1] == Got(EndOfFiles) ==>
            |run.events| >= 2 && run.events[|run.events| - 2] == ScanEvent(index, FileQueueEmptied))
  {
    if feed != [] {
      var run := WorkOn(index, chunkSize, matcher, files, feed);
      var step := StepEvents(index, chunkSize, matcher, files, feed[0]);
      StepFacts(index, chunkSize, matcher, files, feed[0]);
      if !Ends(feed[0]) {
        var rest := WorkOn(index, chunkSize, matcher, files, feed[1..]);
        WorkCompletedOnce(index, chunkSize, matcher, files, feed[1..]);
        CountAppend(step, rest.events, IsCompleted);
        assert run.events == step + rest.events;
        if run.finished {
          assert feed[run.consumed - 1] == feed[1..][rest.consumed - 1];
          assert run.events[|run.events| - 1] == rest.events[|rest.events| - 1];
          if |rest.events| >= 2 {
            assert run.events[|run.events| - 2] == rest.events[|rest.events| - 2];
          }
        }
      }
    }
  }

  /**
   * FILE_QUEUE_EMPTIED is put exactly once when the sentinel ended the
   * run, and never otherwise.
   */
  lemma {:induction false} WorkEmptiedOnce(index: nat, chunkSize: int, matcher: Matcher, files: Files,
                                        feed: seq<Read>)
    ensures var run := WorkOn(index, chunkSize, matcher, files, feed);
      Count(run.events, IsEmptied) == (if run.finished && feed[run.consumed - 1] == Got(EndOfFiles) then 1 else 0)
  {
    WorkEnds(index, chunkSize, matcher, files, feed);
    if feed != [] {
      var run := WorkOn(index, chunkSize, matcher, files, feed);
      var step := StepEvents(index, chunkSize, matcher, files, feed[0]);
      StepFacts(index, chunkSize, matcher, files, feed[0]);
      if !Ends(feed[0]) {
        var rest := WorkOn(index, chunkSize, matcher, files, feed[1..]);
        WorkEmptiedOnce(index, chunkSize, matcher, files, feed[1..]);
        CountAppend(step, rest.events, IsEmptied);
        if run.finished {
          assert feed[run.consumed - 1] == feed[1..][rest.consumed - 1];
        }
      }
    }
  }

  /** Every event of a run carries the worker's index. */
  lemma {:induction false} WorkEventsIndexed(index: nat, chunkSize: int, matcher: Matcher, files: Files,
                                          feed: seq<Read>)
    ensures forall e <- WorkOn(index, chunkSize, matcher, files, feed).events :: e.workerIndex == index
  {
    if feed != [] {
      var run := WorkOn(index, chunkSize, matcher, files, feed);
      var step := StepEvents(index, chunkSize, matcher, files, feed[0]);
      StepFacts(index, chunkSize, matcher, files, feed[0]);
      if !Ends(feed[0]) {
        var rest := WorkOn(index, chunkSize, matcher, files, feed[1..]);
        WorkEventsIndexed(index, chunkSize, matcher, files, feed[1..]);
        assert run.events == step + rest.events;
        forall k | 0 <= k < |run.events|
          ensures run.events[k].workerIndex == index
        {
          if k < |step| {
            assert run.events[k] == step[k];
            assert step[k].workerIndex == index;
          } else {
            assert run.events[k] == rest.events[k - |step|];
            assert rest.events[k - |step|].workerIndex == index;
          }
        }
      }
    }
  }

  /**
   * Every path taken is answered by exactly one FILE_PROCESSED or
   * EXCEPTION event, and every propagated failure by exactly one
   * FATAL_EXCEPTION event.
   */
  lemma {:induction false} WorkAccounting(index: nat, chunkSize: int, matcher: Matcher, files: Files,
                                       feed: seq<Read>)
    ensures var run := WorkOn(index, chunkSize, matcher, files, feed);
      && Count(run.events, AnswersFile) == CountReads(feed[..run.consumed], IsPathRead)
      && Count(run.events, IsFatal) == CountReads(feed[..run.consumed], IsFailureRead)
  {
    if feed != [] {
      var run := WorkOn(index, chunkSize, matcher, files, feed);
      var step := StepEvents(index, chunkSize, matcher, files, feed[0]);
      StepFacts(index, chunkSize, matcher, files, feed[0]);
      var taken := feed[..run.consumed];
      assert taken[0] == feed[0];
      if Ends(feed[0]) {
        assert taken[1..] == [];
      } else {
        var rest := WorkOn(index, chunkSize, matcher, files, feed[1..]);
        WorkAccounting(index, chunkSize, matcher, files, feed[1..]);
        assert taken[1..] == feed[1..][..rest.consumed];
        CountAppend(step, rest.events, AnswersFile);
        CountAppend(step, rest.events, IsFatal);
      }
    }
  }

  /** The file's bytes as the matcher context sees them. */
  class MatchContext {
    const matcher: Matcher
    var chunks: seq<seq<byte>>

    constructor (matcher: Matcher)
      ensures this.matcher == matcher && chunks == []
    {
      this.matcher := matcher;
      chunks := [];
    }

    method ProcessChunk(chunk: seq<byte>)
      modifies this
      ensures chunks == old(chunks) + [chunk]
    {
      chunks := chunks + [chunk];
    }

    function GetMatches(): Matches
      reads this
    {
      matcher(chunks)
    }
  }

  /** The events as they stand on the result queue. */
  function Posted(events: seq<ScanEvent>): (items: seq<Option<ScanEvent>>)
    ensures |items| == |events|
  {
    if events == [] then [] else [Some(events[0])] + Posted(events[1..])
  }

  lemma {:induction false} PostedAppend(a: seq<ScanEvent>, b: seq<ScanEvent>)
    ensures Posted(a + b) == Posted(a) + Posted(b)
  {
    if a == [] {
      assert a + b == b;
    } else {
      assert (a + b)[0] == a[0];
      assert (a + b)[1..] == a[1..] + b;
      PostedAppend(a[1..], b);
    }
  }

  class ScanWorker {
    const index: nat
    const resultQueue: Queue<Option<ScanEvent>>
    const matcher: Matcher
    const chunkSize: int
    var working: bool
    var complete: bool

    constructor (index: nat, resultQueue: Queue<Option<ScanEvent>>, matcher: Matcher, chunkSize: int)
      ensures this.index == index && this.resultQueue == resultQueue
      ensures this.matcher == matcher && this.chunkSize == chunkSize
      ensures working && !complete
    {
      this.index := index;
      this.resultQueue := resultQueue;
      this.matcher := matcher;
      this.chunkSize := chunkSize;
      working := true;
      complete := false;
    }

    method PutEvent(payload: Payload)
      modifies resultQueue
      ensures resultQueue.items == old(resultQueue.items) + [Some(ScanEvent(index, payload))]
    {
      resultQueue.Put(Some(ScanEvent(index, payload)));
    }

    /** The latch: the only place `complete` is set. */
    method CompleteWork()
      modifies this, resultQueue
      ensures !working && complete
      ensures resultQueue.items == old(resultQueue.items) + [Some(ScanEvent(index, Completed))]
    {
      working := false;
      complete := true;
      PutEvent(Completed);
    }

    function IsComplete(): bool
      reads this
    {
      complete
    }

    /**
     * Streams a file's bytes through a fresh matcher context in chunks of
     * `chunkSize`, totalling their lengths as it goes.
     */
    method StreamFile(data: seq<byte>) returns (length: nat, matches: Matches)
      ensures length == TotalLength(Chunks(data, chunkSize))
      ensures length == if chunkSize == 0 then 0 else |data|
      ensures matches == matcher(Chunks(data, chunkSize))
    {
      var context := new MatchContext(matcher);
      ghost var all := Chunks(data, chunkSize);
      length := 0;
      var pos := 0;
      while true
        invariant pos <= |data| && length == pos
        invariant context.matcher == matcher
        invariant context.chunks + ChunksFrom(data, pos, chunkSize) == all
        invariant chunkSize == 0 ==> pos == 0
        modifies context
        decreases |data| - pos
      {
        var chunk := ReadChunk(data, pos, chunkSize);
        ReadStep(data, pos, chunkSize, context.chunks);
        if chunk == [] {
          break;
        }
        length := length + |chunk|;
        context.ProcessChunk(chunk);
        pos := pos + |chunk|;
      }
      LengthIsFileSize(data, chunkSize);
      matches := context.GetMatches();
    }

    /**
     * Puts FILE_PROCESSED with the file's byte total and final matches;
     * a file that cannot be opened or read puts one EXCEPTION instead.
     */
    method ProcessFile(files: Files, path: Path)
      modifies resultQueue
      ensures resultQueue.items
              == old(resultQueue.items) + [Some(FileEvent(index, chunkSize, matcher, files, path))]
    {
      if path !in files || files[path].Unreadable? {
        PutEvent(Exception(OSError(path)));
        return;
      }
      var length, matches := StreamFile(files[path].bytes);
      PutEvent(FileProcessed(path, length, matches));
    }

    /** One pass of the `work` loop: the read and what it leads to. */
    method Dispatch(files: Files, read: Read)
      modifies this, resultQueue
      ensures resultQueue.items
              == old(resultQueue.items) + Posted(StepEvents(index, chunkSize, matcher, files, read))
      ensures working == (old(working) && !Ends(read))
      ensures complete == (old(complete) || Ends(read))
    {
      match read {
        case Got(EndOfFiles) =>
          PutEvent(FileQueueEmptied);
          CompleteWork();
        case Got(Failure(e)) =>
          PutEvent(FatalException(e));
        case Got(FilePath(p)) =>
          ProcessFile(files, p);
        case Empty(seen) =>
          if seen == ProcessingFiles {
            CompleteWork();
          }
      }
    }

    /**
     * The worker's main loop over the reads it performs. It puts exactly
     * `WorkOn`'s events, takes `WorkOn`'s count of reads, and latches
     * `complete` exactly when the run completes.
     */
    method Work(files: Files, feed: seq<Read>) returns (consumed: nat)
      modifies this, resultQueue
      ensures var run := WorkOn(index, chunkSize, matcher, files, feed);
        && resultQueue.items == old(resultQueue.items) + Posted(run.events)
        && consumed == run.consumed
        && working == !run.finished
        && complete == (old(complete) || run.finished)
    {
      ghost var run := WorkOn(index, chunkSize, matcher, files, feed);
      ghost var start := resultQueue.items;
      working := true;
      consumed := 0;
      while working && consumed < |feed|
        invariant consumed <= |feed|
        invariant working ==> complete == old(complete)
        invariant working ==> Resumes(run, start, resultQueue.items, consumed,
                                      WorkOn(index, chunkSize, matcher, files, feed[consumed..]))
        invariant !working ==> complete && Resumes(run, start, resultQueue.items, consumed, WorkRun([], 0, true))
        decreases |feed| - consumed
      {
        ghost var before := resultQueue.items;
        PassFacts(index, chunkSize, matcher, files, feed, consumed);
        Dispatch(files, feed[consumed]);
        consumed := consumed + 1;
        assert before + Posted(StepEvents(index, chunkSize, matcher, files, feed[consumed - 1]))
               == resultQueue.items;
      }
      if working {
        assert feed[consumed..] == [];
      }
    }
  }
}
