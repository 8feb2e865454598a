# Scanning engine core, modelled in Dafny

This project models the sequential core of the Wordfence file-scanning
engine (`wordfence/scanning/scanner.py`):

- **Discovery.** A file locator walks each configured root depth-first and
  puts every regular file it finds on a file queue. A discovery service
  closes that queue with an end-of-stream sentinel, or with the failure
  that ended the walk.
- **Workers.** Scan workers take paths from the file queue. Each file is
  streamed through a fresh matcher context in fixed-size chunks. The
  outcome is reported as an event on a result queue.
- **Coordinator.** The coordinator (the worker pool) consumes those events:
  - it credits each processed file to per-worker metrics;
  - it moves the global status from LOCATING_FILES to PROCESSING_FILES
    when discovery ends, or to FAILED on a fatal error;
  - it closes the result stream with a sentinel once every worker has
    completed.
- **Scan.** The scan entry point refuses an empty path set, then hands
  every path to discovery.

Modules, one per file:

- `ScanTypes` (`scan_types.dfy`): shared values, including a FIFO `Queue`
  class.
- `Metrics` (`metrics.dfy`): the `ScanMetrics` class.
- `Locator` (`locator.dfy`): the directory walk and the `FileLocator`
  class.
- `LocatorProcess` (`locator_process.dfy`): the discovery service.
- `Worker` (`worker.dfy`): the chunked read and the `ScanWorker` class.
- `Pool` (`pool.dfy`): the `ScanWorkerPool` coordinator.
- `Scanner` (`scanner.dfy`): the scan guard and path submission.

The source's queue-driven loops are Dafny methods with loop invariants:
`locate`'s queuing, `run`, the chunked read, `work`, `await_results`,
`start`, `is_complete`, the metrics sum and the path submission. A few
loops are not methods:

- The entry loop of `search_directory` belongs to a recursive generator.
  It is the recursive function `SearchEntries`.
- The `join` loop of `stop` and the `terminate` loop of `terminate` act on
  processes and are not modelled.
- The match-report loop in `await_results` only prints and is not
  modelled.

Each method that runs a loop over a queue is proved against a pure
function that describes the whole run:

| method | function it is proved against |
|---|---|
| `FileLocator.Locate` | `LocateWalk` |
| `FileLocatorProcess.Run` | `RunOn` |
| `ScanWorker.Work` | `WorkOn` |
| `ScanWorkerPool.AwaitResults` | `AwaitOn` |

Lemmas then state what the source promises about those functions.

Some parts of the environment are inputs instead:

- The file system is a tree datatype: `Node` with files, listable
  directories, unlistable directories (`Fault`) and other entries. Roots
  resolve through a map from configured path to node.
- File contents are a map from path to bytes, or to "unreadable".
- A worker's queue reads are a sequence of `Read` values: an item, or an
  empty read together with the status seen at that moment.

## Model

| member | source | states |
|---|---|---|
| ScanTypes.Queue.constructor | wordfence/scanning/scanner.py:75-76 | A new queue is empty. |
| ScanTypes.Queue.Put | wordfence/scanning/scanner.py:64 | `put` appends the item at the back; the items before it stay in place. |
| ScanTypes.Queue.Get | wordfence/scanning/scanner.py:87 | `get` on a non-empty queue removes and returns the front item, first in, first out. |
| Metrics.ScanMetrics.constructor | wordfence/scanning/scanner.py:195-200 | A negative worker count gives no counters; otherwise one zero counter per worker in both lists, so both totals are 0. |
| Metrics.Zeros | wordfence/scanning/scanner.py:199-200 | `[0] * n` has max(0, n) entries, all 0. |
| Metrics.SumZeros | wordfence/scanning/scanner.py:195-200 | A fresh metrics list sums to 0. |
| Metrics.Record | wordfence/scanning/scanner.py:202-204 | One result credited to one worker, as a value. Its totals are stated by `Metrics.SumUpdate` and `Metrics.RecordAllTotals`. |
| Metrics.ScanMetrics.RecordResult | wordfence/scanning/scanner.py:202-204 | An in-range index gains one file and `length` bytes at that index only, and both totals rise accordingly. An out-of-range index raises IndexError and changes nothing. |
| Metrics.SumUpdate | wordfence/scanning/scanner.py:202-204 | Adding d to one counter adds d to the list's total. |
| Metrics.RecordAllTotals | wordfence/scanning/scanner.py:202-216 | After any sequence of recorded results, the total count has risen by their number and the total bytes by the sum of their lengths. No counter is created or lost. |
| Metrics.ScanMetrics.AggregateIntMetric | wordfence/scanning/scanner.py:206-210 | The left-to-right accumulation equals the sum of the list. |
| Metrics.ScanMetrics.GetTotalCount | wordfence/scanning/scanner.py:212-213 | Returns the sum of the per-worker file counts. |
| Metrics.ScanMetrics.GetTotalBytes | wordfence/scanning/scanner.py:215-216 | Returns the sum of the per-worker byte counts. |
| Locator.SearchDirectory | wordfence/scanning/scanner.py:47-57 | `search_directory` on a directory node. An unlistable directory raises before yielding anything; a listed one walks its entries. `Locator.SearchDirectoryContract` states what it yields. |
| Locator.SearchEntries | wordfence/scanning/scanner.py:50-57 | The loop over a listed directory's entries from entry k on: recurse into a directory, yield a file, skip anything else, stop at the first raise. `Locator.SearchEntriesIsUpToFault` states what it yields. |
| Locator.LocateWalk | wordfence/scanning/scanner.py:59-66 | `locate` on one root: search a directory, pass anything else on as it is. `Locator.LocateContract` states what it yields. |
| Locator.UpToFaultShape | wordfence/scanning/scanner.py:47-57 | The cut leaf list raises iff it holds an unlistable directory. Without one it is every file path; in any case it is a prefix of them. |
| Locator.SearchIsUpToFault | wordfence/scanning/scanner.py:47-57 | The search equals an independent definition: the tree's leaves in depth-first entry order, cut at the first unlistable directory. |
| Locator.SearchEntriesIsUpToFault | wordfence/scanning/scanner.py:50-55 | The loop over one directory's entries, from any entry on, matches that leaf order. Subdirectories are searched where they stand; non-files are skipped. |
| Locator.UpToFaultAppend | wordfence/scanning/scanner.py:50-57 | A walk over two leaf runs is the first run's walk followed by the second's, unless the first already raised. |
| Locator.SearchDirectoryContract | wordfence/scanning/scanner.py:47-57 | The search raises ScanningException iff some directory in the tree cannot be listed. Without one, it yields every regular file depth-first in entry order. With one, it has yielded a prefix of that list. |
| Locator.LocateContract | wordfence/scanning/scanner.py:59-66 | A root that is not a directory is yielded alone and never raises. A directory root is searched as above. |
| Locator.FileLocator.constructor | wordfence/scanning/scanner.py:42-45 | A new locator has its root and output queue, and has located nothing. |
| Locator.FileLocator.Locate | wordfence/scanning/scanner.py:47-66 | Queues exactly the walk's paths in order, then raises iff the walk failed. `located_count` grows by the number of files found by a directory walk, and not for a single-file root. |
| Locator.PathItems | wordfence/scanning/scanner.py:63-64 | The queue items for located paths: one FilePath item per path, in the same order. |
| Locator.PathItemsAppend | wordfence/scanning/scanner.py:63-64 | Queuing two runs of paths one after the other queues their concatenation. |
| LocatorProcess.RunOn | wordfence/scanning/scanner.py:89-96 | The service takes at least one input item, and never more than the input holds. |
| LocatorProcess.Resolve | wordfence/scanning/scanner.py:61 | The node at a root's real path. A root with no entry is a non-directory under its configured string. |
| LocatorProcess.RunOnPaths | wordfence/scanning/scanner.py:89-96 | Every output item except the last is a located path. |
| LocatorProcess.RunOnTerminator | wordfence/scanning/scanner.py:89-96 | The last output item is the sentinel iff no root's search failed, and otherwise the "Directory search failed" failure. So exactly one terminator is written. |
| LocatorProcess.RunOnLocatesAll | wordfence/scanning/scanner.py:89-96 | With no failure, the output is every root's located paths in input order, then the sentinel. The service takes every root and the end-of-input marker. |
| LocatorProcess.RunOnFails | wordfence/scanning/scanner.py:89-96 | When root k is the first whose search fails, the output is every path located under the earlier roots, then the paths that root's search yielded, then the failure. The service takes exactly k + 1 input items. |
| LocatorProcess.SomeRootFailsCons | wordfence/scanning/scanner.py:91-93 | Some root fails iff the first root fails or some later root fails. |
| LocatorProcess.RunOnHead | wordfence/scanning/scanner.py:91-93 | `RunOn` on an input whose first item is a root. A root whose search fails gives its yielded paths and the failure, taking one item. Otherwise its paths come first, then the rest of the run, one item more. |
| LocatorProcess.RunOnStep | wordfence/scanning/scanner.py:91-93 | One pass of the loop, stated on the output channel with any earlier output in front: a failed root ends the output with the failure; otherwise its paths come first and the rest of the output follows. |
| LocatorProcess.FileLocatorProcess.Run | wordfence/scanning/scanner.py:89-96 | Appends exactly `RunOn`'s output to the file queue and takes exactly `RunOn`'s count of input items. |
| LocatorProcess.FileLocatorProcess.constructor | wordfence/scanning/scanner.py:71-78 | Both channels are new and empty. |
| LocatorProcess.FileLocatorProcess.AddPath | wordfence/scanning/scanner.py:80-81 | Appends the path to the input channel. |
| LocatorProcess.FileLocatorProcess.FinalizePaths | wordfence/scanning/scanner.py:83-84 | Appends the end-of-input marker. |
| LocatorProcess.FileLocatorProcess.GetNextFile | wordfence/scanning/scanner.py:86-87 | Removes and returns the front of the file queue. |
| Worker.ReadChunk | wordfence/scanning/scanner.py:178 | `file.read(n)` at a position; the result stays within the file. `Worker.ReadChunkContract` states the rest. |
| Worker.ChunksFrom | wordfence/scanning/scanner.py:178-180 | The chunks the read loop feeds, from a position on. `Worker.ChunksContract` states their properties. |
| Worker.ReadChunkContract | wordfence/scanning/scanner.py:178 | A read returns the next bytes of the file. It returns at most n bytes for non-negative n, fewer only at the end of the file, and nothing exactly when n is 0 or the file is exhausted. |
| Worker.ChunksContract | wordfence/scanning/scanner.py:178-180 | For every chunk size except 0 (the source allows -1 or a positive size), the chunks concatenate back to the whole file and none is empty. A positive size bounds every chunk and fills all but the last. Size 0 reads nothing. |
| Worker.TotalLengthIsConcatLength | wordfence/scanning/scanner.py:179 | The running length total equals the length of the concatenated chunks. |
| Worker.LengthIsFileSize | wordfence/scanning/scanner.py:177-179 | The reported length is the file size, for a positive chunk size and for -1 (in the model, for every chunk size except 0). |
| Worker.ReadStep | wordfence/scanning/scanner.py:178-180 | One pass of the read loop either ends with every chunk already fed, or feeds the next chunk and advances. |
| Worker.ScanWorker.StreamFile | wordfence/scanning/scanner.py:176-181 | The loop's length is the file's size for a positive chunk size or -1 (0 for chunk size 0). The matches are the matcher applied to exactly the file's chunks, in order. |
| Worker.MatchContext.ProcessChunk | wordfence/scanning/scanner.py:180 | Feeds one more chunk to the context, after those already fed. |
| Worker.MatchContext.constructor | wordfence/scanning/scanner.py:176 | `create_context`: a fresh context for the matcher, with no chunk fed yet. |
| Worker.MatchContext.GetMatches | wordfence/scanning/scanner.py:181 | `get_matches`: the matcher applied to exactly the chunks fed, in order. |
| Worker.FileEvent | wordfence/scanning/scanner.py:173-187 | The one event `_process_file` puts for a path: EXCEPTION for a file that cannot be opened or read, otherwise FILE_PROCESSED with the streamed length and matches. `Worker.ScanWorker.ProcessFile` is proved to put it. |
| Worker.ScanWorker.ProcessFile | wordfence/scanning/scanner.py:173-187 | Puts exactly one event: FILE_PROCESSED with the path, length and matches, or EXCEPTION when the file cannot be opened or read. |
| Worker.ScanWorker.constructor | wordfence/scanning/scanner.py:120-137 | A new worker is working and not complete. |
| Worker.ScanWorker.PutEvent | wordfence/scanning/scanner.py:162-163 | Appends one event carrying the worker's index. |
| Worker.ScanWorker.CompleteWork | wordfence/scanning/scanner.py:165-168 | Stops working, latches `complete` and puts COMPLETED. |
| Worker.ScanWorker.IsComplete | wordfence/scanning/scanner.py:170-171 | The worker's completion flag. Only `Worker.ScanWorker.CompleteWork` sets it, and `Worker.ScanWorker.Work` states when. |
| Worker.ScanWorker.Dispatch | wordfence/scanning/scanner.py:146-160 | One pass of the loop puts `StepEvents` of the read. The worker stops and latches completion exactly on the sentinel or on an empty read during PROCESSING_FILES. |
| Worker.ScanWorker.Work | wordfence/scanning/scanner.py:142-160 | Puts exactly `WorkOn`'s events and takes `WorkOn`'s count of reads. It is still working iff the run did not complete. `complete` is set iff it was set before or the run completed. |
| Worker.StepEvents | wordfence/scanning/scanner.py:146-160 | The events one pass of `work` puts for one read. `Worker.StepFacts` states them per read kind. |
| Worker.WorkOn | wordfence/scanning/scanner.py:145-160 | The whole `work` loop over a sequence of reads; it never takes more reads than there are. `Worker.WorkEnds`, `Worker.WorkCompletedOnce`, `Worker.WorkEmptiedOnce` and `Worker.WorkAccounting` state what it puts. |
| Worker.WorkOnStep | wordfence/scanning/scanner.py:145-160 | One pass at any position: an ending read finishes the run; otherwise its events come first and the rest of the run follows. |
| Worker.PassFacts | wordfence/scanning/scanner.py:145-160 | The same pass, stated on the result queue's contents. |
| Worker.StepFacts | wordfence/scanning/scanner.py:146-160 | Per read kind: the sentinel puts exactly FILE_QUEUE_EMPTIED then COMPLETED. A failure read puts exactly one event, a FATAL_EXCEPTION carrying that failure's own error. A path puts exactly one event, a FILE_PROCESSED or EXCEPTION. An empty read puts exactly one COMPLETED during PROCESSING_FILES and nothing under any other status. Each kind's count is stated: COMPLETED, FILE_QUEUE_EMPTIED, file answers and FATAL_EXCEPTION. |
| Worker.CountAppend | wordfence/scanning/scanner.py:162-163 | The number of events of a kind in two runs is the sum of their numbers. |
| Worker.SomeEndCons | wordfence/scanning/scanner.py:145-160 | Some read ends the run iff the first read does or some later read does. |
| Worker.WorkEnds | wordfence/scanning/scanner.py:145-160 | The run completes iff the reads contain a sentinel, or an empty read during PROCESSING_FILES. It stops at the first such read and takes nothing after it. Without one it takes every read. |
| Worker.WorkCompletedOnce | wordfence/scanning/scanner.py:145-168 | COMPLETED is put exactly once, as the last event, if the run completes, and never otherwise. When the sentinel ended the run, FILE_QUEUE_EMPTIED comes just before it. |
| Worker.WorkEmptiedOnce | wordfence/scanning/scanner.py:145-160 | FILE_QUEUE_EMPTIED is put exactly once if the sentinel ended the run, and never otherwise. |
| Worker.WorkEventsIndexed | wordfence/scanning/scanner.py:162-163 | Every event of a run carries the worker's index. |
| Worker.WorkAccounting | wordfence/scanning/scanner.py:145-187 | Each path taken is answered by exactly one FILE_PROCESSED or EXCEPTION event. Each propagated failure is answered by exactly one FATAL_EXCEPTION event. |
| Worker.PostedAppend | wordfence/scanning/scanner.py:162-163 | Putting two runs of events one after the other puts their concatenation. |
| Pool.ScanWorkerPool.constructor | wordfence/scanning/scanner.py:221-234 | A new pool is not started and has no workers. |
| Pool.ScanWorkerPool.Start | wordfence/scanning/scanner.py:243-260 | A second start raises "already started" and changes nothing. Otherwise it creates max(0, size) new workers, numbered from 0, all working and not complete, on one new empty result queue. The status starts at LOCATING_FILES. |
| Pool.ScanWorkerPool.AssertStarted | wordfence/scanning/scanner.py:262-264 | Passes iff the pool was started; otherwise raises "has not been started". |
| Pool.ScanWorkerPool.Stop | wordfence/scanning/scanner.py:266-269 | Raises exactly when the pool was not started. |
| Pool.ScanWorkerPool.Terminate | wordfence/scanning/scanner.py:271-274 | Raises exactly when the pool was not started. |
| Pool.ScanWorkerPool.IsComplete | wordfence/scanning/scanner.py:276-281 | Raises if not started. Otherwise true iff every worker's completion flag is set, which is true of an empty pool. |
| Pool.Handle | wordfence/scanning/scanner.py:294-318 | The handling of one event: record a file, raise IndexError for an unknown worker, switch to PROCESSING_FILES, ignore an EXCEPTION, or set FAILED and raise. `Pool.AwaitStatus`, `Pool.AwaitRecordsAll`, `Pool.AwaitFatal` and `Pool.AwaitFatalRecords` state its effect over a queue. |
| Pool.AwaitOn | wordfence/scanning/scanner.py:286-318 | The whole `await_results` loop from a state. `Pool.AwaitStatus`, `Pool.AwaitReturns`, `Pool.AwaitEndsAs` and `Pool.AwaitFatal` state how it ends. |
| Pool.HandleDecreases | wordfence/scanning/scanner.py:285-318 | Every handled event brings the loop closer to an end, although a COMPLETED event may put a sentinel back. |
| Pool.AwaitOnStep | wordfence/scanning/scanner.py:286-318 | One event of the loop: either it goes on from the handled state, or it stops there with the handler's outcome. |
| Pool.ScanWorkerPool.AwaitResults | wordfence/scanning/scanner.py:283-318 | Raises if not started. Otherwise its outcome, metrics, status and remaining queue are exactly `AwaitOn`'s. |
| Pool.AwaitStatus | wordfence/scanning/scanner.py:308-318 | The status moves only to PROCESSING_FILES, after a FILE_QUEUE_EMPTIED event, or to FAILED, after a FATAL_EXCEPTION event; then the loop has raised. COMPLETE is never set. The counter lists keep their lengths. |
| Pool.AwaitFatal | wordfence/scanning/scanner.py:286-318 | A FATAL_EXCEPTION after well-formed events sets FAILED and raises exactly that event's error. Nothing after it is consumed: what is left is the rest of the queue, plus the sentinels put back for earlier COMPLETED events. |
| Pool.AwaitFatalRecords | wordfence/scanning/scanner.py:294-318 | When such a FATAL_EXCEPTION ends the loop, the metrics hold exactly the FILE_PROCESSED events before it, recorded in order, and none after it. |
| Pool.AwaitReturns | wordfence/scanning/scanner.py:286-293 | It returns only on a sentinel already queued or, when every worker is complete, on the one it put back after a COMPLETED event. It waits only on an empty queue. |
| Pool.AwaitLeavesSuffix | wordfence/scanning/scanner.py:290-293 | While some worker is incomplete no sentinel is put back: what is left is an unconsumed suffix of the queue. |
| Pool.AwaitRecordsAll | wordfence/scanning/scanner.py:294-298 | On well-formed events followed by nothing or a sentinel, the metrics end as every FILE_PROCESSED event recorded in order, and nothing else. |
| Pool.AwaitEndsAs | wordfence/scanning/scanner.py:283-318 | On such a queue the status ends at PROCESSING_FILES iff some FILE_QUEUE_EMPTIED was consumed. It returns iff a sentinel follows or every worker is complete and a COMPLETED came; otherwise it waits. |
| Pool.AwaitTotals | wordfence/scanning/scanner.py:294-298 | On such a queue the total count rises by the number of FILE_PROCESSED events, and the total bytes by the sum of their lengths. |
| Pool.OrderlyRecordable | wordfence/scanning/scanner.py:294-298 | Well-formed events credit only existing worker indices. |
| Scanner.CheckPaths | wordfence/scanning/scanner.py:347-350 | Passes iff the path set is non-empty. Otherwise it raises ScanConfigurationException "At least one scan path must be specified". |
| Scanner.SubmitPaths | wordfence/scanning/scanner.py:347-355 | Without paths it raises and submits nothing. Otherwise every configured path is submitted exactly once, in some order, followed by the end-of-input marker. |
| Scanner.SubmittedRoots | wordfence/scanning/scanner.py:353-355 | Discovery reads back exactly the submitted roots, in submission order, and finds the end-of-input marker. |

## Left out

- Processes, the bounded queue capacities and blocking are not modelled. The components run one after another on explicit inputs: the discovery service on a file-system tree, a worker on a given sequence of reads, the coordinator on the result queue as it stands. How the scheduler interleaves them is not modelled.
- Worker reads are given as inputs. The source's zero-timeout `get` on the shared work queue is replaced by a list of reads, each an item or an empty read with the status seen at that moment.
- Pool.ScanWorkerPool.AwaitResults: the source blocks on an empty result queue. The model returns `Waiting` there, with the state it reached.
- The coordinator's `is_complete` answer is a fixed input of `AwaitOn`. No worker runs while the coordinator does, so the flags cannot change.
- Operating-system calls are not modelled: `os.scandir`, `is_dir`/`is_file`, `os.path.realpath`, `open` and `read`. They become the `Node` tree, the root map and the file map. Symbolic links and loops are not modelled; the source itself leaves them as a TODO.
- `OSError` variants are not distinguished. "This entry cannot be listed" is one `Fault` node, and "this file cannot be opened or read" is one `Unreadable` entry.
- The matcher is an opaque function from the fed chunks to the final match mapping. `RegexMatcher` and the signature set are not part of this model, and neither are `create_context`, `process_chunk` and `get_matches` beyond feeding chunks in order.
- Printing and the timer are not modelled. This covers the match report in `await_results`, the start and summary messages, and `timing.Timer`.
- The effects of `worker.join()` in `stop` and `worker.terminate()` in `terminate` are process operations and are not modelled. Only the started guard is.
- `Scanner._initialize_worker`, `Scanner._handle_worker_error`, `ScanWorkerPool.is_failed` and the `Scanner` counters are not modelled. The first passes arguments that do not match `ScanWorker`'s constructor, and none of them is reached from `scan`.
- `Scanner.scan` after path submission is not composed into one method: creating the metrics and the pool, awaiting results and printing totals. Each of these steps is modelled on its own above.
- Status COMPLETE: nothing in the source sets it, and `AwaitStatus` proves the coordinator never does.
- Worker.ReadChunk: the buffered reader's `read(n)` raises ValueError for n below -1. The model reads to the end of the file instead.
- Worker.FileEvent: with a chunk size below -1 the source's ValueError is not an OSError, so it escapes `_process_file` and `work` and ends the worker without any further event. The model reports FILE_PROCESSED with the whole file instead. The lemmas on the chunked read, `Worker.ScanWorker.StreamFile` and the worker run hold for the model's behaviour, and match the source for chunk sizes of -1 and above.
- Metrics.ScanMetrics.RecordResult: worker indices are natural numbers, so Python's negative-index wrap-around is not modelled.
- The work queue object handed to each worker is not a field of the modelled pool or worker. The worker's reads are its input instead.

`Scanner.scan` checks only that the path set is non-empty (wordfence/scanning/scanner.py:347-350). `threads` and `chunk_size` are not validated. This model follows the code:

- A non-positive thread count starts no workers; the metrics have no counters.
- A chunk size of -1 reads the whole file at once.
- A chunk size of 0 reads nothing, so every readable file is reported with length 0 and with the matcher applied to no chunks.
