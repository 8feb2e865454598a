/**
 * Values shared by the components of the scanning engine: paths and bytes,
 * the failures the engine raises, the global scan status, the items that
 * travel on the file queue and the events that travel on the result queue.
 */
module ScanTypes {

  type byte = x: int | 0 <= x < 256

  /** A file-system path, as the string the operating system hands back. */
  type Path = string

  /** The failures the engine raises or carries on its queues. */
  datatype Error =
    | ScanningException(message: string)
    | ScanConfigurationException(message: string)
    | OSError(path: Path)
    | IndexError(index: nat)

  const DIRECTORY_SEARCH_FAILED: string := "Directory search failed"
  const POOL_ALREADY_STARTED: string := "Worker pool has already been started"
  const POOL_NOT_STARTED: string := "Worker pool has not been started"
  const NO_SCAN_PATHS: string := "At least one scan path must be specified"

  datatype Option<T> = None | Some(value: T)

  datatype Outcome = Pass | Fail(error: Error)

  datatype Result<T> = Ok(value: T) | Err(error: Error)

  /** The global scan status shared by the coordinator and every worker. */
  datatype Status = LocatingFiles | ProcessingFiles | Complete | Failed

  /**
   * An item of the file queue: a discovered path, the end-of-stream
   * sentinel (`None` in the source), or the failure that ended discovery.
   */
  datatype WorkItem = FilePath(path: Path) | EndOfFiles | Failure(error: Error)

  /**
   * The matcher's final mapping from signature id to match state. Only
   * whether it is empty is observed by the engine.
   */
  type Matches = map<int, int>

  /** What a scan event reports; the five event types of the source. */
  datatype Payload =
    | Completed
    | FileQueueEmptied
    | FileProcessed(path: Path, length: nat, matches: Matches)
    | Exception(error: Error)
    | FatalException(error: Error)

  datatype ScanEvent = ScanEvent(workerIndex: nat, payload: Payload)

  /** A first-in first-out channel; `items` is what it holds, front first. */
  class Queue<T> {
    var items: seq<T>

    constructor ()
      ensures items == []
    {
      items := [];
    }

    method Put(x: T)
      modifies this
      ensures items == old(items) + [x]
    {
      items := items + [x];
    }

    /** A blocking read; on an empty channel the source waits, so callers hold an item. */
    method Get() returns (x: T)
      requires items != []
      modifies this
      ensures x == old(items)[0] && items == old(items)[1..]
    {
      x := items[0];
      items := items[1..];
    }
  }
}
