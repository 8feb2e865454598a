/**
 * Per-worker throughput counters: for each worker index, the number of
 * files it processed and the number of bytes it read, with grand totals.
 * Only the coordinator writes them, one FILE_PROCESSED event at a time.
 */
module Metrics {
  import opened ScanTypes

  /** The sum of a list of counters. */
  function Sum(s: seq<int>): int
  {
    if s == [] then 0 else Sum(s[..|s| - 1]) + s[|s| - 1]
  }

  /** `n` zero counters (`[0] * n`, which is empty when `n` is not positive). */
  function Zeros(n: int): (r: seq<int>)
    ensures |r| == if n < 0 then 0 else n
    ensures forall k :: 0 <= k < |r| ==> r[k] == 0
  {
    if n <= 0 then [] else Zeros(n - 1) + [0]
  }

  lemma {:induction false} SumZeros(n: int)
    ensures Sum(Zeros(n)) == 0
  {
    if n > 0 {
      assert Zeros(n)[..n - 1] == Zeros(n - 1);
      SumZeros(n - 1);
    }
  }

  /** Adding `d` at one index adds `d` to the sum. */
  lemma {:induction false} SumUpdate(s: seq<int>, i: nat, d: int)
    requires i < |s|
    ensures Sum(s[i := s[i] + d]) == Sum(s) + d
  {
    var s' := s[i := s[i] + d];
    var n := |s|;
    if i == n - 1 {
      assert s'[..n - 1] == s[..n - 1];
    } else {
      assert s'[..n - 1] == s[..n - 1][i := s[i] + d];
      SumUpdate(s[..n - 1], i, d);
    }
  }

  lemma {:induction false} SumPrefix(s: seq<int>, i: nat)
    requires i < |s|
    ensures Sum(s[..i + 1]) == Sum(s[..i]) + s[i]
  {
    assert s[..i + 1][..i] == s[..i];
  }

  /** The two counter lists as a value. */
  datatype Tally = Tally(counts: seq<int>, bytes: seq<int>)

  predicate Recordable(t: Tally, i: nat)
  {
    i < |t.counts| && i < |t.bytes|
  }

  /** One processed file of `length` bytes credited to worker `i`. */
  function Record(t: Tally, i: nat, length: int): Tally
    requires Recordable(t, i)
  {
    Tally(t.counts[i := t.counts[i] + 1], t.bytes[i := t.bytes[i] + length])
  }

  /** A file result: the worker index and the byte length. */
  datatype FileResult = FileResult(worker: nat, length: int)

  predicate AllRecordable(t: Tally, results: seq<FileResult>)
  {
    forall k :: 0 <= k < |results| ==> Recordable(t, results[k].worker)
  }

  /** The results recorded one after the other, first one first. */
  function RecordAll(t: Tally, results: seq<FileResult>): Tally
    requires |t.counts| == |t.bytes| && AllRecordable(t, results)
    decreases |results|
  {
    if results == [] then t
    else RecordAll(Record(t, results[0].worker, results[0].length), results[1..])
  }

  function SumLengths(results: seq<FileResult>): int
  {
    if results == [] then 0 else results[0].length + SumLengths(results[1..])
  }

  /**
   * After k recorded results the total file count has risen by k and the
   * total byte count by the sum of the recorded lengths; no worker's
   * counters are created or lost.
   */
  lemma {:induction false} RecordAllTotals(t: Tally, results: seq<FileResult>)
    requires |t.counts| == |t.bytes| && AllRecordable(t, results)
    ensures |RecordAll(t, results).counts| == |t.counts|
    ensures |RecordAll(t, results).bytes| == |t.bytes|
    ensures Sum(RecordAll(t, results).counts) == Sum(t.counts) + |results|
    ensures Sum(RecordAll(t, results).bytes) == Sum(t.bytes) + SumLengths(results)
    decreases |results|
  {
    if results != [] {
      var r := results[0];
      var t' := Record(t, r.worker, r.length);
      SumUpdate(t.counts, r.worker, 1);
      SumUpdate(t.bytes, r.worker, r.length);
      assert AllRecordable(t', results[1..]) by {
        forall k | 0 <= k < |results[1..]|
          ensures Recordable(t', results[1..][k].worker)
        {
          assert results[1..][k] == results[k + 1];
        }
      }
      RecordAllTotals(t', results[1..]);
    }
  }

  /** The metrics object the coordinator updates in place. */
  class ScanMetrics {
    var counts: seq<int>
    var bytes: seq<int>

    ghost predicate Valid()
      reads this
    {
      |counts| == |bytes|
    }

    function State(): Tally
      reads this
    {
      Tally(counts, bytes)
    }

    /** `worker_count` workers, every counter 0, so both totals are 0. */
    constructor (workerCount: int)
      ensures Valid()
      ensures |counts| == |bytes| == (if workerCount < 0 then 0 else workerCount)
      ensures forall k :: 0 <= k < |counts| ==> counts[k] == 0 && bytes[k] == 0
      ensures Sum(counts) == 0 && Sum(bytes) == 0
    {
      counts := Zeros(workerCount);
      bytes := Zeros(workerCount);
      SumZeros(workerCount);
    }

    /**
     * Credits one file of `length` bytes to worker `workerIndex`; an index
     * past the end raises IndexError and changes nothing.
     */
    method RecordResult(workerIndex: nat, length: int) returns (outcome: Outcome)
      requires Valid()
      modifies this
      ensures Valid()
      ensures outcome == if workerIndex < |old(counts)| then Pass else Fail(IndexError(workerIndex))
      ensures outcome.Pass? ==>
        && counts == old(counts)[workerIndex := old(counts)[workerIndex] + 1]
        && bytes == old(bytes)[workerIndex := old(bytes)[workerIndex] + length]
        && State() == Record(old(State()), workerIndex, length)
        && Sum(counts) == Sum(old(counts)) + 1
        && Sum(bytes) == Sum(old(bytes)) + length
      ensures outcome.Fail? ==> counts == old(counts) && bytes == old(bytes)
    {
      if workerIndex >= |counts| {
        return Fail(IndexError(workerIndex));
      }
      SumUpdate(counts, workerIndex, 1);
      SumUpdate(bytes, workerIndex, length);
      counts := counts[workerIndex := counts[workerIndex] + 1];
      bytes := bytes[workerIndex := bytes[workerIndex] + length];
      outcome := Pass;
    }

    /** The total of one counter list, accumulated left to right. */
    static method AggregateIntMetric(metric: seq<int>) returns (total: int)
      ensures total == Sum(metric)
    {
      total := 0;
      for i := 0 to |metric|
        invariant total == Sum(metric[..i])
      {
        SumPrefix(metric, i);
        total := total + metric[i];
      }
      assert metric[..|metric|] == metric;
    }

    method GetTotalCount() returns (total: int)
      ensures total == Sum(counts)
    {
      total := AggregateIntMetric(counts);
    }

    method GetTotalBytes() returns (total: int)
      ensures total == Sum(bytes)
    {
      total := AggregateIntMetric(bytes);
    }
  }
}
