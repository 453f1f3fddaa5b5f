/**
  `ScanModel` of the Sky app: counters the UI shows while scan tasks run, and the
  runner that scans the inputs 0, 1, ..., total - 1 strictly one after another.
 */
module Scan {
  import opened Common
  import Text

  /** A failed scan (the unreliable API that fails it is not part of this model). */
  datatype ScanError = ScanFailed(input: int)

  /** `ScanTask.run()`: the input's decimal text, unless the API fails for that input. */
  function RunScan(input: int, failing: set<int>): (r: Result<string, ScanError>)
    ensures r.Ok? <==> input !in failing
    ensures r.Ok? ==> Text.ParseInt(r.value) == Some(input)
    ensures r.Err? ==> r.error == ScanFailed(input)
  {
    Text.ParseIntToString(input);
    if input in failing then Err(ScanFailed(input)) else Ok(Text.IntToString(input))
  }

  /** The first of the inputs 0, ..., total - 1 whose scan fails, if any. */
  function FirstFailure(total: nat, failing: set<int>): (r: Option<nat>)
    ensures r.Some? ==> r.value < total && r.value in failing
    ensures r.Some? ==> forall k :: 0 <= k < r.value ==> k !in failing
    ensures r.None? <==> forall k :: 0 <= k < total ==> k !in failing
  {
    if total == 0 then None
    else match FirstFailure(total - 1, failing)
      case Some(k) => Some(k)
      case None => if total - 1 in failing then Some(total - 1) else None
  }

  /** The results of scanning 0, ..., n - 1 in that order, all succeeding. */
  function ScanResults(n: nat): (r: seq<string>)
    ensures |r| == n
  {
    if n == 0 then [] else ScanResults(n - 1) + [Text.IntToString(n - 1)]
  }

  /** Entry `i` of the results is the scan of input `i`: the results come in ascending input order. */
  lemma {:induction false} ScanResultsInOrder(n: nat, i: nat)
    requires i < n
    ensures ScanResults(n)[i] == Text.IntToString(i)
    ensures Text.ParseInt(ScanResults(n)[i]) == Some(i)
  {
    if i < n - 1 {
      ScanResultsInOrder(n - 1, i);
    }
    Text.ParseIntToString(i);
  }

  /** Different inputs give different entries. */
  lemma ScanResultsDistinct(n: nat, i: nat, j: nat)
    requires i < n && j < n && i != j
    ensures ScanResults(n)[i] != ScanResults(n)[j]
  {
    ScanResultsInOrder(n, i);
    ScanResultsInOrder(n, j);
  }

  /** What `runAllTasks` yields: every result in order, or the failure of the first failing input. */
  function ExpectedRun(total: nat, failing: set<int>): Result<seq<string>, ScanError> {
    match FirstFailure(total, failing)
    case None => Ok(ScanResults(total))
    case Some(k) => Err(ScanFailed(k))
  }

  class ScanModel {
    var counted: int
    /** Tasks scheduled for execution and not yet completed. */
    var scheduled: int
    /** Completed scan tasks. */
    var completed: int
    var total: int
    /**
      The highest value `scheduled` has reached since the current run of all tasks began:
      how many workers that run ever had in flight at once.
     */
    ghost var peakScheduled: int

    /** `init(total:localName:)`; the local name is not used by the model. */
    constructor (total: int, localName: string)
      ensures this.total == total
      ensures scheduled == 0 && completed == 0 && counted == 0 && peakScheduled == 0
    {
      this.total := total;
      scheduled, completed, counted := 0, 0, 0;
      peakScheduled := 0;
    }

    method OnTaskCompleted()
      modifies this
      ensures completed == old(completed) + 1 && counted == old(counted) + 1 && scheduled == old(scheduled) - 1
      ensures total == old(total) && peakScheduled == old(peakScheduled)
    {
      completed := completed + 1;
      counted := counted + 1;
      scheduled := scheduled - 1;
    }

    method OnScheduled()
      modifies this
      ensures scheduled == old(scheduled) + 1
      ensures completed == old(completed) && counted == old(counted) && total == old(total)
      ensures peakScheduled == Max(old(peakScheduled), scheduled)
    {
      scheduled := scheduled + 1;
      peakScheduled := Max(peakScheduled, scheduled);
    }

    /**
      `worker(number:)`: counts the task as scheduled, runs the scan, counts it as completed.
      A failing scan leaves the worker before the completion is counted.
     */
    method Worker(number: int, failing: set<int>) returns (r: Result<string, ScanError>)
      modifies this
      ensures r == RunScan(number, failing)
      ensures r.Ok? ==> scheduled == old(scheduled) && completed == old(completed) + 1 && counted == old(counted) + 1
      ensures r.Err? ==> scheduled == old(scheduled) + 1 && completed == old(completed) && counted == old(counted)
      ensures total == old(total) && peakScheduled == Max(old(peakScheduled), old(scheduled) + 1)
    {
      OnScheduled();
      var result := RunScan(number, failing);
      if result.Err? {
        return result;
      }
      OnTaskCompleted();
      return result;
    }

    /**
      `runAllTasks()`: runs the workers for 0, ..., total - 1, each after the previous one has
      returned, and collects their results in that order.
     */
    method RunAllTasks(failing: set<int>) returns (r: Result<seq<string>, ScanError>)
      requires total >= 0
      modifies this
      ensures total == old(total)
      ensures r == ExpectedRun(old(total), failing)
      ensures r.Ok? ==> scheduled == old(scheduled) && completed == old(completed) + total && counted == old(counted) + total
      ensures r.Err? ==> scheduled == old(scheduled) + 1
      ensures r.Err? ==> completed == old(completed) + r.error.input && counted == old(counted) + r.error.input
      ensures completed - counted == old(completed) - old(counted)
      ensures peakScheduled <= old(scheduled) + 1
      ensures old(total) > 0 ==> peakScheduled == old(scheduled) + 1
    {
      peakScheduled := scheduled;
      var scans: seq<string> := [];
      var number := 0;
      while number < total
        invariant 0 <= number <= total == old(total)
        invariant scans == ScanResults(number)
        invariant forall k :: 0 <= k < number ==> k !in failing
        invariant scheduled == old(scheduled)
        invariant completed == old(completed) + number && counted == old(counted) + number
        invariant old(scheduled) <= peakScheduled <= old(scheduled) + 1
        invariant number > 0 ==> peakScheduled == old(scheduled) + 1
      {
        var result := Worker(number, failing);
        if result.Err? {
          assert FirstFailure(total, failing) == Some(number);
          return Err(result.error);
        }
        scans := scans + [result.value];
        number := number + 1;
      }
      return Ok(scans);
    }
  }
}
