/**
 * A Qiskit job on the AQT API: one API job per circuit, a table from API job id to the last
 * status seen for it, the job status aggregated from that table, and the combined result.
 */
module AqtJob {
  import opened Outcomes
  import opened Dicts
  import opened Circuits
  import opened CircuitToAqt
  import opened ShotFormat

  /** The Qiskit job states an AQT job can report. */
  datatype JobStatus = Queued | Running | Cancelled | Done | Error

  /** The status tag kept for one API job, with the payload the API returned for it. */
  datatype JobTag =
    | JobFinished(samples: seq<seq<int>>)
    | JobFailed(error: string)
    | JobQueued
    | JobOngoing
    | JobCancelled
  {
    /** The `status` class attribute of each tag. */
    function Status(): JobStatus
    {
      match this
      case JobFinished(_) => Done
      case JobFailed(_) => Error
      case JobQueued => Queued
      case JobOngoing => Running
      case JobCancelled => Cancelled
    }
  }

  function Statuses(tags: seq<JobTag>): (r: seq<JobStatus>)
    ensures |r| == |tags| && forall i :: 0 <= i < |tags| ==> r[i] == tags[i].Status()
  {
    seq(|tags|, i requires 0 <= i < |tags| => tags[i].Status())
  }

  // ---------------------------------------------------------------------------------------------
  // _aggregate_status
  // ---------------------------------------------------------------------------------------------

  /** The precedence chain of `_aggregate_status`. */
  function Aggregate(statuses: seq<JobStatus>): JobStatus
  {
    if Error in statuses then Error
    else if Cancelled in statuses then Cancelled
    else if Running in statuses then Running
    else if forall s :: s in statuses ==> s == Queued then Queued
    else if forall s :: s in statuses ==> s == Done then Done
    else Queued
  }

  /** How far a status is from a finished success. */
  function Severity(s: JobStatus): nat
  {
    match s
    case Done => 0
    case Queued => 1
    case Running => 2
    case Cancelled => 3
    case Error => 4
  }

  /** The most severe status of a non-empty list. */
  function Worst(statuses: seq<JobStatus>): (w: JobStatus)
    requires statuses != []
    ensures w in statuses && forall s :: s in statuses ==> Severity(s) <= Severity(w)
  {
    if |statuses| == 1 then statuses[0]
    else
      var rest := Worst(statuses[1..]);
      assert forall s :: s in statuses ==> s == statuses[0] || s in statuses[1..];
      if Severity(statuses[0]) >= Severity(rest) then statuses[0] else rest
  }

  /**
   * The aggregate status is the most severe status in the table, ERROR over CANCELLED over
   * RUNNING over QUEUED over DONE; an empty table is QUEUED.
   */
  lemma AggregateIsWorst(statuses: seq<JobStatus>)
    ensures Aggregate(statuses) == if statuses == [] then Queued else Worst(statuses)
  {
    if statuses != [] {
      var w := Worst(statuses);
      if w == Done {
        assert forall s :: s in statuses ==> s == Done;
      } else if w == Queued {
        assert Error !in statuses && Cancelled !in statuses && Running !in statuses;
        assert exists s :: s in statuses && s != Done;
      }
    }
  }

  /** The job is DONE exactly when there is at least one entry and every entry is DONE. */
  lemma AggregateDone(statuses: seq<JobStatus>)
    ensures Aggregate(statuses) == Done <==> statuses != [] && forall s :: s in statuses ==> s == Done
  {
    if statuses != [] && forall s :: s in statuses ==> s == Done {
      assert statuses[0] in statuses;
    }
  }

  // ---------------------------------------------------------------------------------------------
  // _status_single: decoding the API's answer
  // ---------------------------------------------------------------------------------------------

  /**
   * The `result` field of an API status answer, read both as the shot samples it holds when the
   * job finished and as its `str()` when the job failed.
   */
  datatype ResultField = ResultField(asSamples: seq<seq<int>>, asText: string)

  /** `payload["response"]`: the status string and the result field. */
  datatype ApiResponse = ApiResponse(status: string, result: ResultField)

  function UnknownStatus(status: string): Exception
  {
    RuntimeError("API returned unknown job status: " + status + ".")
  }

  /** The tag `_status_single` stores for an API answer, or the error it raises. */
  function DecodeStatus(response: ApiResponse): Result<JobTag>
  {
    if response.status == "finished" then Ok(JobFinished(response.result.asSamples))
    else if response.status == "error" then Ok(JobFailed(response.result.asText))
    else if response.status == "queued" then Ok(JobQueued)
    else if response.status == "ongoing" then Ok(JobOngoing)
    else Err(UnknownStatus(response.status))
  }

  /** The API status string of each tag the API can report (it never reports a cancellation). */
  function StatusName(tag: JobTag): string
    requires !tag.JobCancelled?
  {
    match tag
    case JobFinished(_) => "finished"
    case JobFailed(_) => "error"
    case JobQueued => "queued"
    case JobOngoing => "ongoing"
  }

  /** An answer carrying a tag's status name and payload decodes to that tag. */
  lemma DecodeStatusRoundTrip(tag: JobTag, text: string, samples: seq<seq<int>>)
    requires !tag.JobCancelled?
    ensures var field := ResultField(if tag.JobFinished? then tag.samples else samples,
                                     if tag.JobFailed? then tag.error else text);
            DecodeStatus(ApiResponse(StatusName(tag), field)) == Ok(tag)
  {
  }

  /** Any status string other than the four the API defines is an error. */
  lemma DecodeStatusRejects(response: ApiResponse)
    ensures DecodeStatus(response).Err? <==> response.status !in {"finished", "error", "queued", "ongoing"}
    ensures DecodeStatus(response).Err? ==> DecodeStatus(response).error == UnknownStatus(response.status)
  {
  }

  // ---------------------------------------------------------------------------------------------
  // submit
  // ---------------------------------------------------------------------------------------------

  /** The index of the first circuit the converter rejects, or the number of circuits. */
  function FirstRejected(circuits: seq<Circuit>, shots: int): (k: nat)
    ensures k <= |circuits|
    ensures forall i :: 0 <= i < k ==> Request(circuits[i], shots).Ok?
    ensures k < |circuits| ==> Request(circuits[k], shots).Err?
  {
    if circuits == [] then 0
    else if Request(circuits[0], shots).Err? then 0
    else FirstRejected(circuits[1..], shots) + 1
  }

  /** `self._jobs[job_id] = JobQueued()` for each id, in order. */
  function QueueAll(jobs: Items<string, JobTag>, ids: seq<string>): Items<string, JobTag>
  {
    if ids == [] then jobs else Put(QueueAll(jobs, ids[..|ids| - 1]), ids[|ids| - 1], JobQueued)
  }

  /**
   * Submitting into an empty table with distinct ids from the backend gives exactly one QUEUED
   * entry per circuit, keyed by its id, in circuit order.
   */
  lemma {:induction false} QueueAllFresh(ids: seq<string>)
    requires forall i, j :: 0 <= i < j < |ids| ==> ids[i] != ids[j]
    ensures QueueAll([], ids) == seq(|ids|, i requires 0 <= i < |ids| => (ids[i], JobQueued))
  {
    if ids != [] {
      var init := ids[..|ids| - 1];
      QueueAllFresh(init);
      var before := QueueAll([], init);
      var last := ids[|ids| - 1];
      PutKeys(before, last, JobQueued);
      assert last !in Keys(before);
    }
  }

  /** Submission only adds keys: the table afterwards holds the old ids and the new ones. */
  lemma {:induction false} QueueAllKeys(jobs: Items<string, JobTag>, ids: seq<string>)
    ensures Keys(QueueAll(jobs, ids)) == Keys(jobs) + set id | id in ids
    ensures DistinctKeys(jobs) ==> DistinctKeys(QueueAll(jobs, ids))
  {
    if ids != [] {
      var init := ids[..|ids| - 1];
      QueueAllKeys(jobs, init);
      PutKeys(QueueAll(jobs, init), ids[|ids| - 1], JobQueued);
      if DistinctKeys(jobs) {
        PutDistinct(QueueAll(jobs, init), ids[|ids| - 1], JobQueued);
      }
      assert ids == init + [ids[|ids| - 1]];
    }
  }

  // ---------------------------------------------------------------------------------------------
  // The job
  // ---------------------------------------------------------------------------------------------

  const EvaluationFailed := RuntimeError("An error occurred during at least one circuit evaluation.")

  /** One entry of the combined result: the data and header `result()` builds for a circuit. */
  datatype ExperimentResult = ExperimentResult(
    shots: int, success: bool, status: JobStatus, counts: Option<Items<string, nat>>,
    memorySlots: nat, name: string)

  /** The result entry for one circuit and its tag; a finished job carries its counts. */
  function Experiment(circuit: Circuit, tag: JobTag, shots: int): (r: Result<ExperimentResult>)
    ensures r.Ok? ==> r.value.success == (tag.Status() == Done) && r.value.counts.Some? == tag.JobFinished?
  {
    if tag.JobFinished? then
      match FormatCounts(tag.samples, Some(MemoryMapping(circuit.data)))
      case Err(e) => Err(e)
      case Ok(counts) => Ok(ExperimentResult(shots, true, Done, Some(counts), circuit.numClbits, circuit.name))
    else Ok(ExperimentResult(shots, tag.Status() == Done, tag.Status(), None, circuit.numClbits, circuit.name))
  }

  /** The entries of a list of outcomes, or the first error among them. */
  function Collect<T>(outcomes: seq<Result<T>>): Result<seq<T>>
  {
    if outcomes == [] then Ok([])
    else match Collect(outcomes[..|outcomes| - 1])
      case Err(e) => Err(e)
      case Ok(xs) =>
        match outcomes[|outcomes| - 1]
        case Err(e) => Err(e)
        case Ok(x) => Ok(xs + [x])
  }

  /** Collecting succeeds exactly when every outcome does, and then keeps them all, in order. */
  lemma {:induction false} CollectSpec<T>(outcomes: seq<Result<T>>)
    ensures Collect(outcomes).Ok? <==> forall i :: 0 <= i < |outcomes| ==> outcomes[i].Ok?
    ensures Collect(outcomes).Ok? ==>
              |Collect(outcomes).value| == |outcomes|
              && forall i :: 0 <= i < |outcomes| ==> outcomes[i] == Ok(Collect(outcomes).value[i])
  {
    if outcomes != [] {
      var init := outcomes[..|outcomes| - 1];
      CollectSpec(init);
      assert forall i :: 0 <= i < |init| ==> init[i] == outcomes[i];
    }
  }

  /** The first error ends the collection. */
  lemma {:induction false} CollectStopsAtError<T>(outcomes: seq<Result<T>>, i: nat)
    requires i < |outcomes| && Collect(outcomes[..i]).Ok? && outcomes[i].Err?
    ensures Collect(outcomes) == Err(outcomes[i].error)
  {
    var init := outcomes[..|outcomes| - 1];
    if i == |outcomes| - 1 {
      assert init == outcomes[..i];
    } else {
      assert init[..i] == outcomes[..i];
      CollectStopsAtError(init, i);
    }
  }

  /** The outcome for each of the first `n` (circuit, tag) pairs. */
  function Entries(circuits: seq<Circuit>, tags: seq<JobTag>, shots: int, n: nat): (r: seq<Result<ExperimentResult>>)
    requires n <= |circuits| && n <= |tags|
    ensures |r| == n && forall i :: 0 <= i < n ==> r[i] == Experiment(circuits[i], tags[i], shots)
  {
    seq(n, i requires 0 <= i < n => Experiment(circuits[i], tags[i], shots))
  }

  /** The combined result `result()` returns once the job is final, or the error it raises. */
  function ResultOf(circuits: seq<Circuit>, tags: seq<JobTag>, shots: int): Result<seq<ExperimentResult>>
  {
    if Aggregate(Statuses(tags)) != Done then Err(EvaluationFailed)
    else Collect(Entries(circuits, tags, shots, Min(|circuits|, |tags|)))
  }

  /**
   * `result()` raises RuntimeError whenever the aggregate status is not DONE. Once every job is
   * DONE and every circuit's shots format, it returns; when it returns, every circuit's API job
   * finished and its entry is a success carrying the circuit's counts.
   */
  lemma CombinedResultSpec(circuits: seq<Circuit>, tags: seq<JobTag>, shots: int)
    ensures Aggregate(Statuses(tags)) != Done ==> ResultOf(circuits, tags, shots) == Err(EvaluationFailed)
    ensures ResultOf(circuits, tags, shots).Ok? ==>
              var rs := ResultOf(circuits, tags, shots).value;
              && |rs| == Min(|circuits|, |tags|)
              && forall i :: 0 <= i < |rs| ==>
                   && tags[i].JobFinished?
                   && rs[i].success && rs[i].counts.Some?
                   && FormatCounts(tags[i].samples, Some(MemoryMapping(circuits[i].data))) == Ok(rs[i].counts.value)
    ensures Aggregate(Statuses(tags)) == Done
            && (forall i :: 0 <= i < Min(|circuits|, |tags|) ==>
                  tags[i].JobFinished? ==> FormatCounts(tags[i].samples, Some(MemoryMapping(circuits[i].data))).Ok?)
            ==> ResultOf(circuits, tags, shots).Ok?
  {
    var statuses := Statuses(tags);
    AggregateDone(statuses);
    CollectSpec(Entries(circuits, tags, shots, Min(|circuits|, |tags|)));
    if ResultOf(circuits, tags, shots).Ok? {
      forall i | 0 <= i < Min(|circuits|, |tags|) ensures tags[i].JobFinished? {
        assert statuses[i] in statuses;
      }
    }
  }

  class Job {
    const circuits: seq<Circuit>
    const shots: int
    /** `_jobs`: API job id to status tag, in submission order. */
    var jobs: Items<string, JobTag>

    ghost predicate Valid()
      reads this
    {
      DistinctKeys(jobs)
    }

    constructor (circuits: seq<Circuit>, shots: int)
      ensures this.circuits == circuits && this.shots == shots && jobs == []
      ensures Valid()
    {
      this.circuits := circuits;
      this.shots := shots;
      jobs := [];
    }

    /** `_submit_single`: convert the circuit, and queue the id the backend answers with. */
    method SubmitSingle(circuit: Circuit, shots: int, jobId: string) returns (r: Result<()>)
      requires Valid()
      modifies this
      ensures Valid()
      ensures Request(circuit, shots).Err? ==> r == Err(Request(circuit, shots).error) && jobs == old(jobs)
      ensures Request(circuit, shots).Ok? ==> r == Ok(()) && jobs == Put(old(jobs), jobId, JobQueued)
    {
      var payload := CircuitToAqtNew(circuit, shots);
      if payload.Err? {
        return Err(payload.error);
      }
      PutDistinct(jobs, jobId, JobQueued);
      jobs := Put(jobs, jobId, JobQueued);
      return Ok(());
    }

    /**
     * `submit`: the circuits in order, `backendIds[i]` being the id the backend answers for
     * circuit i. A circuit the converter rejects raises, leaving the earlier ones queued.
     */
    method Submit(backendIds: seq<string>) returns (r: Result<()>)
      requires Valid()
      requires |backendIds| == |circuits|
      modifies this
      ensures Valid()
      ensures var k := FirstRejected(circuits, shots);
              && jobs == QueueAll(old(jobs), backendIds[..k])
              && (k == |circuits| ==> r == Ok(()))
              && (k < |circuits| ==> r == Err(Request(circuits[k], shots).error))
    ensures JobIds() == old(JobIds()) + set id | id in backendIds[..FirstRejected(circuits, shots)]
    {
      var i := 0;
      while i < |circuits|
        invariant 0 <= i <= |circuits|
        invariant Valid()
        invariant forall j :: 0 <= j < i ==> Request(circuits[j], shots).Ok?
        invariant jobs == QueueAll(old(jobs), backendIds[..i])
      {
        assert backendIds[..i + 1][..i] == backendIds[..i];
        var single := SubmitSingle(circuits[i], shots, backendIds[i]);
        if single.Err? {
          FirstRejectedAt(circuits, shots, i);
          QueueAllKeys(old(jobs), backendIds[..i]);
          return single;
        }
        i := i + 1;
      }
      FirstRejectedAt(circuits, shots, i);
      QueueAllKeys(old(jobs), backendIds[..i]);
      return Ok(());
    }

    /** `_status_single`: store the tag the API's answer for `jobId` decodes to. */
    method StatusSingle(jobId: string, response: ApiResponse) returns (r: Result<()>)
      requires Valid()
      modifies this
      ensures Valid()
      ensures DecodeStatus(response).Err? ==> r == Err(DecodeStatus(response).error) && jobs == old(jobs)
      ensures DecodeStatus(response).Ok? ==> r == Ok(()) && jobs == Put(old(jobs), jobId, DecodeStatus(response).value)
      ensures forall id :: id in Keys(old(jobs)) && id != jobId ==> id in Keys(jobs) && Get(jobs, id) == Get(old(jobs), id)
      ensures jobId in Keys(old(jobs)) ==> |jobs| == |old(jobs)| && forall i :: 0 <= i < |jobs| ==> jobs[i].0 == old(jobs)[i].0
      ensures JobIds() == old(JobIds()) + (if DecodeStatus(response).Ok? then {jobId} else {})
    {
      var tag: JobTag;
      if response.status == "finished" {
        tag := JobFinished(response.result.asSamples);
      } else if response.status == "error" {
        tag := JobFailed(response.result.asText);
      } else if response.status == "queued" {
        tag := JobQueued;
      } else if response.status == "ongoing" {
        tag := JobOngoing;
      } else {
        return Err(UnknownStatus(response.status));
      }
      PutKeys(jobs, jobId, tag);
      PutGet(jobs, jobId, tag);
      PutDistinct(jobs, jobId, tag);
      jobs := Put(jobs, jobId, tag);
      return Ok(());
    }

    /** `_aggregate_status` */
    function AggregateStatus(): JobStatus
      reads this
    {
      Aggregate(Statuses(Values(jobs)))
    }

    /** `failed_jobs`: the failed ids with their error reports, in table order. */
    function FailedJobs(): Items<string, string>
      reads this
    {
      FailedEntries(jobs)
    }

    /** `job_ids` */
    function JobIds(): (ids: set<string>)
      reads this
      ensures ids == Keys(jobs)
    {
      Keys(jobs)
    }

    /** `result()`, on the table as it stands once the job has reached a final state. */
    method CombinedResult() returns (r: Result<seq<ExperimentResult>>)
      ensures r == ResultOf(circuits, Values(jobs), shots)
    {
      if AggregateStatus() != Done {
        return Err(EvaluationFailed);
      }
      var tags := Values(jobs);
      var n := Min(|circuits|, |tags|);
      ghost var entries := Entries(circuits, tags, shots, n);
      var results: seq<ExperimentResult> := [];
      for i := 0 to n
        invariant Collect(entries[..i]) == Ok(results)
      {
        var entry := ExperimentEntry(circuits[i], tags[i]);
        assert entries[..i + 1][..i] == entries[..i];
        if entry.Err? {
          CollectStopsAtError(entries, i);
          return Err(entry.error);
        }
        results := results + [entry.value];
      }
      assert entries[..n] == entries;
      return Ok(results);
    }

    /** One pass of the loop in `result()`: the entry for a circuit and its tag. */
    method ExperimentEntry(circuit: Circuit, tag: JobTag) returns (r: Result<ExperimentResult>)
      ensures r == Experiment(circuit, tag, shots)
    {
      if tag.JobFinished? {
        var measMap := BuildMemoryMapping(circuit);
        var counts := FormatCounts(tag.samples, Some(measMap));
        if counts.Err? {
          return Err(counts.error);
        }
        return Ok(ExperimentResult(shots, true, Done, Some(counts.value), circuit.numClbits, circuit.name));
      }
      return Ok(ExperimentResult(shots, tag.Status() == Done, tag.Status(), None, circuit.numClbits, circuit.name));
    }
  }

  lemma FirstRejectedAt(circuits: seq<Circuit>, shots: int, k: nat)
    requires k <= |circuits|
    requires forall j :: 0 <= j < k ==> Request(circuits[j], shots).Ok?
    requires k < |circuits| ==> Request(circuits[k], shots).Err?
    ensures FirstRejected(circuits, shots) == k
  {
  }

  /** The failed entries of a table, each id with its error report. */
  function FailedEntries(jobs: Items<string, JobTag>): Items<string, string>
  {
    if jobs == [] then []
    else
      var rest := FailedEntries(jobs[..|jobs| - 1]);
      var (id, tag) := jobs[|jobs| - 1];
      if tag.JobFailed? then rest + [(id, tag.error)] else rest
  }

  /**
   * `failed_jobs` holds exactly the ids whose entry is a failure, each once and mapped to its
   * error report.
   */
  lemma {:induction false} FailedEntriesSpec(jobs: Items<string, JobTag>)
    requires DistinctKeys(jobs)
    ensures Keys(FailedEntries(jobs)) == set i | 0 <= i < |jobs| && jobs[i].1.JobFailed? :: jobs[i].0
    ensures DistinctKeys(FailedEntries(jobs))
    ensures forall id :: id in Keys(FailedEntries(jobs)) ==>
              id in Keys(jobs) && Get(jobs, id) == JobFailed(Get(FailedEntries(jobs), id))
  {
    if jobs != [] {
      var init := jobs[..|jobs| - 1];
      var (id, tag) := jobs[|jobs| - 1];
      var rest := FailedEntries(init);
      FailedEntriesSpec(init);
      assert id !in Keys(init);
      assert Keys(init) <= Keys(jobs) by {
        forall x | x in Keys(init) ensures x in Keys(jobs) {
          var j :| 0 <= j < |init| && init[j].0 == x;
          assert jobs[j].0 == x;
        }
      }
      assert forall x :: x in Keys(init) ==> Get(jobs, x) == Get(init, x) by {
        forall x | x in Keys(init) ensures Get(jobs, x) == Get(init, x) {
          var j := IndexOf(init, x);
          assert jobs[j] == init[j];
          assert forall m :: 0 <= m < j ==> jobs[m] == init[m];
        }
      }
      if tag.JobFailed? {
        var r := rest + [(id, tag.error)];
        assert r[|rest|].0 == id;
        PutKeys(rest, id, tag.error);
        PutGet(rest, id, tag.error);
        assert r == Put(rest, id, tag.error);
        assert jobs[|jobs| - 1].0 == id;
        assert Get(jobs, id) == tag;
      }
    }
  }

  /** The job is in ERROR exactly when some API job failed, that is when `failed_jobs` is not empty. */
  lemma FailedJobsMeanError(jobs: Items<string, JobTag>)
    ensures FailedEntries(jobs) != [] <==> Aggregate(Statuses(Values(jobs))) == Error
  {
    FailedEntriesNonEmpty(jobs);
    var statuses := Statuses(Values(jobs));
    if Error in statuses {
      var i :| 0 <= i < |statuses| && statuses[i] == Error;
      assert jobs[i].1.JobFailed?;
    }
    if exists i :: 0 <= i < |jobs| && jobs[i].1.JobFailed? {
      var i :| 0 <= i < |jobs| && jobs[i].1.JobFailed?;
      assert statuses[i] == Error;
    }
  }

  lemma {:induction false} FailedEntriesNonEmpty(jobs: Items<string, JobTag>)
    ensures FailedEntries(jobs) != [] <==> exists i :: 0 <= i < |jobs| && jobs[i].1.JobFailed?
  {
    if jobs != [] {
      var init := jobs[..|jobs| - 1];
      FailedEntriesNonEmpty(init);
      if exists i :: 0 <= i < |init| && init[i].1.JobFailed? {
        var i :| 0 <= i < |init| && init[i].1.JobFailed?;
        assert jobs[i] == init[i];
      }
      if exists i :: 0 <= i < |jobs| && jobs[i].1.JobFailed? {
        var i :| 0 <= i < |jobs| && jobs[i].1.JobFailed?;
        if i < |init| {
          assert init[i] == jobs[i];
        }
      }
    }
  }
}
