/**
 * The in-memory job table: a queue of submitted jobs and two dictionaries,
 * one from job id to status and one from job id to result.
 */
module Jobs {
  import opened Wrappers

  /** The job statuses the API reports. */
  datatype ProcessingStatus = Pending | Processing | Completed | Failed

  /** One entry of the queue: the job id, the uploaded bytes and the file name. */
  datatype QueuedJob = QueuedJob(id: string, content: seq<bv8>, filename: string)

  class QueueService<R> {
    var queue: seq<QueuedJob>
    var results: map<string, R>
    var status: map<string, ProcessingStatus>

    /** The only statuses ever written are Pending and Completed; a job has a
        result exactly when it is Completed; every queued job has a status. */
    ghost predicate Valid()
      reads this
    {
      && (forall id | id in status :: status[id] == Pending || status[id] == Completed)
      && (forall id | id in results :: id in status && status[id] == Completed)
      && (forall id | id in status && status[id] == Completed :: id in results)
      && (forall i | 0 <= i < |queue| :: queue[i].id in status)
    }

    constructor ()
      ensures Valid()
      ensures queue == [] && results == map[] && status == map[]
    {
      queue := [];
      results := map[];
      status := map[];
    }

    /** `add_job`: `jobId` is the fresh id `uuid4` draws. The job is appended to
        the queue and marked Pending; the results are not touched. */
    method AddJob(content: seq<bv8>, filename: string, jobId: string) returns (id: string)
      requires Valid()
      requires jobId !in status
      modifies this
      ensures Valid()
      ensures id == jobId
      ensures queue == old(queue) + [QueuedJob(jobId, content, filename)]
      ensures status == old(status)[jobId := Pending]
      ensures results == old(results)
    {
      queue := queue + [QueuedJob(jobId, content, filename)];
      status := status[jobId := Pending];
      id := jobId;
    }

    /** `get_job_status`: the stored status, and Failed for an id with no
        stored status, which cannot be told apart from a failed job. */
    function GetJobStatus(jobId: string): (r: ProcessingStatus)
      reads this
      ensures jobId in status ==> r == status[jobId]
      ensures jobId !in status ==> r == Failed
    {
      if jobId in status then status[jobId] else Failed
    }

    /** `set_job_result`: stores the result and marks the job Completed,
        whether or not it was ever added; no other id changes. */
    method SetJobResult(jobId: string, result: R)
      requires Valid()
      modifies this
      ensures Valid()
      ensures results == old(results)[jobId := result]
      ensures status == old(status)[jobId := Completed]
      ensures queue == old(queue)
    {
      results := results[jobId := result];
      status := status[jobId := Completed];
    }

    /** `get_job_result`: the stored result, or None for an id without one. */
    function GetJobResult(jobId: string): (r: Option<R>)
      reads this
      ensures r.Some? <==> jobId in results
      ensures r.Some? ==> r.value == results[jobId]
    {
      if jobId in results then Some(results[jobId]) else None
    }
  }

  /** What a reader sees: no status reads back as Processing; an id reads as
      Failed exactly when no status is stored for it (nothing ever stores
      Failed); and a job has a result exactly when it reads as Completed (a
      Pending job has none). */
  lemma StatusReadBack<R>(q: QueueService<R>, jobId: string)
    requires q.Valid()
    ensures q.GetJobStatus(jobId) != Processing
    ensures q.GetJobStatus(jobId) == Failed <==> jobId !in q.status
    ensures q.GetJobResult(jobId).Some? <==> q.GetJobStatus(jobId) == Completed
    ensures q.GetJobResult(jobId).Some? ==> q.GetJobResult(jobId).value == q.results[jobId]
  {
  }
}
