/**
 * The client-side job queue: jobs keyed by id in a JavaScript `Map` (so in
 * the order they were first enqueued), each with its status, the updates it
 * received and its error, plus a version counter that every change bumps.
 *
 * The clock (`Date.now()`) is a parameter.
 */
module JobStore {
  import opened Wrappers
  import opened JsMap
  import opened Sequences

  type JobId = string

  datatype JobType = Partition | Import

  datatype Status = Pending | Running | Completed | Failed

  datatype UpdateKind = PhaseUpdate | LogUpdate | CompleteUpdate | ErrorUpdate

  /** One update from a running job; every field but the kind is optional. */
  datatype JobUpdate = JobUpdate(
    kind: UpdateKind,
    phase: Option<string>,
    message: Option<string>,
    progress: Option<int>,
    result: Option<string>,
    timestamp: Option<int>)

  datatype ToastId = ToastName(name: string) | ToastNumber(number: int)

  datatype Job = Job(
    jobId: JobId,
    circuitId: string,
    jobType: JobType,
    status: Status,
    updates: seq<JobUpdate>,
    error: Option<string>,
    createdAt: int,
    toastId: Option<ToastId>)

  /** The store's state: the jobs and the version counter. */
  datatype JobQueue = JobQueue(jobs: OrderedMap<JobId, Job>, version: nat) {
    /** The map is well formed and every job is stored under its own id. */
    ghost predicate Valid() {
      jobs.Valid() && forall k <- jobs.entries :: jobs.entries[k].jobId == k
    }
  }

  /** Two updates closer than this many milliseconds with the same content are one. */
  const DuplicateWindow := 100

  /** A missing timestamp counts as 0. */
  function Stamp(u: JobUpdate): int {
    u.timestamp.GetOr(0)
  }

  /** `earlier` makes `u` a duplicate: same kind, phase and message, and not older than 100 ms before it. */
  predicate Repeats(earlier: JobUpdate, u: JobUpdate) {
    earlier.kind == u.kind && earlier.phase == u.phase && earlier.message == u.message
    && Stamp(earlier) >= Stamp(u) - DuplicateWindow
  }

  predicate IsDuplicate(updates: seq<JobUpdate>, u: JobUpdate) {
    exists i | 0 <= i < |updates| :: Repeats(updates[i], u)
  }

  /** The status a job takes on receiving an update of this kind. */
  function StatusAfter(kind: UpdateKind): Status {
    match kind
    case CompleteUpdate => Completed
    case ErrorUpdate => Failed
    case _ => Running
  }

  /** `enqueueJob`: a pending job with no updates; an existing id is replaced in place. */
  function Enqueue(q: JobQueue, jobId: JobId, circuitId: string, jobType: JobType, now: int): (r: JobQueue)
    requires q.Valid()
    ensures r.Valid() && r.version == q.version + 1
    ensures jobId in r.jobs.entries
    ensures r.jobs.entries[jobId] == Job(jobId, circuitId, jobType, Pending, [], None, now, None)
    ensures forall k <- q.jobs.entries | k != jobId :: k in r.jobs.entries && r.jobs.entries[k] == q.jobs.entries[k]
    ensures r.jobs.entries.Keys == q.jobs.entries.Keys + {jobId}
    ensures jobId in q.jobs.entries ==> r.jobs.keys == q.jobs.keys
    ensures jobId !in q.jobs.entries ==> r.jobs.keys == q.jobs.keys + [jobId]
  {
    JobQueue(q.jobs.Set(jobId, Job(jobId, circuitId, jobType, Pending, [], None, now, None)), q.version + 1)
  }

  /** Replaces a stored job by `job`, bumping the version. */
  function Replace(q: JobQueue, job: Job): (r: JobQueue)
    requires q.Valid() && job.jobId in q.jobs.entries
    ensures r.Valid() && r.version == q.version + 1
    ensures r.jobs.keys == q.jobs.keys
    ensures r.jobs.entries == q.jobs.entries[job.jobId := job]
  {
    JobQueue(q.jobs.Set(job.jobId, job), q.version + 1)
  }

  /** `setJobToastId`: unknown ids change nothing. */
  function SetToastId(q: JobQueue, jobId: JobId, toastId: ToastId): (r: JobQueue)
    requires q.Valid()
    ensures r.Valid()
    ensures jobId !in q.jobs.entries ==> r == q
    ensures jobId in q.jobs.entries ==>
              r == Replace(q, q.jobs.entries[jobId].(toastId := Some(toastId)))
  {
    if jobId !in q.jobs.entries then q
    else Replace(q, q.jobs.entries[jobId].(toastId := Some(toastId)))
  }

  /**
   * `addUpdate`: an update for a known job that does not repeat one it
   * already has is appended, and the job's status follows its kind; anything
   * else changes nothing, not even the version.
   */
  function AddUpdate(q: JobQueue, jobId: JobId, u: JobUpdate): (r: JobQueue)
    requires q.Valid()
    ensures r.Valid()
    ensures jobId !in q.jobs.entries ==> r == q
    ensures jobId in q.jobs.entries && IsDuplicate(q.jobs.entries[jobId].updates, u) ==> r == q
    ensures jobId in q.jobs.entries && !IsDuplicate(q.jobs.entries[jobId].updates, u) ==>
              var job := q.jobs.entries[jobId];
              r == Replace(q, job.(status := StatusAfter(u.kind), updates := job.updates + [u]))
  {
    if jobId !in q.jobs.entries then q
    else
      var job := q.jobs.entries[jobId];
      if IsDuplicate(job.updates, u) then q
      else Replace(q, job.(status := StatusAfter(u.kind), updates := job.updates + [u]))
  }

  /** `setJobError`: the job fails with the given text. */
  function SetJobError(q: JobQueue, jobId: JobId, error: string): (r: JobQueue)
    requires q.Valid()
    ensures r.Valid()
    ensures jobId !in q.jobs.entries ==> r == q
    ensures jobId in q.jobs.entries ==>
              r == Replace(q, q.jobs.entries[jobId].(status := Failed, error := Some(error)))
  {
    if jobId !in q.jobs.entries then q
    else Replace(q, q.jobs.entries[jobId].(status := Failed, error := Some(error)))
  }

  /** `completeJob`. */
  function CompleteJob(q: JobQueue, jobId: JobId): (r: JobQueue)
    requires q.Valid()
    ensures r.Valid()
    ensures jobId !in q.jobs.entries ==> r == q
    ensures jobId in q.jobs.entries ==> r == Replace(q, q.jobs.entries[jobId].(status := Completed))
  {
    if jobId !in q.jobs.entries then q
    else Replace(q, q.jobs.entries[jobId].(status := Completed))
  }

  /** `dequeueJob`: the job is removed; the version is bumped even when there was no such job. */
  function Dequeue(q: JobQueue, jobId: JobId): (r: JobQueue)
    requires q.Valid()
    ensures r.Valid() && r.version == q.version + 1
    ensures r.jobs.entries == q.jobs.entries - {jobId}
    ensures r.jobs.keys == Without(q.jobs.keys, jobId)
  {
    JobQueue(q.jobs.Delete(jobId), q.version + 1)
  }

  /** `getJob`. */
  function GetJob(q: JobQueue, jobId: JobId): (r: Option<Job>)
    ensures r.Some? <==> jobId in q.jobs.entries
    ensures r.Some? ==> r.value == q.jobs.entries[jobId]
  {
    if jobId in q.jobs.entries then Some(q.jobs.entries[jobId]) else None
  }

  /** The jobs of `jobs` that belong to circuit `circuitId`, in order. */
  function OfCircuit(jobs: seq<Job>, circuitId: string): (r: seq<Job>)
    ensures |r| <= |jobs|
    ensures forall j <- r :: j in jobs && j.circuitId == circuitId
    ensures forall j <- jobs | j.circuitId == circuitId :: j in r
    ensures r == Filter(jobs, (j: Job) => j.circuitId == circuitId)
  {
    if jobs == [] then []
    else (if jobs[0].circuitId == circuitId then [jobs[0]] else []) + OfCircuit(jobs[1..], circuitId)
  }

  /** Filtering a concatenation filters each part, so the enqueue order is kept. */
  lemma {:induction false} OfCircuitAppend(a: seq<Job>, b: seq<Job>, circuitId: string)
    ensures OfCircuit(a + b, circuitId) == OfCircuit(a, circuitId) + OfCircuit(b, circuitId)
    decreases |a|
  {
    if a == [] {
      assert a + b == b;
    } else {
      assert (a + b)[1..] == a[1..] + b;
      OfCircuitAppend(a[1..], b, circuitId);
    }
  }

  /** `getCircuitJobs`: the circuit's jobs in the order they were first enqueued. */
  function CircuitJobs(q: JobQueue, circuitId: string): (r: seq<Job>)
    requires q.Valid()
    ensures forall j <- r :: j.circuitId == circuitId && j.jobId in q.jobs.entries && q.jobs.entries[j.jobId] == j
    ensures forall k <- q.jobs.entries | q.jobs.entries[k].circuitId == circuitId :: q.jobs.entries[k] in r
    ensures r == Filter(q.jobs.Values(), (j: Job) => j.circuitId == circuitId)
  {
    var vs := q.jobs.Values();
    forall k <- q.jobs.entries
      ensures q.jobs.entries[k] in vs
    {
      var i :| 0 <= i < |q.jobs.keys| && q.jobs.keys[i] == k;
      assert vs[i] == q.jobs.entries[k];
    }
    forall j <- vs
      ensures j.jobId in q.jobs.entries && q.jobs.entries[j.jobId] == j
    {
      var i :| 0 <= i < |vs| && vs[i] == j;
      assert q.jobs.keys[i] in q.jobs.entries;
    }
    OfCircuit(vs, circuitId)
  }

  /** A newly enqueued job comes last among its circuit's jobs. */
  lemma {:induction false} EnqueuedJobComesLast(q: JobQueue, jobId: JobId, circuitId: string, jobType: JobType, now: int)
    requires q.Valid() && jobId !in q.jobs.entries
    ensures var r := Enqueue(q, jobId, circuitId, jobType, now);
            CircuitJobs(r, circuitId) == CircuitJobs(q, circuitId) + [r.jobs.entries[jobId]]
  {
    var r := Enqueue(q, jobId, circuitId, jobType, now);
    var job := r.jobs.entries[jobId];
    var vs := q.jobs.Values();
    var ws := r.jobs.Values();
    assert ws == vs + [job] by {
      forall i | 0 <= i < |q.jobs.keys|
        ensures ws[i] == vs[i]
      {
        assert q.jobs.keys[i] != jobId;
      }
    }
    OfCircuitAppend(vs, [job], circuitId);
    assert OfCircuit([job], circuitId) == [job] by {
      assert [job][1..] == [];
    }
    assert CircuitJobs(r, circuitId) == OfCircuit(ws, circuitId);
    assert CircuitJobs(q, circuitId) == OfCircuit(vs, circuitId);
  }

  /** Adding the same update twice is adding it once: the second is a duplicate. */
  lemma {:induction false} AddUpdateIdempotent(q: JobQueue, jobId: JobId, u: JobUpdate)
    requires q.Valid()
    ensures AddUpdate(AddUpdate(q, jobId, u), jobId, u) == AddUpdate(q, jobId, u)
  {
    var r := AddUpdate(q, jobId, u);
    if jobId in q.jobs.entries && !IsDuplicate(q.jobs.entries[jobId].updates, u) {
      var ups := r.jobs.entries[jobId].updates;
      assert Repeats(ups[|ups| - 1], u);
    }
  }

  /** The status of a job after an update is determined by the update's kind, unless it repeated an earlier one. */
  lemma {:induction false} StatusFollowsLastUpdate(q: JobQueue, jobId: JobId, u: JobUpdate)
    requires q.Valid() && jobId in q.jobs.entries && !IsDuplicate(q.jobs.entries[jobId].updates, u)
    ensures var job := AddUpdate(q, jobId, u).jobs.entries[jobId];
            job.status == StatusAfter(u.kind) && job.updates[|job.updates| - 1] == u
            && (job.status == Completed <==> u.kind == CompleteUpdate)
  {
  }

  /** The job queue as the mutable store it is. */
  class Store {
    var jobs: OrderedMap<JobId, Job>
    var version: nat

    function State(): JobQueue
      reads this
    {
      JobQueue(jobs, version)
    }

    ghost predicate Valid()
      reads this
    {
      State().Valid()
    }

    constructor ()
      ensures Valid() && jobs == Empty() && version == 0
    {
      jobs := Empty();
      version := 0;
    }

    method EnqueueJob(jobId: JobId, circuitId: string, jobType: JobType, now: int)
      requires Valid()
      modifies this
      ensures Valid() && State() == Enqueue(old(State()), jobId, circuitId, jobType, now)
    {
      jobs := jobs.Set(jobId, Job(jobId, circuitId, jobType, Pending, [], None, now, None));
      version := version + 1;
    }

    method SetJobToastId(jobId: JobId, toastId: ToastId)
      requires Valid()
      modifies this
      ensures Valid() && State() == SetToastId(old(State()), jobId, toastId)
    {
      if jobId !in jobs.entries {
        return;
      }
      var job := jobs.entries[jobId];
      jobs := jobs.Set(jobId, job.(toastId := Some(toastId)));
      version := version + 1;
    }

    method AddJobUpdate(jobId: JobId, u: JobUpdate)
      requires Valid()
      modifies this
      ensures Valid() && State() == AddUpdate(old(State()), jobId, u)
    {
      if jobId !in jobs.entries {
        return;
      }
      var job := jobs.entries[jobId];
      if IsDuplicate(job.updates, u) {
        return;
      }
      jobs := jobs.Set(jobId, job.(status := StatusAfter(u.kind), updates := job.updates + [u]));
      version := version + 1;
    }

    method SetError(jobId: JobId, error: string)
      requires Valid()
      modifies this
      ensures Valid() && State() == SetJobError(old(State()), jobId, error)
    {
      if jobId !in jobs.entries {
        return;
      }
      var job := jobs.entries[jobId];
      jobs := jobs.Set(jobId, job.(status := Failed, error := Some(error)));
      version := version + 1;
    }

    method Complete(jobId: JobId)
      requires Valid()
      modifies this
      ensures Valid() && State() == CompleteJob(old(State()), jobId)
    {
      if jobId !in jobs.entries {
        return;
      }
      var job := jobs.entries[jobId];
      jobs := jobs.Set(jobId, job.(status := Completed));
      version := version + 1;
    }

    method DequeueJob(jobId: JobId)
      requires Valid()
      modifies this
      ensures Valid() && State() == Dequeue(old(State()), jobId)
    {
      jobs := jobs.Delete(jobId);
      version := version + 1;
    }
  }
}
