/**
 * The three job routes over the render queue:
 *   - `POST /api/queue-renders` (packages/web/app/api/queue-renders/route.ts)
 *     adds one render job per plan entry;
 *   - `POST /api/retry-job` (packages/web/app/api/retry-job/route.ts) removes
 *     a job and adds it again under the same id;
 *   - `POST /api/job-status` (packages/web/app/api/job-status/route.ts) reports
 *     the state of each requested job.
 *
 * The queue itself is a library; here it is a map from job id to job, plus the
 * log of the `add`/`remove` calls that took effect. `add` with an id that is
 * already present keeps the existing job, as the library documents for a
 * custom `jobId`. Whether each call throws (its store cannot be reached) is
 * given in advance as a list of outcomes in call order, so a route can fail
 * part way through. The content hash is a parameter.
 */
module RenderJobs {
  import opened Wrappers
  import opened JsonValues

  datatype Backoff = Backoff(kind: string, delay: nat)

  datatype JobOptions = JobOptions(jobId: string, removeOnComplete: bool, removeOnFail: bool, attempts: nat, backoff: Backoff)

  /** A job as the queue holds it: what was added, and what the workers have made of it so far. */
  datatype Job = Job(name: string, data: Json, opts: JobOptions, state: string, progress: Json,
                     returnvalue: Option<Json>, failedReason: Option<string>)

  datatype QueueCall = AddCall(name: string, data: Json, opts: JobOptions) | RemoveCall(jobId: string)

  /** The options every render job is added with, on submission and on retry. */
  function RenderOptions(jobId: string): (o: JobOptions)
    ensures o.jobId == jobId && o.attempts == 3 && o.backoff == Backoff("exponential", 2000)
    ensures o.removeOnComplete && !o.removeOnFail
  {
    JobOptions(jobId, true, false, 3, Backoff("exponential", 2000))
  }

  /** A job as `add` creates it: waiting, with no progress and no outcome yet. */
  function NewJob(name: string, data: Json, opts: JobOptions): Job
  {
    Job(name, data, opts, "waiting", Num(0.0), None, None)
  }

  /** How the `n`-th queue call from now ends: the message it throws with, or `None` when it succeeds. */
  function Outcome(outcomes: seq<Option<string>>, n: nat): Option<string>
  {
    if n < |outcomes| then outcomes[n] else None
  }

  /** How the calls after the first `n` end. */
  function Drop(outcomes: seq<Option<string>>, n: nat): seq<Option<string>>
  {
    if n <= |outcomes| then outcomes[n..] else []
  }

  /** After `n` calls, the next call is call `n`, and one more call leaves the calls after `n + 1`. */
  lemma DropNext(outcomes: seq<Option<string>>, n: nat)
    ensures Outcome(Drop(outcomes, n), 0) == Outcome(outcomes, n)
    ensures Drop(Drop(outcomes, n), 1) == Drop(outcomes, n + 1)
  {
  }

  class RenderQueue {
    var jobs: map<string, Job>
    /** The `add` and `remove` calls that took effect, oldest first. */
    var calls: seq<QueueCall>
    /**
     * How the coming calls end, in call order: a message for a call that
     * throws (the queue's store cannot be reached), `None` for one that
     * succeeds. Every call past the end succeeds.
     */
    var outcomes: seq<Option<string>>

    constructor(jobs: map<string, Job>, outcomes: seq<Option<string>>)
      ensures this.jobs == jobs && calls == [] && this.outcomes == outcomes
    {
      this.jobs := jobs;
      calls := [];
      this.outcomes := outcomes;
    }

    /** `queue.getJob(id)`: the job under the id or nothing, unless the call throws. */
    method GetJob(id: string) returns (r: Result<Option<Job>, string>)
      modifies this
      ensures jobs == old(jobs) && calls == old(calls) && outcomes == Drop(old(outcomes), 1)
      ensures Outcome(old(outcomes), 0).Some? ==> r == Err(Outcome(old(outcomes), 0).value)
      ensures Outcome(old(outcomes), 0).None? ==> r == Ok(if id in jobs then Some(jobs[id]) else None)
    {
      var outcome := Outcome(outcomes, 0);
      outcomes := Drop(outcomes, 1);
      if outcome.Some? {
        return Err(outcome.value);
      }
      r := Ok(if id in jobs then Some(jobs[id]) else None);
    }

    /** `queue.add(name, data, opts)`: a new id is added waiting; a present id keeps its job. */
    method Add(name: string, data: Json, opts: JobOptions) returns (r: Result<(), string>)
      modifies this
      ensures outcomes == Drop(old(outcomes), 1)
      ensures Outcome(old(outcomes), 0).Some? ==>
        r == Err(Outcome(old(outcomes), 0).value) && jobs == old(jobs) && calls == old(calls)
      ensures Outcome(old(outcomes), 0).None? ==> r == Ok(()) && calls == old(calls) + [AddCall(name, data, opts)]
      ensures Outcome(old(outcomes), 0).None? ==>
        jobs == if opts.jobId in old(jobs) then old(jobs) else old(jobs)[opts.jobId := NewJob(name, data, opts)]
    {
      var outcome := Outcome(outcomes, 0);
      outcomes := Drop(outcomes, 1);
      if outcome.Some? {
        return Err(outcome.value);
      }
      if opts.jobId !in jobs {
        jobs := jobs[opts.jobId := NewJob(name, data, opts)];
      }
      calls := calls + [AddCall(name, data, opts)];
      r := Ok(());
    }

    /** `job.remove()` on a job the queue holds. */
    method Remove(id: string) returns (r: Result<(), string>)
      modifies this
      ensures outcomes == Drop(old(outcomes), 1)
      ensures Outcome(old(outcomes), 0).Some? ==>
        r == Err(Outcome(old(outcomes), 0).value) && jobs == old(jobs) && calls == old(calls)
      ensures Outcome(old(outcomes), 0).None? ==>
        r == Ok(()) && jobs == old(jobs) - {id} && calls == old(calls) + [RemoveCall(id)]
    {
      var outcome := Outcome(outcomes, 0);
      outcomes := Drop(outcomes, 1);
      if outcome.Some? {
        return Err(outcome.value);
      }
      jobs := jobs - {id};
      calls := calls + [RemoveCall(id)];
      r := Ok(());
    }
  }

  // ---------------------------------------------------------------------------
  // queue-renders
  // ---------------------------------------------------------------------------

  /** Why the route rejects: a plan entry it cannot destructure, or the queue's own error. */
  datatype RouteError = TypeError | QueueError(message: string)

  datatype Enqueued = Enqueued(hash: string, cached: bool)

  /** `json.seed ?? 1337`: the document's seed unless it is missing or null. */
  function Seed(json: Json): Json
  {
    match Property(json, "seed")
    case None => Num(1337.0)
    case Some(Null) => Num(1337.0)
    case Some(s) => s
  }

  /** `{ json, modelVersion, seed }`: what the job id is the hash of. */
  function KeyObject(json: Json, modelVersion: Option<Json>, seed: Json): Json
  {
    Obj(Defined([("json", Some(json)), ("modelVersion", modelVersion), ("seed", Some(seed))]))
  }

  /** `{ json, modelVersion, seed, hash }`: the job's data. */
  function JobData(json: Json, modelVersion: Option<Json>, seed: Json, hash: string): Json
  {
    Obj(Defined([("json", Some(json)), ("modelVersion", modelVersion), ("seed", Some(seed)), ("hash", Some(Str(hash)))]))
  }

  /** `for (const { json } of plan)`: the entry's `json`, which must be an object-like value to read `seed` from. */
  function EntryJson(entry: Json): Result<Json, RouteError>
  {
    if entry.Null? then Err(TypeError)
    else
      match Property(entry, "json")
      case None => Err(TypeError)
      case Some(Null) => Err(TypeError)
      case Some(json) => Ok(json)
  }

  /** The job id of one plan entry's document. */
  function JobId(json: Json, modelVersion: Option<Json>, hash: Json -> string): string
  {
    hash(KeyObject(json, modelVersion, Seed(json)))
  }

  /** The `add` call the route makes for one document. */
  function SubmitCall(json: Json, modelVersion: Option<Json>, hash: Json -> string): QueueCall
  {
    var seed := Seed(json);
    var id := hash(KeyObject(json, modelVersion, seed));
    AddCall("render", JobData(json, modelVersion, seed, id), RenderOptions(id))
  }

  /** The documents of the plan's entries, or the error destructuring the first bad entry throws. */
  function PlanJsons(plan: seq<Json>): (r: Result<seq<Json>, RouteError>)
    ensures r.Ok? ==> |r.value| == |plan|
    decreases |plan|
  {
    if |plan| == 0 then Ok([])
    else
      match PlanJsons(plan[..|plan| - 1])
      case Err(e) => Err(e)
      case Ok(jsons) =>
        match EntryJson(plan[|plan| - 1])
        case Err(e) => Err(e)
        case Ok(json) => Ok(jsons + [json])
  }

  /** The plan destructures exactly when every entry does, and then entry by entry. */
  lemma {:induction false} PlanJsonsSpec(plan: seq<Json>)
    ensures PlanJsons(plan).Ok? ==> forall i :: 0 <= i < |plan| ==> EntryJson(plan[i]) == Ok(PlanJsons(plan).value[i])
    ensures PlanJsons(plan).Err? <==> exists i :: 0 <= i < |plan| && EntryJson(plan[i]).Err?
    decreases |plan|
  {
    if |plan| > 0 {
      var init := plan[..|plan| - 1];
      PlanJsonsSpec(init);
      assert forall i :: 0 <= i < |init| ==> plan[i] == init[i];
      if PlanJsons(init).Err? {
        var i :| 0 <= i < |init| && EntryJson(init[i]).Err?;
        assert EntryJson(plan[i]).Err?;
      }
    }
  }

  lemma PlanJsonsStep(plan: seq<Json>, i: nat)
    requires i < |plan|
    ensures PlanJsons(plan[..i + 1]) ==
      match PlanJsons(plan[..i])
      case Err(e) => Err(e)
      case Ok(jsons) =>
        match EntryJson(plan[i])
        case Err(e) => Err(e)
        case Ok(json) => Ok(jsons + [json])
  {
    assert plan[..i + 1][..i] == plan[..i];
  }

  lemma {:induction false} PlanJsonsErrStays(plan: seq<Json>, n: nat)
    requires n <= |plan| && PlanJsons(plan[..n]).Err?
    ensures PlanJsons(plan).Err?
    decreases |plan| - n
  {
    if n < |plan| {
      assert plan[..n + 1][..n] == plan[..n];
      PlanJsonsErrStays(plan, n + 1);
    } else {
      assert plan[..n] == plan;
    }
  }

  /** The `add` calls for the documents, in plan order. */
  function SubmitCalls(jsons: seq<Json>, modelVersion: Option<Json>, hash: Json -> string): (r: seq<QueueCall>)
    ensures |r| == |jsons|
    decreases |jsons|
  {
    if |jsons| == 0 then []
    else SubmitCalls(jsons[..|jsons| - 1], modelVersion, hash) + [SubmitCall(jsons[|jsons| - 1], modelVersion, hash)]
  }

  /** The `enqueued` records for the documents, in plan order. */
  function EnqueuedOf(jsons: seq<Json>, modelVersion: Option<Json>, hash: Json -> string): (r: seq<Enqueued>)
    ensures |r| == |jsons|
    decreases |jsons|
  {
    if |jsons| == 0 then []
    else EnqueuedOf(jsons[..|jsons| - 1], modelVersion, hash) + [Enqueued(JobId(jsons[|jsons| - 1], modelVersion, hash), false)]
  }

  /** One `add` call and one `enqueued` record per document, both in plan order; no record is cached. */
  lemma {:induction false} SubmissionsInOrder(jsons: seq<Json>, modelVersion: Option<Json>, hash: Json -> string)
    ensures forall i :: 0 <= i < |jsons| ==> SubmitCalls(jsons, modelVersion, hash)[i] == SubmitCall(jsons[i], modelVersion, hash)
    ensures forall i :: 0 <= i < |jsons| ==>
      EnqueuedOf(jsons, modelVersion, hash)[i] == Enqueued(JobId(jsons[i], modelVersion, hash), false)
    decreases |jsons|
  {
    if |jsons| > 0 {
      var init := jsons[..|jsons| - 1];
      SubmissionsInOrder(init, modelVersion, hash);
      assert forall i :: 0 <= i < |init| ==> jsons[i] == init[i];
    }
  }

  /** The queue's jobs after adding each document's job in turn. */
  function JobsAfter(jobs: map<string, Job>, calls: seq<QueueCall>): map<string, Job>
    decreases |calls|
  {
    if |calls| == 0 then jobs
    else
      var last := calls[|calls| - 1];
      var before := JobsAfter(jobs, calls[..|calls| - 1]);
      match last
      case AddCall(name, data, opts) =>
        if opts.jobId in before then before else before[opts.jobId := NewJob(name, data, opts)]
      case RemoveCall(id) => before - {id}
  }

  /** After only `add` calls, every added id is present and every earlier job is kept. */
  lemma {:induction false} JobsAfterAdds(jobs: map<string, Job>, calls: seq<QueueCall>)
    requires forall i :: 0 <= i < |calls| ==> calls[i].AddCall?
    ensures forall i :: 0 <= i < |calls| ==> calls[i].opts.jobId in JobsAfter(jobs, calls)
    ensures forall id :: id in jobs ==> id in JobsAfter(jobs, calls) && JobsAfter(jobs, calls)[id] == jobs[id]
    decreases |calls|
  {
    if |calls| > 0 {
      var init := calls[..|calls| - 1];
      JobsAfterAdds(jobs, init);
      forall i | 0 <= i < |calls|
        ensures calls[i].opts.jobId in JobsAfter(jobs, calls)
      {
        if i < |calls| - 1 {
          assert calls[i] == init[i];
        }
      }
    }
  }

  /** One turn of the loop: the seed, the job id, the `add` call and the `enqueued` record. */
  method Submit(queue: RenderQueue, json: Json, modelVersion: Option<Json>, hash: Json -> string)
    returns (r: Result<Enqueued, RouteError>)
    modifies queue
    ensures queue.outcomes == Drop(old(queue.outcomes), 1)
    ensures Outcome(old(queue.outcomes), 0).Some? ==>
      r == Err(QueueError(Outcome(old(queue.outcomes), 0).value)) && queue.calls == old(queue.calls) && queue.jobs == old(queue.jobs)
    ensures Outcome(old(queue.outcomes), 0).None? ==> r == Ok(Enqueued(JobId(json, modelVersion, hash), false))
    ensures Outcome(old(queue.outcomes), 0).None? ==> queue.calls == old(queue.calls) + [SubmitCall(json, modelVersion, hash)]
    ensures Outcome(old(queue.outcomes), 0).None? ==> queue.jobs == JobsAfter(old(queue.jobs), [SubmitCall(json, modelVersion, hash)])
  {
    var seed := Seed(json);
    var id := hash(KeyObject(json, modelVersion, seed));
    var added := queue.Add("render", JobData(json, modelVersion, seed, id), RenderOptions(id));
    if added.Err? {
      return Err(QueueError(added.error));
    }
    assert [SubmitCall(json, modelVersion, hash)][..0] == [];
    r := Ok(Enqueued(id, false));
  }

  /**
   * Whether turn `i` of the loop throws, given how the queue's calls end:
   * entry `i` cannot be destructured, or its `add` throws. Every turn before
   * it made exactly one call, so that `add` is call `i`.
   */
  predicate TurnThrows(plan: seq<Json>, outcomes: seq<Option<string>>, i: nat)
    requires i < |plan|
  {
    EntryJson(plan[i]).Err? || Outcome(outcomes, i).Some?
  }

  /** The error turn `i` throws: destructuring comes before the `add`. */
  function TurnError(plan: seq<Json>, outcomes: seq<Option<string>>, i: nat): RouteError
    requires i < |plan| && TurnThrows(plan, outcomes, i)
  {
    if EntryJson(plan[i]).Err? then EntryJson(plan[i]).error else QueueError(Outcome(outcomes, i).value)
  }

  /**
   * Turn `k` is the first turn that throws, and it throws `e`: every entry
   * before it was destructured and added.
   */
  ghost predicate StoppedAt(plan: seq<Json>, outcomes: seq<Option<string>>, k: nat, e: RouteError)
  {
    k < |plan| && TurnThrows(plan, outcomes, k) && e == TurnError(plan, outcomes, k) &&
    (forall j :: 0 <= j < k ==> !TurnThrows(plan, outcomes, j)) &&
    PlanJsons(plan[..k]).Ok?
  }

  /**
   * `POST /api/queue-renders`. Either no turn throws, and the route answers
   * one uncached record per entry after one `add` per entry; or turn `k` is
   * the first to throw, the route rejects with its error, and the jobs of
   * entries `0..k-1` stay queued.
   */
  method QueueRenders(queue: RenderQueue, plan: seq<Json>, modelVersion: Option<Json>, hash: Json -> string)
    returns (r: Result<seq<Enqueued>, RouteError>)
    modifies queue
    ensures r.Ok? <==> forall i :: 0 <= i < |plan| ==> !TurnThrows(plan, old(queue.outcomes), i)
    ensures r.Ok? ==> PlanJsons(plan).Ok? && r.value == EnqueuedOf(PlanJsons(plan).value, modelVersion, hash)
    ensures r.Ok? ==> queue.calls == old(queue.calls) + SubmitCalls(PlanJsons(plan).value, modelVersion, hash)
    ensures r.Ok? ==> queue.jobs == JobsAfter(old(queue.jobs), SubmitCalls(PlanJsons(plan).value, modelVersion, hash))
    ensures r.Ok? ==> queue.outcomes == Drop(old(queue.outcomes), |plan|)
    ensures r.Err? ==>
      exists k :: 0 <= k < |plan| &&
        StoppedAt(plan, old(queue.outcomes), k, r.error) &&
        queue.calls == old(queue.calls) + SubmitCalls(PlanJsons(plan[..k]).value, modelVersion, hash) &&
        queue.jobs == JobsAfter(old(queue.jobs), SubmitCalls(PlanJsons(plan[..k]).value, modelVersion, hash))
  {
    var enqueued: seq<Enqueued> := [];
    ghost var jsons: seq<Json> := [];
    ghost var outcomes0, calls0, jobs0 := queue.outcomes, queue.calls, queue.jobs;
    var i := 0;
    while i < |plan|
      invariant 0 <= i <= |plan|
      invariant PlanJsons(plan[..i]) == Ok(jsons)
      invariant forall j :: 0 <= j < i ==> !TurnThrows(plan, outcomes0, j)
      invariant queue.outcomes == Drop(outcomes0, i)
      invariant enqueued == EnqueuedOf(jsons, modelVersion, hash)
      invariant queue.calls == calls0 + SubmitCalls(jsons, modelVersion, hash)
      invariant queue.jobs == JobsAfter(jobs0, SubmitCalls(jsons, modelVersion, hash))
    {
      var json;
      var submitted;
      submitted, json := QueueTurn(queue, plan, i, modelVersion, hash, jsons, outcomes0, calls0, jobs0);
      if submitted.Err? {
        assert StoppedAt(plan, outcomes0, i, submitted.error);
        return Err(submitted.error);
      }
      assert forall j :: 0 <= j < i + 1 ==> !TurnThrows(plan, outcomes0, j) by {
        assert !TurnThrows(plan, outcomes0, i);
      }
      SubmissionsSnoc(jsons, json, modelVersion, hash);
      jsons := jsons + [json];
      enqueued := enqueued + [submitted.value];
      i := i + 1;
    }
    assert plan[..i] == plan;
    return Ok(enqueued);
  }

  /**
   * One turn of the `queue-renders` loop: destructure entry `i`, then submit
   * its document after those of the entries before it.
   */
  method QueueTurn(queue: RenderQueue, plan: seq<Json>, i: nat, modelVersion: Option<Json>, hash: Json -> string,
                   ghost jsons: seq<Json>, ghost outcomes0: seq<Option<string>>,
                   ghost calls0: seq<QueueCall>, ghost jobs0: map<string, Job>)
    returns (r: Result<Enqueued, RouteError>, json: Json)
    requires i < |plan| && PlanJsons(plan[..i]) == Ok(jsons)
    requires queue.outcomes == Drop(outcomes0, i)
    requires queue.calls == calls0 + SubmitCalls(jsons, modelVersion, hash)
    requires queue.jobs == JobsAfter(jobs0, SubmitCalls(jsons, modelVersion, hash))
    modifies queue
    ensures r.Err? <==> TurnThrows(plan, outcomes0, i)
    ensures r.Err? ==> r.error == TurnError(plan, outcomes0, i) && queue.calls == old(queue.calls) && queue.jobs == old(queue.jobs)
    ensures r.Ok? ==> queue.outcomes == Drop(outcomes0, i + 1)
    ensures r.Ok? ==> PlanJsons(plan[..i + 1]) == Ok(jsons + [json])
    ensures r.Ok? ==> r.value == Enqueued(JobId(json, modelVersion, hash), false)
    ensures r.Ok? ==> queue.calls == calls0 + SubmitCalls(jsons + [json], modelVersion, hash)
    ensures r.Ok? ==> queue.jobs == JobsAfter(jobs0, SubmitCalls(jsons + [json], modelVersion, hash))
  {
    var entryJson := EntryJson(plan[i]);
    PlanJsonsStep(plan, i);
    DropNext(outcomes0, i);
    if entryJson.Err? {
      return Err(entryJson.error), Null;
    }
    json := entryJson.value;
    r := SubmitNext(queue, json, modelVersion, hash, jsons, calls0, jobs0);
  }

  /** Submit one document after those of `jsons`, which the queue already holds. */
  method SubmitNext(queue: RenderQueue, json: Json, modelVersion: Option<Json>, hash: Json -> string,
                    ghost jsons: seq<Json>, ghost calls0: seq<QueueCall>, ghost jobs0: map<string, Job>)
    returns (r: Result<Enqueued, RouteError>)
    requires queue.calls == calls0 + SubmitCalls(jsons, modelVersion, hash)
    requires queue.jobs == JobsAfter(jobs0, SubmitCalls(jsons, modelVersion, hash))
    modifies queue
    ensures queue.outcomes == Drop(old(queue.outcomes), 1)
    ensures Outcome(old(queue.outcomes), 0).Some? ==>
      r == Err(QueueError(Outcome(old(queue.outcomes), 0).value)) && queue.calls == old(queue.calls) && queue.jobs == old(queue.jobs)
    ensures Outcome(old(queue.outcomes), 0).None? ==> r == Ok(Enqueued(JobId(json, modelVersion, hash), false))
    ensures r.Ok? ==> queue.calls == calls0 + SubmitCalls(jsons + [json], modelVersion, hash)
    ensures r.Ok? ==> queue.jobs == JobsAfter(jobs0, SubmitCalls(jsons + [json], modelVersion, hash))
  {
    r := Submit(queue, json, modelVersion, hash);
    if r.Ok? {
      JobsAfterStep(jobs0, SubmitCalls(jsons, modelVersion, hash), SubmitCall(json, modelVersion, hash));
      SubmissionsSnoc(jsons, json, modelVersion, hash);
    }
  }

  lemma SubmissionsSnoc(jsons: seq<Json>, json: Json, modelVersion: Option<Json>, hash: Json -> string)
    ensures SubmitCalls(jsons + [json], modelVersion, hash) == SubmitCalls(jsons, modelVersion, hash) + [SubmitCall(json, modelVersion, hash)]
    ensures EnqueuedOf(jsons + [json], modelVersion, hash) == EnqueuedOf(jsons, modelVersion, hash) + [Enqueued(JobId(json, modelVersion, hash), false)]
  {
    assert (jsons + [json])[..|jsons|] == jsons;
  }

  lemma JobsAfterStep(jobs: map<string, Job>, calls: seq<QueueCall>, c: QueueCall)
    ensures JobsAfter(jobs, calls + [c]) == JobsAfter(JobsAfter(jobs, calls), [c])
  {
    assert (calls + [c])[..|calls|] == calls;
    assert [c][..0] == [];
  }

  // ---------------------------------------------------------------------------
  // retry-job
  // ---------------------------------------------------------------------------

  datatype RetryResponse = RetrySuccess(jobId: string) | RetryFailure(error: string, status: nat)

  /**
   * `POST /api/retry-job`: look the job up, remove it if the queue holds it,
   * then add it again under the same id. The first call that throws ends the
   * route with its message and status 500, and what earlier calls did stays
   * done: when the removal succeeds and the add throws, the job is gone.
   */
  method RetryJob(queue: RenderQueue, jobId: string, jobData: Json) returns (resp: RetryResponse)
    modifies queue
    ensures var o := old(queue.outcomes);
      queue.outcomes == Drop(o, if Outcome(o, 0).None? && jobId in old(queue.jobs) && Outcome(o, 1).None? then 3
                                else if Outcome(o, 0).Some? then 1 else 2)
    ensures var o := old(queue.outcomes);
      resp.RetrySuccess? <==> Outcome(o, 0).None? && Outcome(o, 1).None? && (jobId in old(queue.jobs) ==> Outcome(o, 2).None?)
    ensures resp.RetrySuccess? ==> resp.jobId == jobId
    ensures resp.RetrySuccess? ==> queue.jobs == old(queue.jobs)[jobId := NewJob("render", jobData, RenderOptions(jobId))]
    ensures resp.RetrySuccess? ==>
      queue.calls == old(queue.calls) + (if jobId in old(queue.jobs) then [RemoveCall(jobId)] else [])
                                      + [AddCall("render", jobData, RenderOptions(jobId))]
    ensures var o := old(queue.outcomes);
      Outcome(o, 0).Some? ==>
        resp == RetryFailure(Outcome(o, 0).value, 500) && queue.jobs == old(queue.jobs) && queue.calls == old(queue.calls)
    ensures var o := old(queue.outcomes);
      Outcome(o, 0).None? && Outcome(o, 1).Some? ==>
        resp == RetryFailure(Outcome(o, 1).value, 500) && queue.jobs == old(queue.jobs) && queue.calls == old(queue.calls)
    ensures var o := old(queue.outcomes);
      Outcome(o, 0).None? && jobId in old(queue.jobs) && Outcome(o, 1).None? && Outcome(o, 2).Some? ==>
        resp == RetryFailure(Outcome(o, 2).value, 500) &&
        queue.jobs == old(queue.jobs) - {jobId} && queue.calls == old(queue.calls) + [RemoveCall(jobId)]
  {
    ghost var o := queue.outcomes;
    DropNext(o, 0);
    var oldJob := queue.GetJob(jobId);
    if oldJob.Err? {
      return RetryFailure(oldJob.error, 500);
    }
    DropNext(o, 1);
    if oldJob.value.Some? {
      var removed := queue.Remove(jobId);
      if removed.Err? {
        return RetryFailure(removed.error, 500);
      }
      DropNext(o, 2);
    }
    var added := queue.Add("render", jobData, RenderOptions(jobId));
    if added.Err? {
      return RetryFailure(added.error, 500);
    }
    resp := RetrySuccess(jobId);
  }

  // ---------------------------------------------------------------------------
  // job-status
  // ---------------------------------------------------------------------------

  /** One entry of `statuses`: `unknown` for an id the queue does not hold. */
  datatype StatusRecord =
    | Unknown(jobId: string)
    | Known(jobId: string, status: string, progress: Json, result: Option<Json>, error: Option<string>)

  function Status(jobs: map<string, Job>, id: string): (s: StatusRecord)
    ensures s.jobId == id
    ensures s.Unknown? <==> id !in jobs
    ensures s.Known? ==>
      s.status == jobs[id].state && s.progress == jobs[id].progress &&
      s.result == jobs[id].returnvalue && s.error == jobs[id].failedReason
  {
    if id !in jobs then Unknown(id)
    else
      var job := jobs[id];
      Known(id, job.state, job.progress, job.returnvalue, job.failedReason)
  }

  /** `jobIds.map(...)`: one record per requested id, in request order. */
  function Statuses(jobs: map<string, Job>, ids: seq<string>): (r: seq<StatusRecord>)
    ensures |r| == |ids| && forall i :: 0 <= i < |ids| ==> r[i] == Status(jobs, ids[i])
  {
    seq(|ids|, i requires 0 <= i < |ids| => Status(jobs, ids[i]))
  }


  /** The first failure among the first `n` outcomes, if any. */
  function FirstFailure(outcomes: seq<Option<string>>, n: nat): (r: Option<string>)
    ensures r.None? <==> forall k :: 0 <= k < n ==> Outcome(outcomes, k).None?
    ensures r.Some? ==> exists k :: 0 <= k < n && Outcome(outcomes, k) == r && forall j :: 0 <= j < k ==> Outcome(outcomes, j).None?
  {
    if n == 0 then None
    else if FirstFailure(outcomes, n - 1).Some? then FirstFailure(outcomes, n - 1)
    else Outcome(outcomes, n - 1)
  }

  /**
   * `POST /api/job-status`: one `getJob` per requested id, all of them
   * started by `Promise.all`; the route rejects when any of them throws, and
   * otherwise answers the records. It adds and removes nothing.
   */
  method JobStatus(queue: RenderQueue, ids: seq<string>) returns (r: Result<seq<StatusRecord>, string>)
    modifies queue
    ensures queue.jobs == old(queue.jobs) && queue.calls == old(queue.calls)
    ensures queue.outcomes == Drop(old(queue.outcomes), |ids|)
    ensures FirstFailure(old(queue.outcomes), |ids|).Some? ==> r == Err(FirstFailure(old(queue.outcomes), |ids|).value)
    ensures FirstFailure(old(queue.outcomes), |ids|).None? ==> r == Ok(Statuses(queue.jobs, ids))
  {
    var statuses: seq<StatusRecord> := [];
    var failed: Option<string> := None;
    ghost var o := queue.outcomes;
    for i := 0 to |ids|
      invariant queue.jobs == old(queue.jobs) && queue.calls == old(queue.calls)
      invariant queue.outcomes == Drop(o, i)
      invariant failed == FirstFailure(o, i)
      invariant failed.None? ==> statuses == Statuses(queue.jobs, ids[..i])
    {
      DropNext(o, i);
      var job := queue.GetJob(ids[i]);
      if job.Err? {
        if failed.None? {
          failed := Some(job.error);
        }
      } else if failed.None? {
        var record := match job.value
          case None => Unknown(ids[i])
          case Some(j) => Known(ids[i], j.state, j.progress, j.returnvalue, j.failedReason);
        assert ids[..i + 1] == ids[..i] + [ids[i]];
        statuses := statuses + [record];
      }
    }
    if failed.Some? {
      return Err(failed.value);
    }
    assert ids[..|ids|] == ids;
    return Ok(statuses);
  }
}
