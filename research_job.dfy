/**
 * The queue worker (`researchJob`): runs the orchestrator for the job's
 * request and, when it raises, marks the request `failed`. The `failed`
 * update is not guarded, so when it raises in turn (the request does not
 * exist) its error escapes the worker.
 */
module ResearchJob {
  import opened Wrappers
  import opened Records
  import opened Store
  import opened LangchainIntegration
  import opened ResearchService

  const FailedStatus: string := "failed"

  /** The writes `researchJob` issues on the store `t`, and how it ends. */
  function JobRun(t: Tables, job: Job, env: Env, llm: Llm): (r: Run)
    ensures var process := ProcessRun(t, job.requestId, env, llm).effects;
      && |process| <= |r.effects| <= |process| + 1
      && r.effects[..|process|] == process
    ensures r.outcome.Fail? ==> r.outcome.error == RecordNotFound
  {
    var run := ProcessRun(t, job.requestId, env, llm);
    if run.outcome == Pass then run
    else if job.requestId in ApplyAll(t, run.effects).requests then
      Run(run.effects + [RequestUpdated(job.requestId, StatusPatch(FailedStatus))], Pass)
    else Run(run.effects, Fail(RecordNotFound))
  }

  /**
   * For a request that exists the worker never raises and leaves the
   * request in a terminal state: either deleted and archived as
   * `completed`, or still in place with status `failed` and no archive
   * entry. Documents, keys and the queue are untouched either way.
   */
  lemma JobReachesTerminalStatus(t: Tables, job: Job, env: Env, llm: Llm)
    requires job.requestId in t.requests
    ensures JobRun(t, job, env, llm).outcome == Pass
    ensures var id := job.requestId;
      var u := ApplyAll(t, JobRun(t, job, env, llm).effects);
      || (id !in u.requests && |u.activityLog| == |t.activityLog| + 1
          && u.activityLog[|t.activityLog|].status == "completed")
      || (id in u.requests && u.requests[id].status == FailedStatus && u.activityLog == t.activityLog)
    ensures var u := ApplyAll(t, JobRun(t, job, env, llm).effects);
      u.documents == t.documents && u.apiKeys == t.apiKeys && u.queue == t.queue
  {
    var id := job.requestId;
    var run := ProcessRun(t, id, env, llm);
    if run.outcome == Pass {
      ProcessSuccessState(t, id, env, llm);
    } else {
      ProcessAbortState(t, id, env, llm);
      ApplyAllSnoc(t, run.effects, RequestUpdated(id, StatusPatch(FailedStatus)));
    }
  }

  /**
   * A job whose request does not exist: the orchestrator raises before any
   * write, the `failed` update raises too, and that error is the worker's.
   */
  lemma JobMissingRequestEscapes(t: Tables, job: Job, env: Env, llm: Llm)
    requires job.requestId !in t.requests
    ensures JobRun(t, job, env, llm) == Run([], Fail(RecordNotFound))
  {
    ProcessMissingRequest(t, job.requestId, env, llm);
  }

  /** The worker raises exactly when the job's request does not exist. */
  lemma JobRaisesIffRequestMissing(t: Tables, job: Job, env: Env, llm: Llm)
    ensures JobRun(t, job, env, llm).outcome.Fail? <==> job.requestId !in t.requests
  {
    if job.requestId in t.requests {
      JobReachesTerminalStatus(t, job, env, llm);
    } else {
      JobMissingRequestEscapes(t, job, env, llm);
    }
  }

  /**
   * After a successful run the worker writes nothing more; after a failed
   * run of an existing request it writes one update, which sets the status
   * to `failed` and leaves every other field as it is.
   */
  lemma JobAddsOnlyFailedStatus(t: Tables, job: Job, env: Env, llm: Llm)
    ensures ProcessRun(t, job.requestId, env, llm).outcome == Pass ==>
      JobRun(t, job, env, llm) == ProcessRun(t, job.requestId, env, llm)
    ensures ProcessRun(t, job.requestId, env, llm).outcome.Fail? && job.requestId in t.requests ==>
      JobRun(t, job, env, llm).effects
      == ProcessRun(t, job.requestId, env, llm).effects + [RequestUpdated(job.requestId, StatusPatch(FailedStatus))]
  {
    if ProcessRun(t, job.requestId, env, llm).outcome.Fail? && job.requestId in t.requests {
      ProcessAbortState(t, job.requestId, env, llm);
    }
  }

  /** The `failed` update changes the status field only. */
  lemma FailedPatchSetsOnlyStatus(r: ResearchRequest)
    ensures ApplyPatch(r, StatusPatch(FailedStatus)) == r.(status := FailedStatus)
  {
  }

  /** `researchJob`, issuing its writes against the store. */
  method RunResearchJob(db: Database, job: Job, env: Env, llm: Llm) returns (r: Outcome<string>)
    modifies db
    ensures var run := JobRun(old(db.Snapshot()), job, env, llm);
      && r == run.outcome
      && db.Snapshot() == ApplyAll(old(db.Snapshot()), run.effects)
      && db.history == old(db.history) + run.effects
  {
    ghost var t0 := db.Snapshot();
    ghost var run := ProcessRun(t0, job.requestId, env, llm);
    var processed := ProcessResearchRequestQueue(db, job.requestId, env, llm);
    if processed == Pass {
      return Pass;
    }
    r := db.UpdateRequest(job.requestId, StatusPatch(FailedStatus));
    ApplyAllSnoc(t0, run.effects, RequestUpdated(job.requestId, StatusPatch(FailedStatus)));
  }
}
