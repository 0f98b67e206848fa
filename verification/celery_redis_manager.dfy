/**
 * The job manager that bridges the process API to the task queue and its
 * key-value result store. The queue and the store are not modelled: what the
 * manager reads from them (the store's keys, whether a task is ready, its
 * state, name and result) arrives as parameters, and `base64.b64decode` is a
 * partial function parameter.
 */
module CeleryRedisManager {
  import opened Wrappers
  import Base64

  type bytes = seq<Base64.byte>

  /** The process API's job states. */
  datatype JobStatus = Accepted | Running | Successful | Failed | Dismissed

  /** The module-level `status` dictionary from task-queue states to job states. */
  const StatusMap: map<string, JobStatus> :=
    map["SUCCESS" := Successful, "STARTED" := Running, "PENDING" := Dismissed]

  /**
   * `status.get(state)`: three states are known, every other state (a failed,
   * revoked or retried task) has no job status.
   */
  function StatusOf(state: string): (r: Option<JobStatus>)
    ensures r == Some(Successful) <==> state == "SUCCESS"
    ensures r == Some(Running) <==> state == "STARTED"
    ensures r == Some(Dismissed) <==> state == "PENDING"
    ensures r.None? <==> state != "SUCCESS" && state != "STARTED" && state != "PENDING"
    ensures r != Some(Accepted) && r != Some(Failed)
  {
    if state in StatusMap then Some(StatusMap[state]) else None
  }

  /** Two states that have a job status have different ones. */
  lemma StatusOfInjective(a: string, b: string)
    requires StatusOf(a).Some? && StatusOf(a) == StatusOf(b)
    ensures a == b
  {
  }

  /** The `progress` field: a number in the job list, a text for a single job. */
  datatype Progress = Percent(n: int) | ProgressNote(text: string)

  /** The job dictionary the process API receives. */
  datatype JobRecord = JobRecord(
    identifier: string,
    processId: Option<string>,
    jobStart: string,
    jobEnd: string,
    status: Option<JobStatus>,
    location: Option<string>,
    mimetype: Option<string>,
    message: string,
    progress: Progress)

  /** The key under which the result store keeps a task's meta data. */
  const TaskMetaPrefix: string := "celery-task-meta-"

  function TaskMetaKey(jobId: string): string
  {
    TaskMetaPrefix + jobId
  }

  predicate StartsWith(s: string, prefix: string)
  {
    |prefix| <= |s| && s[..|prefix|] == prefix
  }

  predicate EndsWith(s: string, suffix: string)
  {
    |suffix| <= |s| && s[|s| - |suffix|..] == suffix
  }

  /** The longest start of `s` without a line break: what `(.*)` captures. */
  function UntilNewline(s: string): (r: string)
    ensures '\n' !in r && StartsWith(s, r)
    ensures |r| < |s| ==> s[|r|] == '\n'
  {
    if s == [] || s[0] == '\n' then []
    else
      var rest := UntilNewline(s[1..]);
      assert s == [s[0]] + s[1..];
      [s[0]] + rest
  }

  lemma UntilNewlineWhole(s: string)
    requires '\n' !in s
    ensures UntilNewline(s) == s
  {
    var r := UntilNewline(s);
    assert |r| == |s|;
    assert s[..|r|] == r;
  }

  /**
   * The job identifier of a task meta key: `re.match('celery-task-meta-(.*)', key)`
   * captures what follows the prefix, up to a line break.
   */
  function JobIdOfKey(key: string): string
    requires StartsWith(key, TaskMetaPrefix)
  {
    UntilNewline(key[|TaskMetaPrefix|..])
  }

  /** The identifier read back from a task's own key is the task's identifier. */
  lemma JobIdOfTaskMetaKey(jobId: string)
    requires '\n' !in jobId
    ensures StartsWith(TaskMetaKey(jobId), TaskMetaPrefix)
    ensures JobIdOfKey(TaskMetaKey(jobId)) == jobId
  {
    var key := TaskMetaKey(jobId);
    assert key[..|TaskMetaPrefix|] == TaskMetaPrefix;
    assert key[|TaskMetaPrefix|..] == jobId;
    UntilNewlineWhole(jobId);
  }

  /** The entry `get_jobs` lists for one task: always reported as successful. */
  function ListedJob(jobId: string): JobRecord
  {
    JobRecord(jobId, Some(""), "", "", Some(Successful), None, None, "ANy message", Percent(0))
  }

  /** The job list of a store whose keys come in the given order. */
  function JobsFromKeys(keys: seq<string>): seq<JobRecord>
  {
    if keys == [] then []
    else
      var last := keys[|keys| - 1];
      JobsFromKeys(keys[..|keys| - 1])
      + (if StartsWith(last, TaskMetaPrefix) then [ListedJob(JobIdOfKey(last))] else [])
  }

  /** The identifiers of a job list, in order. */
  function Identifiers(jobs: seq<JobRecord>): (ids: seq<string>)
    ensures |ids| == |jobs|
    ensures forall k :: 0 <= k < |jobs| ==> ids[k] == jobs[k].identifier
  {
    if jobs == [] then [] else Identifiers(jobs[..|jobs| - 1]) + [jobs[|jobs| - 1].identifier]
  }

  /** The store keys of a list of tasks. */
  function TaskMetaKeys(ids: seq<string>): (keys: seq<string>)
    ensures |keys| == |ids|
    ensures forall k :: 0 <= k < |ids| ==> keys[k] == TaskMetaKey(ids[k])
  {
    if ids == [] then [] else TaskMetaKeys(ids[..|ids| - 1]) + [TaskMetaKey(ids[|ids| - 1])]
  }

  /** Every listed job is reported successful, whatever state its task is in. */
  lemma {:induction false} JobsFromKeysAllSuccessful(keys: seq<string>, job: JobRecord)
    requires job in JobsFromKeys(keys)
    ensures job.status == Some(Successful) && job.processId == Some("")
  {
    if keys != [] {
      var init := keys[..|keys| - 1];
      if job in JobsFromKeys(init) {
        JobsFromKeysAllSuccessful(init, job);
      }
    }
  }

  /** Listing skips the keys of other kinds and keeps the store's order. */
  lemma {:induction false} JobsFromKeysAppend(a: seq<string>, b: seq<string>)
    ensures JobsFromKeys(a + b) == JobsFromKeys(a) + JobsFromKeys(b)
  {
    if b == [] {
      assert a + b == a;
    } else {
      var b' := b[..|b| - 1];
      assert (a + b)[..|a + b| - 1] == a + b';
      JobsFromKeysAppend(a, b');
    }
  }

  /**
   * Listing a store that holds the meta keys of some tasks gives back exactly
   * those tasks' identifiers, in the same order.
   */
  lemma {:induction false} JobsOfTaskMetaKeys(ids: seq<string>)
    requires forall k :: 0 <= k < |ids| ==> '\n' !in ids[k]
    ensures Identifiers(JobsFromKeys(TaskMetaKeys(ids))) == ids
  {
    if ids != [] {
      var init := ids[..|ids| - 1];
      var last := ids[|ids| - 1];
      JobsOfTaskMetaKeys(init);
      JobIdOfTaskMetaKey(last);
      var keys := TaskMetaKeys(ids);
      assert keys[..|keys| - 1] == TaskMetaKeys(init);
      var jobs := JobsFromKeys(keys);
      assert jobs == JobsFromKeys(TaskMetaKeys(init)) + [ListedJob(last)];
      assert jobs[..|jobs| - 1] == JobsFromKeys(TaskMetaKeys(init));
    }
  }

  /** A task's result as the queue hands it back: a list of values, or anything else. */
  datatype TaskResult = ListResult(items: seq<string>) | OtherResult

  /** What `get_job_result` returns: `(None,)`, or the media type and the decoded bytes. */
  datatype JobOutput = NoOutput | Output(mimetype: string, payload: bytes)

  /** The exceptions `get_job_result` lets escape. */
  datatype ManagerError =
    | NoStoredKey       // IndexError: no store key ends with the job identifier
    | UnboundMimetype   // UnboundLocalError: a ready result that is not a list

  /** The task handle `apply_async` returns, kept in `self.results`. */
  datatype AsyncHandle = AsyncHandle(id: string, processId: string, data: map<string, string>)

  /** Reads a configuration entry with a default, as `dict.get` does. */
  function Get(m: map<string, string>, key: string, default: string): (v: string)
    ensures key in m ==> v == m[key]
    ensures key !in m ==> v == default
  {
    if key in m then m[key] else default
  }

  class Manager {
    var isAsync: bool
    var results: map<string, AsyncHandle>
    var broker: string
    var backend: string
    var resultBackend: string

    /** `__init__`: no dispatched tasks yet; the queue addresses default to a local Redis. */
    constructor (managerDef: map<string, string>)
      ensures isAsync && results == map[]
      ensures broker == Get(managerDef, "broker", "redis://")
      ensures backend == Get(managerDef, "backend", "redis://")
      ensures resultBackend == Get(managerDef, "result_backend", "redis://")
    {
      isAsync := true;
      results := map[];
      broker := Get(managerDef, "broker", "redis://");
      backend := Get(managerDef, "backend", "redis://");
      resultBackend := Get(managerDef, "result_backend", "redis://");
    }

    /** `delete_job`: the revoke request is sent and its outcome ignored. */
    method DeleteJob(jobId: string) returns (ok: bool)
      ensures ok
    {
      ok := true;
    }

    /**
     * `get_jobs`: one entry per task meta key of the store, in the store's
     * order. The status filter is ignored.
     */
    method GetJobs(storeKeys: seq<string>, status: Option<JobStatus>) returns (jobs: seq<JobRecord>)
      ensures jobs == JobsFromKeys(storeKeys)
    {
      jobs := [];
      for i := 0 to |storeKeys|
        invariant jobs == JobsFromKeys(storeKeys[..i])
      {
        assert storeKeys[..i + 1][..i] == storeKeys[..i];
        var key := storeKeys[i];
        if StartsWith(key, TaskMetaPrefix) {
          jobs := jobs + [ListedJob(JobIdOfKey(key))];
        }
      }
      assert storeKeys[..|storeKeys|] == storeKeys;
    }

    /**
     * `get_job` for a task whose queue name is `taskName` and whose state is
     * `state`. The completion time is never copied into the record, so both
     * times are empty.
     */
    function GetJob(jobId: string, taskName: Option<string>, state: string): (r: JobRecord)
      ensures r.identifier == jobId && r.processId == taskName
      ensures r.jobStart == "" && r.jobEnd == ""
      ensures r.status.Some? <==> state in StatusMap
      ensures r.status.Some? ==> r.status.value == StatusMap[state]
      ensures r.location == Some("Dummy") && r.mimetype.None? && r.message == "" && r.progress == ProgressNote("Not Set")
    {
      JobRecord(jobId, taskName, "", "", StatusOf(state), Some("Dummy"), None, "", ProgressNote("Not Set"))
    }

    /**
     * `get_job_result`. The store must hold a key ending in the job
     * identifier (the text under it is read and evaluated, but not used).
     * A task that is not ready gives `(None,)`; a ready list result gives its
     * first item and the decoded second item, or `(None,)` when either is
     * missing or the decoding fails; any other ready result leaves the media
     * type unbound.
     */
    function GetJobResult(jobId: string, storeKeys: seq<string>, ready: bool, result: TaskResult,
                          b64decode: string -> Option<bytes>): (r: Result<JobOutput, ManagerError>)
      ensures (forall k :: 0 <= k < |storeKeys| ==> !EndsWith(storeKeys[k], jobId)) <==> r == Err(NoStoredKey)
      ensures r.Err? && r.error == UnboundMimetype <==>
                (exists k :: 0 <= k < |storeKeys| && EndsWith(storeKeys[k], jobId)) && ready && result.OtherResult?
      ensures r.Ok? && r.value.Output? <==>
                (exists k :: 0 <= k < |storeKeys| && EndsWith(storeKeys[k], jobId)) && ready && result.ListResult?
                && |result.items| >= 2 && b64decode(result.items[1]).Some?
      ensures r.Ok? && r.value.Output? ==>
                r.value.mimetype == result.items[0] && Some(r.value.payload) == b64decode(result.items[1])
    {
      if forall k :: 0 <= k < |storeKeys| ==> !EndsWith(storeKeys[k], jobId) then Err(NoStoredKey)
      else if !ready then Ok(NoOutput)
      else
        match result
        case OtherResult => Err(UnboundMimetype)
        case ListResult(items) =>
          if |items| < 2 then Ok(NoOutput)
          else
            match b64decode(items[1])
            case None => Ok(NoOutput)
            case Some(payload) => Ok(Output(items[0], payload))
    }

    /**
     * `execute_process`: the task is dispatched under the job identifier and
     * its handle kept; the reply is always "accepted", whatever `isAsync` says.
     */
    method ExecuteProcess(processId: string, jobId: string, data: map<string, string>, isAsync: bool)
      returns (mimetype: string, outputs: Option<string>, status: JobStatus)
      modifies this`results
      ensures mimetype == "application/json" && outputs.None? && status == Accepted
      ensures results == old(results)[jobId := AsyncHandle(jobId, processId, data)]
    {
      var handle := AsyncHandle(jobId, processId, data);
      results := results[handle.id := handle];
      return "application/json", None, Accepted;
    }
  }

  /**
   * A ready result that is a list `[mimetype, base64 text of the payload]`
   * gives back the mimetype and the payload, for any decoder that inverts the
   * standard encoding. That the worker stores its output in this form is an
   * assumption: the worker side is not modelled.
   */
  lemma ResultRoundTrip(m: Manager, jobId: string, storeKeys: seq<string>, mimetype: string, payload: bytes,
                        b64decode: string -> Option<bytes>)
    requires TaskMetaKey(jobId) in storeKeys
    requires b64decode(Base64.Encode(payload)) == Some(payload)
    ensures m.GetJobResult(jobId, storeKeys, true, ListResult([mimetype, Base64.Encode(payload)]), b64decode)
            == Ok(Output(mimetype, payload))
  {
    var k :| 0 <= k < |storeKeys| && storeKeys[k] == TaskMetaKey(jobId);
    assert EndsWith(storeKeys[k], jobId);
  }

  /** The strict decoder of RFC 4648 is such a decoder, so such a result gives back its payload. */
  lemma ResultRoundTripStrict(m: Manager, jobId: string, storeKeys: seq<string>, mimetype: string, payload: bytes)
    requires TaskMetaKey(jobId) in storeKeys
    ensures m.GetJobResult(jobId, storeKeys, true, ListResult([mimetype, Base64.Encode(payload)]), Base64.Decode)
            == Ok(Output(mimetype, payload))
  {
    Base64.DecodeEncode(payload);
    ResultRoundTrip(m, jobId, storeKeys, mimetype, payload, Base64.Decode);
  }
}
