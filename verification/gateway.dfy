/** The HTTP front door: job submission and the task-state projection. Requests
    and responses are plain values; the task queue is a sequence of jobs and
    the result backend a map from task id to recorded state. */
module Gateway {
  import opened Wrappers
  import Config
  import Tasks
  import ObjectStore

  /** The task `predict` enqueues. */
  const SegmentationTask := "run_nnunet"

  const PendingState := "PENDING"
  const FailureState := "FAILURE"
  const SuccessState := "SUCCESS"
  const PendingText := "Pending..."

  /** One enqueued task invocation: its id, task name and positional arguments. */
  datatype Job = Job(id: string, task: string, args: seq<string>)

  /** The request body as the handler sees it: absent or not JSON, or a JSON object. */
  datatype RequestBody = NotJson | JsonObject(fields: map<string, string>)

  /** The exceptions `predict` turns into a 500 response. */
  datatype PredictError =
    | NoJsonBody                       // subscripting the missing JSON body fails
    | MissingField(name: string)       // `uid` or `cid` is not in the body
    | EnqueueFailed(message: string)   // the broker refused the task

  /** `predict`'s response: 202 with the new task id, or 500 with the error. */
  datatype PredictReply = Accepted(taskId: string) | ServerError(error: PredictError)
  {
    function Code(): int
    {
      if Accepted? then 202 else 500
    }
  }

  /** The queue after a submission, and the reply sent. */
  datatype Submission = Submission(queue: seq<Job>, reply: PredictReply)

  /** `predict()`: reads `uid` then `cid` from the body and enqueues the
      segmentation task with `[uid, cid]`. `broker` is the broker's answer to
      the enqueue: the new task id, or the error it raised. Any exception
      yields a 500 and leaves the queue as it was. */
  function Predict(body: RequestBody, queue: seq<Job>, broker: Result<string, string>): (s: Submission)
    ensures s.reply.Code() == 202 <==>
              body.JsonObject? && "uid" in body.fields && "cid" in body.fields && broker.Success?
    ensures s.reply.Accepted? ==>
              s.reply.taskId == broker.value
              && s.queue == queue + [Job(broker.value, SegmentationTask, [body.fields["uid"], body.fields["cid"]])]
    ensures s.reply.ServerError? ==> s.queue == queue
    ensures body.NotJson? ==> s.reply == ServerError(NoJsonBody)
    ensures body.JsonObject? && "uid" !in body.fields ==> s.reply == ServerError(MissingField("uid"))
    ensures body.JsonObject? && "uid" in body.fields && "cid" !in body.fields
            ==> s.reply == ServerError(MissingField("cid"))
    ensures body.JsonObject? && "uid" in body.fields && "cid" in body.fields && broker.Failure?
            ==> s.reply == ServerError(EnqueueFailed(broker.error))
  {
    match body
    case NotJson => Submission(queue, ServerError(NoJsonBody))
    case JsonObject(fields) =>
      if "uid" !in fields then Submission(queue, ServerError(MissingField("uid")))
      else if "cid" !in fields then Submission(queue, ServerError(MissingField("cid")))
      else
        match broker
        case Failure(message) => Submission(queue, ServerError(EnqueueFailed(message)))
        case Success(id) => Submission(queue + [Job(id, SegmentationTask, [fields["uid"], fields["cid"]])], Accepted(id))
  }

  /** What a task's result field holds: nothing yet, its return value, or the
      exception it raised (kept as its text). */
  datatype TaskValue = NoValue | Returned(value: string) | Raised(message: string)

  /** A task as the result backend records it. */
  datatype TaskMeta = TaskMeta(state: string, info: TaskValue)

  type Backend = map<string, TaskMeta>

  /** `str()` of a task's info. */
  function Str(v: TaskValue): string
  {
    match v
    case NoValue => "None"
    case Returned(value) => value
    case Raised(message) => message
  }

  /** The backend's view of a task id; an id it has no record of reads as pending. */
  function Lookup(backend: Backend, taskId: string): (m: TaskMeta)
    ensures taskId !in backend ==> m == TaskMeta(PendingState, NoValue)
    ensures taskId in backend ==> m == backend[taskId]
  {
    if taskId in backend then backend[taskId] else TaskMeta(PendingState, NoValue)
  }

  /** The body of a `result` response: the state, plus either `status` or
      `result` (absent fields are `None`). */
  datatype StatusReply = StatusReply(state: string, status: Option<string>, result: Option<TaskValue>)

  /** The three-way projection `result()` makes of a task's recorded state. */
  function Project(meta: TaskMeta): (r: StatusReply)
    ensures r.state == meta.state
    ensures r.status.Some? != r.result.Some?
    ensures r.result.Some? <==> meta.state != PendingState && meta.state != FailureState
    ensures meta.state == PendingState ==> r.status == Some(PendingText)
    ensures meta.state == FailureState ==> r.status == Some(Str(meta.info))
    ensures r.result.Some? ==> r.result.value == meta.info
  {
    if meta.state == PendingState then StatusReply(meta.state, Some(PendingText), None)
    else if meta.state != FailureState then StatusReply(meta.state, None, Some(meta.info))
    else StatusReply(meta.state, Some(Str(meta.info)), None)
  }

  /** `result(task_id)`: the projection of whatever the backend holds for the id. */
  function ResultOf(backend: Backend, taskId: string): (r: StatusReply)
    ensures r.state == Lookup(backend, taskId).state
    ensures r.status.Some? != r.result.Some?
    ensures taskId !in backend ==> r == StatusReply(PendingState, Some(PendingText), None)
  {
    Project(Lookup(backend, taskId))
  }

  /** How the result backend records a finished task run: its return value on
      success, the text of its exception on failure. */
  function Record(run: Tasks.TaskRun): (m: TaskMeta)
    ensures m.state == SuccessState <==> run.outcome.Success?
    ensures m.state == FailureState <==> run.outcome.Failure?
    ensures run.outcome.Success? ==> m.info == Returned(run.outcome.value)
    ensures run.outcome.Failure? ==> m.info == Raised(Tasks.ErrorText(run.outcome.error))
  {
    match run.outcome
    case Success(value) => TaskMeta(SuccessState, Returned(value))
    case Failure(e) => TaskMeta(FailureState, Raised(Tasks.ErrorText(e)))
  }

  /** A task just accepted, and not yet seen by the backend, reads as pending. */
  lemma AcceptedTaskIsPending(body: RequestBody, queue: seq<Job>, broker: Result<string, string>,
                              backend: Backend)
    requires Predict(body, queue, broker).reply.Accepted?
    requires Predict(body, queue, broker).reply.taskId !in backend
    ensures ResultOf(backend, Predict(body, queue, broker).reply.taskId)
         == StatusReply(PendingState, Some(PendingText), None)
  {
  }

  /** A segmentation run whose command exits non-zero is reported as a failure
      whose status is the command's stderr, verbatim, with no result. */
  lemma FailedComputeReportsStderr(prefix: Config.PrefixBuilder, uid: string, cid: string,
                                   store: ObjectStore.Store, fetchStatus: int, local: ObjectStore.LocalFs,
                                   compute: Tasks.ComputeResult, backend: Backend, taskId: string)
    requires compute.returnCode != 0
    ensures var run := Tasks.RunNnunet(prefix, uid, cid, store, fetchStatus, local, compute);
            ResultOf(backend[taskId := Record(run)], taskId)
            == StatusReply(FailureState, Some(compute.stderr), None)
  {
  }

  /** A segmentation run whose command exits zero is reported as a success
      whose result is the output directory under the case prefix. */
  lemma SucceededComputeReportsOutputDir(prefix: Config.PrefixBuilder, uid: string, cid: string,
                                         store: ObjectStore.Store, fetchStatus: int, local: ObjectStore.LocalFs,
                                         compute: Tasks.ComputeResult, backend: Backend, taskId: string)
    requires compute.returnCode == 0
    ensures var run := Tasks.RunNnunet(prefix, uid, cid, store, fetchStatus, local, compute);
            ResultOf(backend[taskId := Record(run)], taskId)
            == StatusReply(SuccessState, None, Some(Returned(prefix(uid, cid) + Tasks.DrcPrefix)))
  {
  }

  /** As written, every accepted segmentation job ends up reported as failed
      with the text of `KeyError('obs_prefix')` under the configuration the
      service sets up. */
  lemma AsWrittenJobReportsKeyError(uid: string, cid: string, store: ObjectStore.Store, fetchStatus: int,
                                    local: ObjectStore.LocalFs, compute: Tasks.ComputeResult,
                                    backend: Backend, taskId: string)
    ensures var run := Tasks.RunNnunetAsWritten(Tasks.ServiceConf, uid, cid, store, fetchStatus, local, compute);
            ResultOf(backend[taskId := Record(run)], taskId)
            == StatusReply(FailureState, Some("'obs_prefix'"), None)
  {
    Tasks.ServiceConfRaisesKeyError(uid, cid, store, fetchStatus, local, compute, Pass, 0, _ => []);
    assert Tasks.ErrorText(Tasks.KeyError(Tasks.ObsPrefixName)) == "'obs_prefix'";
  }
}
