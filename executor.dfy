/**
 * The task executor: the handler bound to `<listener>/task` decides one
 * response body per inbound request and always answers to the request's
 * reply address with the request's correlation id. The registered handler is
 * not executed here; what it did is an input (`Outcome`).
 */
module Executor {
  import opened Wrappers
  import opened Protocol

  /** What the awaited handler did: returned a value, or threw (its error already rendered as text). */
  datatype Outcome<V> = Returned(value: V) | Threw(error: string)

  /** An inbound task request: the message body and its reply_to and correlation_id properties. */
  datatype TaskRequest<V> = TaskRequest(body: RequestBody<V>, replyTo: Address, correlationId: Id)

  /** The reply sent back on a sender opened to the request's reply address. */
  datatype TaskResponse<V> = TaskResponse(to: Address, correlationId: Id, body: ResponseBody<V>)

  const NO_TASK_MESSAGE: string := "No task requested"
  const UNSUPPORTED_PREFIX: string := "Unsupported task '"
  const UNSUPPORTED_SUFFIX: string := "' requested"
  const RUNTIME_ERROR_PREFIX: string := "Task runtime error "

  /** The request names a task (truthy) that the task table holds, so the handler is invoked. */
  predicate Registered<V>(tasks: set<TaskName>, body: RequestBody<V>)
  {
    Truthy(body.task) && body.task.value in tasks
  }

  /** The failure message for a task name the table does not hold. */
  function UnsupportedMessage(task: TaskName): (m: string)
    ensures |m| == |UNSUPPORTED_PREFIX| + |task| + |UNSUPPORTED_SUFFIX|
  {
    UNSUPPORTED_PREFIX + task + UNSUPPORTED_SUFFIX
  }

  /** Reads the task name back out of an "unsupported task" message, if the message has that shape. */
  function UnsupportedTaskOf(m: string): (task: Option<TaskName>)
    ensures task.Some? ==> |task.value| + |UNSUPPORTED_PREFIX| + |UNSUPPORTED_SUFFIX| == |m|
  {
    var n := |UNSUPPORTED_PREFIX| + |UNSUPPORTED_SUFFIX|;
    if |m| >= n && m[..|UNSUPPORTED_PREFIX|] == UNSUPPORTED_PREFIX && m[|m| - |UNSUPPORTED_SUFFIX|..] == UNSUPPORTED_SUFFIX
    then Some(m[|UNSUPPORTED_PREFIX|..|m| - |UNSUPPORTED_SUFFIX|])
    else None
  }

  /** The task name is embedded verbatim in the "unsupported task" message. */
  lemma UnsupportedMessageNamesTask(task: TaskName)
    ensures UnsupportedTaskOf(UnsupportedMessage(task)) == Some(task)
  {
  }

  /** The response body chosen for a request body, given the task table and what the handler did. */
  function ResponseFor<V>(tasks: set<TaskName>, body: RequestBody<V>, outcome: Outcome<V>): (b: ResponseBody<V>)
    // the four codes partition the requests
    ensures b.code == NO_TASK_CODE <==> !Truthy(body.task)
    ensures b.code == UNSUPPORTED_TASK_CODE <==> Truthy(body.task) && body.task.value !in tasks
    ensures b.code == TASK_FAILED_CODE <==> Registered(tasks, body) && outcome.Threw?
    ensures IsSuccess(b) <==> Registered(tasks, body) && outcome.Returned?
    ensures b.code == SUCCESS_CODE || b.code == NO_TASK_CODE || b.code == UNSUPPORTED_TASK_CODE || b.code == TASK_FAILED_CODE
    // the exact bodies
    ensures !Truthy(body.task) ==> b == Failure(NO_TASK_CODE, NO_TASK_MESSAGE)
    ensures Truthy(body.task) && body.task.value !in tasks ==> b == Failure(UNSUPPORTED_TASK_CODE, UnsupportedMessage(body.task.value))
    ensures Registered(tasks, body) && outcome.Returned? ==> b == Result(SUCCESS_CODE, outcome.value)
    ensures Registered(tasks, body) && outcome.Threw? ==> b == Failure(TASK_FAILED_CODE, RUNTIME_ERROR_PREFIX + outcome.error)
  {
    if Truthy(body.task) then
      if body.task.value in tasks then
        match outcome
        case Returned(v) => Result(SUCCESS_CODE, v)
        case Threw(e) => Failure(TASK_FAILED_CODE, RUNTIME_ERROR_PREFIX + e)
      else
        Failure(UNSUPPORTED_TASK_CODE, UnsupportedMessage(body.task.value))
    else
      Failure(NO_TASK_CODE, NO_TASK_MESSAGE)
  }

  /** The reply to one inbound task request. */
  function HandleTaskMessage<V>(tasks: set<TaskName>, request: TaskRequest<V>, outcome: Outcome<V>): (response: TaskResponse<V>)
    ensures response.to == request.replyTo
    ensures response.correlationId == request.correlationId
    ensures response.body == ResponseFor(tasks, request.body, outcome)
  {
    TaskResponse(request.replyTo, request.correlationId, ResponseFor(tasks, request.body, outcome))
  }

  /**
   * Without a registered task the handler is never invoked: the reply does
   * not depend on what the handler would have done.
   */
  lemma HandlerNotConsulted<V>(tasks: set<TaskName>, request: TaskRequest<V>, o1: Outcome<V>, o2: Outcome<V>)
    requires !Registered(tasks, request.body)
    ensures HandleTaskMessage(tasks, request, o1) == HandleTaskMessage(tasks, request, o2)
  {
  }

  /** A reply from the executor is never mistaken for the requester's own timeout. */
  lemma ExecutorNeverTimesOut<V>(tasks: set<TaskName>, request: TaskRequest<V>, outcome: Outcome<V>)
    ensures HandleTaskMessage(tasks, request, outcome).body.code != TIMEOUT_CODE
  {
  }
}
