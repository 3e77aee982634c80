/**
 * One request/reply exchange end to end: the executor's reply, delivered to
 * the requester's reply receiver, settles the requester's pending call.
 */
module Exchange {
  import opened Protocol
  import opened Executor
  import opened Correlation

  /**
   * The pending call is settled exactly once by the executor's reply: it is
   * resolved with {code: 1, result} holding the handler's value exactly when
   * the task is registered and the handler returned, and rejected with the
   * executor's failure body otherwise.
   */
  lemma TaskCallSettles<V>(r: Registry<V>, tasks: set<TaskName>, request: TaskRequest<V>, outcome: Outcome<V>)
    requires Consistent(r) && request.correlationId in r.operations
    ensures var response := HandleTaskMessage(tasks, request, outcome);
            var r' := Reply(r, response.correlationId, response.body);
            && request.correlationId !in r'.operations
            && |r'.log| == |r.log| + 1
            && (r'.log[|r.log|].Resolved? <==> Registered(tasks, request.body) && outcome.Returned?)
            && (Registered(tasks, request.body) && outcome.Returned? ==>
                  r'.log[|r.log|] == Resolved(request.correlationId, Result(SUCCESS_CODE, outcome.value)))
            && (!(Registered(tasks, request.body) && outcome.Returned?) ==>
                  r'.log[|r.log|] == Rejected(request.correlationId, response.body))
  {
  }
}
