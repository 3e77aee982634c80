/**
 * Where an endpoint listens: the listener prefix, extended by the instance id
 * when one is given, and the task queue under it.
 */
module Addressing {
  import opened Wrappers
  import opened Protocol

  /** The listener prefix of an endpoint built from `prefix` and the optional instance id. */
  function Listener(prefix: Address, id: Option<string>): (listener: Address)
    ensures |listener| >= |prefix| && listener[..|prefix|] == prefix
    ensures Truthy(id) <==> |listener| > |prefix|
    ensures Truthy(id) ==> listener[|prefix|] == '/' && listener[|prefix| + 1..] == id.value
  {
    if Truthy(id) then prefix + "/" + id.value else prefix
  }

  const TASK_SUFFIX: string := "/task"

  /** The queue on which the task executor receives requests. */
  function TaskQueue(listener: Address): (queue: Address)
    ensures |queue| == |listener| + |TASK_SUFFIX|
    ensures queue[..|listener|] == listener && queue[|listener|..] == TASK_SUFFIX
  {
    listener + TASK_SUFFIX
  }

  /** Different listeners have different task queues. */
  lemma TaskQueueInjective(a: Address, b: Address)
    requires TaskQueue(a) == TaskQueue(b)
    ensures a == b
  {
  }

  /** The task queue of an endpoint, spelled out from its construction parameters. */
  lemma TaskQueueOfEndpoint(prefix: Address, id: Option<string>)
    ensures Truthy(id) ==> TaskQueue(Listener(prefix, id)) == prefix + "/" + id.value + "/task"
    ensures !Truthy(id) ==> TaskQueue(Listener(prefix, id)) == prefix + "/task"
  {
  }

  /**
   * Endpoints sharing a prefix but not an instance id never share a task
   * queue, and an endpoint with an id never listens on the id-less queue.
   */
  lemma InstancesListenApart(prefix: Address, a: Option<string>, b: Option<string>)
    requires Truthy(a) && (b.None? || Truthy(b))
    requires b.Some? ==> a.value != b.value
    ensures TaskQueue(Listener(prefix, a)) != TaskQueue(Listener(prefix, b))
  {
  }
}
