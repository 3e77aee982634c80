# Comms: request/reply RPC and task dispatch over AMQP 1.0, modelled in Dafny

The `Comms` class of `amqp.js` is an endpoint that does two jobs over an AMQP 1.0
connection:

- **Server.** It listens on `<listener>/task`. For every task request whose
  body is present (not null or undefined) it picks a response body and sends it
  to the request's `reply_to` with the request's `correlation_id`.
- **Client.** `send` gives each request a fresh correlation id. It opens a
  sender to the target and a receiver with a dynamically assigned address. The
  receiver only supplies the `reply_to` address; the envelope, with the
  properties `reply_to`, `correlation_id` and `ttl`, goes out on the sender. A tracked call is recorded in `operations` with a
  timer. A reply with a positive code resolves the call's promise; a reply with
  any other code rejects it; the timer expiring rejects it with code -4.

This project models that core and proves what it promises. The modules are:

- `Protocol` (protocol.dfy): request and response bodies, response codes, the request envelope, the TTL and timer defaults, and JavaScript truthiness of optional values.
- `Addressing` (addressing.dfy): the listener prefix and the task queue.
- `Executor` (executor.dfy): choosing the task reply. This is pure; the handler's outcome is an input.
- `Correlation` (correlation.dfy): the correlation registry as a value. It holds the pending entries, the armed timers, the issued ids and a log of every settlement. The transitions send, reply and timeout are functions. Runs of events are folded over them, and the lemmas say that each correlation id is settled at most once.
- `Endpoint` (endpoint.dfy): the class `Comms`. Its fields are the registry, which the methods update in place, and the connection. Each method is proved against the `Correlation` transition it performs.
- `Exchange` (exchange.dfy): an executor reply delivered to a pending call.

Transport events become method calls that carry the event's data:
- the `receiver_open` address is the `replyTo` argument of `Send`;
- an inbound reply is `OnReply`;
- a timer expiring is `OnTimeout`;
- `connection_open` is `OnConnectionOpen`.

Modelling choices that follow the code:
- `task` and `extra.id` are tested by JavaScript truthiness. An empty string counts as absent, like `undefined`.
- A `timeout` of 0 falls back to the defaults: TTL 5000 and timer 10000.
- A reply is matched by the `correlation_id` of the reply message itself (amqp.js:130). That name shadows the call's own id, so `OnReply` takes the id from the message. It may settle any pending entry.
- `send` before `connect`: the program throws while opening the sender inside the promise executor (amqp.js:117), so the promise is rejected. The model records this as the settlement `NoConnection`, and nothing is registered.
- `close` sets no field. `connection` therefore stays non-null after `close`, and a later `connect` returns the closed connection without opening a new one.
- Correlation ids come from nanoid. The model requires each one to be new among all ids the endpoint has ever issued, not only among the ids pending now. Without this, a reused id could be settled a second time.

## Model

| member | source | states |
|---|---|---|
| `Protocol.TimedOutBody` | amqp.js:168 | the timeout rejection body has code -4, which the requester reads as failure |
| `Protocol.Ttl` | amqp.js:157 | the envelope TTL is the caller's timeout when truthy, otherwise 5000 |
| `Protocol.TimerDelay` | amqp.js:174 | a tracked call's timer delay is the caller's timeout when truthy, otherwise 10000 |
| `Addressing.Listener` | amqp.js:22 | the listener starts with the prefix; it is longer exactly when the id is truthy, and then it is prefix, "/", id |
| `Addressing.TaskQueue` | amqp.js:39 | the task queue is the listener followed by "/task" |
| `Addressing.TaskQueueInjective` | amqp.js:39 | equal task queues imply equal listeners |
| `Addressing.TaskQueueOfEndpoint` | amqp.js:17-39 | the task queue is prefix/id/task with a truthy id, otherwise prefix/task |
| `Addressing.InstancesListenApart` | amqp.js:15-22 | endpoints with the same prefix and different ids, or one with an id and one without, never share a task queue |
| `Executor.UnsupportedMessage` | amqp.js:64 | the length of the "Unsupported task '<task>' requested" message |
| `Executor.UnsupportedTaskOf` | amqp.js:64 | reading a task name back out of an unsupported-task message; a name it returns fits the message length |
| `Executor.UnsupportedMessageNamesTask` | amqp.js:63-65 | the unsupported-task message embeds the task name verbatim: parsing it back yields the name |
| `Executor.ResponseFor` | amqp.js:51-69 | code -1 exactly when the task is falsy, -2 exactly when it is truthy and unknown, -3 exactly when the handler threw, positive exactly when it returned; the exact bodies of all four branches; no other code |
| `Executor.HandleTaskMessage` | amqp.js:42-79 | every request is answered to its reply_to with its correlation_id, carrying the chosen body |
| `Executor.HandlerNotConsulted` | amqp.js:51-69 | with no task or an unknown task, the reply does not depend on any handler's outcome |
| `Executor.ExecutorNeverTimesOut` | amqp.js:51-69 | the executor never replies with the timeout code -4 |
| `Correlation.Empty` | amqp.js:23 | a new endpoint's registry is consistent, with no pending operation and no settlement |
| `Correlation.Dispatch` | amqp.js:114-179 | a send keeps the registry consistent; exactly a connected non-broadcast send adds one entry under its fresh id, with the timer delay; no other entry changes; a broadcast is acknowledged; a send without connection is rejected |
| `Correlation.Reply` | amqp.js:128-145 | a reply for a pending id resolves (code > 0) or rejects (code <= 0) it once, clears its timer and removes its entry; no other entry changes; a reply for an id not pending changes nothing |
| `Correlation.Timeout` | amqp.js:165-173 | an expiry for a pending id rejects it with the timeout body and removes it; otherwise nothing changes; no other entry changes |
| `Correlation.ArmedTimerFindsEntry` | amqp.js:165-177 | a timer that is still armed always finds its entry, so the guard at line 167 always holds |
| `Correlation.LateReplyIgnored` | amqp.js:134-143 | a reply after the timeout is a no-op |
| `Correlation.DuplicateReplyIgnored` | amqp.js:134-143 | a second reply with the same id is a no-op |
| `Correlation.TimeoutAfterReplyIgnored` | amqp.js:141 | once a reply has settled a call, its timer rejects nothing |
| `Correlation.Step` | amqp.js:114-183 | each event keeps the registry consistent (every issued id is pending or settled, never both, and settled at most once); the log and issued ids only grow; only a send that reuses an id is refused |
| `Correlation.RunConsistent` | amqp.js:114-183 | every interleaving of sends, replies and expiries keeps the registry consistent and only appends to the log |
| `Correlation.PendingOrSettledOnce` | amqp.js:134-177 | every issued call is either pending and never settled, or no longer pending and settled exactly once |
| `Correlation.SettledAtMostOnce` | amqp.js:134-170 | in a consistent registry, every correlation id appears at most once among the settlements |
| `Correlation.AtMostOnceAlongRun` | amqp.js:114-183 | along any run, each correlation id is settled at most once, and earlier settlements are kept |
| `Correlation.ExpiriesDrain` | amqp.js:165-177 | once every pending call's timer has fired, no entry and no armed timer remain, and every call that was pending has been settled exactly once |
| `Endpoint.Connection.constructor` | amqp.js:193 | a connection is opened with the given details |
| `Endpoint.Connection.Close` | amqp.js:204 | closing a connection leaves it closed |
| `Endpoint.Comms.constructor` | amqp.js:17-30 | the listener is composed from the prefix and the id; there is no connection and the registry is empty |
| `Endpoint.Comms.OnConnectionOpen` | amqp.js:38-39 | the task receiver listens on the endpoint's task queue |
| `Endpoint.Comms.OnTaskMessage` | amqp.js:42-79 | the task handler's reply, using the endpoint's own task table, is the executor's reply |
| `Endpoint.Comms.Send` | amqp.js:114-183 | the registry moves by Dispatch; the envelope carries the target, the dynamic reply address, the message, the correlation id and the TTL; without a connection nothing is sent |
| `Endpoint.Comms.OnReply` | amqp.js:128-145 | the registry moves by Reply, and the endpoint invariant is kept |
| `Endpoint.Comms.OnTimeout` | amqp.js:165-173 | the registry moves by Timeout, and the endpoint invariant is kept |
| `Endpoint.Comms.Connect` | amqp.js:189-196 | a connection is opened only when there is none; otherwise the existing connection is returned and nothing changes; at most one connection is ever opened |
| `Endpoint.Comms.Close` | amqp.js:202-207 | the connection, if any, is closed; pending operations are not settled and the registry is unchanged |
| `Endpoint.ConnectTwice` | amqp.js:189-196 | two connects return the same connection, and only one connection is opened |
| `Exchange.TaskCallSettles` | amqp.js:51-143 | an executor reply settles the pending call exactly once: resolved with {code: 1, result} exactly when the task is registered and the handler returned, otherwise rejected with the executor's failure body |

## Left out

- The rhea transport is not modelled. That covers creating the container, opening senders and receivers, the `sendable`, `receiver_open` and `message` events, `delivery.accept()`, and closing senders and per-call reply receivers. It is a foreign library, so its events become method calls and the resources it owns are not tracked.
- The chain `sendable`, then `receiver_open`, then send is collapsed into the single step `Send`, which takes the assigned reply address as its `replyTo` argument. Calls still waiting for those events are not represented.
- Endpoint.Comms.Send: registers the call and arms its timer whenever `connection` is non-null. In the program the timer is armed only inside the `receiver_open` callback (amqp.js:165). A call whose sender never becomes sendable therefore has no timer and never settles; one example is a send after `close()`, which leaves `connection` non-null. The model does not capture such a call.
- nanoid is not modelled. Freshness of the correlation id is a precondition of `Send`, and its probability of collision is out of scope.
- setTimeout and clearTimeout are not modelled as wall-clock timers. An armed timer is an entry of `timers`, and its expiry is the explicit `OnTimeout` event. Real time and the order of asynchronous callbacks are not modelled.
- Task handlers are not executed. Their effect is the `Outcome` input: the returned value, or the thrown error already rendered as text. JavaScript's `${error}` rendering is left out.
- Non-string values of `task` and of `extra.id` (numbers, objects) are not modelled. They are strings or absent here.
- A request with a null or absent body is not modelled. There `const { task } = body` (amqp.js:45) throws, so the async message handler (amqp.js:42) rejects: the request is never answered and its delivery is never accepted. A body that is a string, number or boolean has no `task` and is answered with code -1, as `RequestBody(None, _)` is.
- Negative or fractional timeouts are not modelled. A timeout is a natural number or absent.
- The reply `code` is always an integer here. A missing code, which compares false and rejects, is not modelled.
- A reply with a null or absent body is not modelled. There `const { code } = body` (amqp.js:131) throws before the pending check: the entry stays pending until its timer fires, and the reply receiver is never closed. A string, number or boolean body has an undefined `code`, the case of the previous line.
- Both tables are plain maps here, so JavaScript's inherited object members are not modelled. The `in` test on the task table (amqp.js:52) also finds inherited names such as "toString". The lookup `this.operations[correlation_id]` (amqp.js:134, 167) finds a truthy inherited member for an id such as "constructor"; the call of `.resolve` or `.reject` on it then throws.
- The EventEmitter plumbing is pass-through and carries no logic, so it is not modelled. This covers the `connected`, `error`, `disconnected` and `closed` events and the console output.
- The promise a broadcast resolves with holds the transport's send result. It is recorded only as `Acknowledged(id)`.
- producers.js and consumers.js are demonstration drivers and are not part of this model.
