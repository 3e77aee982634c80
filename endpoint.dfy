/**
 * The Comms endpoint: its task table, listener prefix and instance id, its
 * connection, and the correlation registry it mutates in place. Transport
 * callbacks (a reply on a per-call receiver, a timer expiring, the connection
 * opening, a task request arriving) are methods called with the event's data.
 */
module Endpoint {
  import opened Wrappers
  import opened Protocol
  import Addressing
  import Executor
  import opened Correlation

  /** The transport connection an endpoint opens; only its open/closed state is modelled. */
  class Connection<D> {
    const details: D
    var open: bool

    constructor (details: D)
      ensures this.details == details && open
    {
      this.details := details;
      open := true;
    }

    method Close()
      modifies this
      ensures !open
    {
      open := false;
    }
  }

  class Comms<V, D> {
    const tasks: set<TaskName>
    const id: Option<string>
    const listener: Address
    var connection: Connection?<D>
    var connDetails: Option<D>
    var operations: map<Id, Pending>
    /** The calls whose timeout callback is armed and not yet cleared. */
    var timers: set<Id>
    /** Every correlation id this endpoint has generated. */
    ghost var issued: set<Id>
    /** Every settlement of a promise returned by Send, in order. */
    ghost var settlements: seq<Settlement<V>>
    /** How many connections this endpoint has opened. */
    ghost var connectionsOpened: nat

    ghost function State(): Registry<V>
      reads this
    {
      Registry(operations, timers, issued, settlements)
    }

    ghost predicate Valid()
      reads this
    {
      && Consistent(State())
      && connectionsOpened <= 1
      && (connection == null <==> connectionsOpened == 0)
      && (connection == null <==> connDetails.None?)
    }

    /** A new endpoint: no connection, no pending operation. */
    constructor (tasks: set<TaskName>, listener: Address, id: Option<string>)
      ensures Valid()
      ensures this.tasks == tasks && this.id == id
      ensures this.listener == Addressing.Listener(listener, id)
      ensures connection == null && State() == Empty()
    {
      this.tasks := tasks;
      this.listener := Addressing.Listener(listener, id);
      this.id := id;
      connection := null;
      connDetails := None;
      operations := map[];
      timers := {};
      issued := {};
      settlements := [];
      connectionsOpened := 0;
    }

    /** The connection became active: the task receiver is opened on this address. */
    method OnConnectionOpen() returns (taskQueue: Address)
      ensures taskQueue == Addressing.TaskQueue(listener)
    {
      taskQueue := Addressing.TaskQueue(listener);
    }

    /** A task request arrived on the task queue; `outcome` is what the awaited handler did. */
    method OnTaskMessage(request: Executor.TaskRequest<V>, outcome: Executor.Outcome<V>) returns (response: Executor.TaskResponse<V>)
      ensures response == Executor.HandleTaskMessage(tasks, request, outcome)
    {
      var body: ResponseBody<V>;
      var task := request.body.task;
      if task.Some? && task.value != "" {
        if task.value in tasks {
          match outcome
          case Returned(v) =>
            body := Result(SUCCESS_CODE, v);
          case Threw(e) =>
            body := Failure(TASK_FAILED_CODE, Executor.RUNTIME_ERROR_PREFIX + e);
        } else {
          body := Failure(UNSUPPORTED_TASK_CODE, Executor.UnsupportedMessage(task.value));
        }
      } else {
        body := Failure(NO_TASK_CODE, Executor.NO_TASK_MESSAGE);
      }
      response := Executor.TaskResponse(request.replyTo, request.correlationId, body);
    }

    /**
     * Sends `message` to `target` under the fresh correlation id
     * `correlationId`, once the dynamic reply receiver reports its address
     * `replyTo`. Returns the envelope handed to the sender, if any.
     */
    method Send(correlationId: Id, target: Address, message: RequestBody<V>, replyTo: Address,
                timeout: Option<nat>, broadcast: bool)
      returns (sent: Option<Envelope<V>>)
      requires Valid()
      requires correlationId !in issued
      modifies this`operations, this`timers, this`issued, this`settlements
      ensures State() == Dispatch(old(State()), correlationId, connection != null, broadcast, timeout)
      ensures Valid()
      ensures connection == null ==> sent == None
      ensures connection != null ==> sent == Some(Envelope(target, replyTo, message, correlationId, Ttl(timeout)))
    {
      issued := issued + {correlationId};
      if connection == null {
        settlements := settlements + [NoConnection(correlationId)];
        sent := None;
        return;
      }
      var ttl := if timeout.Some? && timeout.value != 0 then timeout.value else DEFAULT_TTL;
      sent := Some(Envelope(target, replyTo, message, correlationId, ttl));
      if broadcast {
        settlements := settlements + [Acknowledged(correlationId)];
      } else {
        var delay := if timeout.Some? && timeout.value != 0 then timeout.value else DEFAULT_TIMEOUT;
        timers := timers + {correlationId};
        operations := operations[correlationId := Pending(delay)];
      }
    }

    /** A reply with correlation id `correlationId` and body `body` arrived on a reply receiver. */
    method OnReply(correlationId: Id, body: ResponseBody<V>)
      requires Valid()
      modifies this`operations, this`timers, this`settlements
      ensures State() == Reply(old(State()), correlationId, body)
      ensures Valid()
    {
      if correlationId in operations {
        if body.code > 0 {
          settlements := settlements + [Resolved(correlationId, body)];
        } else {
          settlements := settlements + [Rejected(correlationId, body)];
        }
        timers := timers - {correlationId};
        operations := operations - {correlationId};
      }
    }

    /** The timer armed for call `correlationId` fired. */
    method OnTimeout(correlationId: Id)
      requires Valid()
      modifies this`operations, this`timers, this`settlements
      ensures State() == Timeout(old(State()), correlationId)
      ensures Valid()
    {
      if correlationId in operations {
        settlements := settlements + [Rejected(correlationId, TimedOutBody())];
        operations := operations - {correlationId};
      }
      timers := timers - {correlationId};
    }

    /** Opens the connection unless one exists; always returns the endpoint's one connection. */
    method Connect(details: D) returns (c: Connection<D>)
      requires Valid()
      modifies this`connection, this`connDetails, this`connectionsOpened
      ensures Valid()
      ensures connection == c
      ensures old(connection) != null ==> c == old(connection) && connDetails == old(connDetails) && connectionsOpened == old(connectionsOpened)
      ensures old(connection) == null ==> fresh(c) && c.open && c.details == details && connDetails == Some(details)
    {
      if connection == null {
        connDetails := Some(details);
        connection := new Connection(details);
        connectionsOpened := connectionsOpened + 1;
      }
      c := connection;
    }

    /**
     * Closes the connection if there is one. Pending operations are neither
     * resolved nor rejected, and their timers stay armed.
     */
    method Close()
      requires Valid()
      modifies connection
      ensures Valid()
      ensures connection == old(connection)
      ensures connection != null ==> !connection.open
      ensures State() == old(State())
    {
      if connection != null {
        connection.Close();
      }
    }
  }

  /** Connecting twice yields the same connection and opens it only once. */
  method ConnectTwice<V, D>(comms: Comms<V, D>, first: D, second: D) returns (a: Connection<D>, b: Connection<D>)
    requires comms.Valid()
    modifies comms`connection, comms`connDetails, comms`connectionsOpened
    ensures a == b && comms.connectionsOpened <= 1
  {
    a := comms.Connect(first);
    b := comms.Connect(second);
  }
}
