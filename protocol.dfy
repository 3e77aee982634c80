/**
 * The message shapes exchanged by a Comms endpoint: request bodies, response
 * bodies with their response codes, and the request envelope. The AMQP 1.0
 * properties reply_to and correlation_id and the header field ttl are carried
 * as opaque values.
 */
module Protocol {
  import opened Wrappers

  /** A correlation id (a nanoid in the program). */
  type Id = string
  /** A queue, topic or dynamically assigned reply address. */
  type Address = string
  type TaskName = string

  // Response codes: positive is success, the rest are failures.
  const SUCCESS_CODE: int := 1
  const NO_TASK_CODE: int := -1
  const UNSUPPORTED_TASK_CODE: int := -2
  const TASK_FAILED_CODE: int := -3
  const TIMEOUT_CODE: int := -4

  /** Envelope time-to-live used when a send names no timeout, in milliseconds. */
  const DEFAULT_TTL: nat := 5000
  /** Delay of the reply timer when a send names no timeout, in milliseconds. */
  const DEFAULT_TIMEOUT: nat := 10000

  /** JavaScript truthiness of an optional string: undefined and "" are falsy. */
  predicate Truthy(s: Option<string>)
  {
    s.Some? && s.value != ""
  }

  /** JavaScript truthiness of an optional number of milliseconds: undefined and 0 are falsy. */
  predicate TruthyTime(t: Option<nat>)
  {
    t.Some? && t.value != 0
  }

  /** A request body: the task field (possibly absent) and the rest of the payload. */
  datatype RequestBody<V> = RequestBody(task: Option<TaskName>, payload: V)

  /** A response body: {code, result} or {code, message}. */
  datatype ResponseBody<V> =
    | Result(code: int, result: V)
    | Failure(code: int, message: string)

  /** How the requester reads a response: a code above zero is success. */
  predicate IsSuccess<V>(body: ResponseBody<V>)
  {
    body.code > 0
  }

  /** The body a tracked call is rejected with when its timer fires. */
  function TimedOutBody<V>(): (b: ResponseBody<V>)
    ensures !IsSuccess(b) && b.code == TIMEOUT_CODE
  {
    Failure(TIMEOUT_CODE, "Request timed out")
  }

  /** A request envelope as handed to the sender opened on `to`. */
  datatype Envelope<V> = Envelope(to: Address, replyTo: Address, body: RequestBody<V>, correlationId: Id, ttl: nat)

  /** The envelope's time-to-live: the caller's timeout when truthy, otherwise the default. */
  function Ttl(timeout: Option<nat>): (ttl: nat)
    ensures ttl > 0
    ensures TruthyTime(timeout) ==> ttl == timeout.value
    ensures !TruthyTime(timeout) ==> ttl == DEFAULT_TTL
  {
    if TruthyTime(timeout) then timeout.value else DEFAULT_TTL
  }

  /** The delay of a tracked call's timer: the caller's timeout when truthy, otherwise the default. */
  function TimerDelay(timeout: Option<nat>): (delay: nat)
    ensures delay > 0
    ensures TruthyTime(timeout) ==> delay == timeout.value
    ensures !TruthyTime(timeout) ==> delay == DEFAULT_TIMEOUT
  {
    if TruthyTime(timeout) then timeout.value else DEFAULT_TIMEOUT
  }
}
