/**
 * The correlation registry of a Comms endpoint, as a value: the pending
 * operations keyed by correlation id, the reply timers still armed, every
 * correlation id issued so far, and a log of every settlement (each call of
 * a promise's resolve or reject). The endpoint class keeps exactly this
 * state; its methods are proved against the transition functions here.
 */
module Correlation {
  import opened Wrappers
  import opened Protocol

  /** A pending operation; `timeout` is the delay its timer was armed with. */
  datatype Pending = Pending(timeout: nat)

  /** One settlement of the promise returned by a send. */
  datatype Settlement<V> =
    | Resolved(id: Id, body: ResponseBody<V>)   // a reply with a positive code
    | Rejected(id: Id, body: ResponseBody<V>)   // a reply with code <= 0, or the timeout body
    | Acknowledged(id: Id)                      // a broadcast, resolved with the send result
    | NoConnection(id: Id)                      // send before connect: opening the sender threw

  datatype Registry<V> = Registry(
    operations: map<Id, Pending>,
    timers: set<Id>,
    issued: set<Id>,
    log: seq<Settlement<V>>)

  /** The registry of a newly constructed endpoint. */
  function Empty<V>(): (r: Registry<V>)
    ensures Consistent(r) && r.operations == map[] && r.log == []
  {
    Registry(map[], {}, {}, [])
  }

  /** The correlation ids that have a settlement in a log. */
  function SettledIds<V>(log: seq<Settlement<V>>): (ids: set<Id>)
  {
    set i | 0 <= i < |log| :: log[i].id
  }

  lemma SettledIdsAppend<V>(log: seq<Settlement<V>>, s: Settlement<V>)
    ensures SettledIds(log + [s]) == SettledIds(log) + {s.id}
  {
    assert (log + [s])[|log|].id == s.id;
    forall k | k in SettledIds(log) ensures k in SettledIds(log + [s]) {
      var i :| 0 <= i < |log| && log[i].id == k;
      assert (log + [s])[i].id == k;
    }
  }

  /**
   * The registry invariant: every issued id is either pending or settled, and
   * not both; every pending id has exactly one armed timer; no id is settled twice.
   */
  predicate Consistent<V>(r: Registry<V>)
  {
    && r.issued == r.operations.Keys + SettledIds(r.log)
    && r.timers == r.operations.Keys
    && (forall i :: 0 <= i < |r.log| ==> r.log[i].id !in r.operations)
    && (forall i, j :: 0 <= i < j < |r.log| ==> r.log[i].id != r.log[j].id)
  }

  /** Removes a pending entry, clears its timer and records its settlement. */
  function Settle<V>(r: Registry<V>, id: Id, s: Settlement<V>): (r': Registry<V>)
    requires id in r.operations
    ensures r'.log == r.log + [s] && SettledIds(r'.log) == SettledIds(r.log) + {s.id}
  {
    SettledIdsAppend(r.log, s);
    r.(operations := r.operations - {id}, timers := r.timers - {id}, log := r.log + [s])
  }

  /**
   * A send with a fresh correlation id: without a connection the promise is
   * rejected at once; a broadcast resolves at once; any other send registers
   * one pending operation and arms its timer.
   */
  function Dispatch<V>(r: Registry<V>, id: Id, connected: bool, broadcast: bool, timeout: Option<nat>): (r': Registry<V>)
    requires Consistent(r) && id !in r.issued
    ensures Consistent(r')
    ensures r'.issued == r.issued + {id}
    ensures id in r'.operations <==> connected && !broadcast
    ensures id in r'.operations ==> r'.operations[id] == Pending(TimerDelay(timeout))
    ensures forall k :: k in r.operations ==> k in r'.operations && r'.operations[k] == r.operations[k]
    ensures forall k :: k in r'.operations && k != id ==> k in r.operations
    ensures !connected ==> r'.log == r.log + [NoConnection(id)]
    ensures connected && broadcast ==> r'.log == r.log + [Acknowledged(id)]
    ensures connected && !broadcast ==> r'.log == r.log && r'.timers == r.timers + {id}
  {
    var r1 := r.(issued := r.issued + {id});
    SettledIdsAppend(r.log, NoConnection(id));
    SettledIdsAppend(r.log, Acknowledged(id));
    if !connected then r1.(log := r.log + [NoConnection(id)])
    else if broadcast then r1.(log := r.log + [Acknowledged(id)])
    else r1.(operations := r.operations[id := Pending(TimerDelay(timeout))], timers := r.timers + {id})
  }

  /**
   * A reply carrying correlation id `id`: if the id is pending, its promise is
   * resolved (positive code) or rejected (any other code), its timer cleared
   * and its entry removed; otherwise nothing changes.
   */
  function Reply<V>(r: Registry<V>, id: Id, body: ResponseBody<V>): (r': Registry<V>)
    requires Consistent(r)
    ensures Consistent(r')
    ensures id !in r'.operations && id !in r'.timers && r'.issued == r.issued
    ensures forall k :: k != id ==> (k in r'.operations <==> k in r.operations) && (k in r'.timers <==> k in r.timers)
    ensures forall k :: k in r'.operations ==> r'.operations[k] == r.operations[k]
    ensures id !in r.operations ==> r' == r
    ensures id in r.operations && IsSuccess(body) ==> r'.log == r.log + [Resolved(id, body)]
    ensures id in r.operations && !IsSuccess(body) ==> r'.log == r.log + [Rejected(id, body)]
  {
    if id in r.operations then
      Settle(r, id, if IsSuccess(body) then Resolved(id, body) else Rejected(id, body))
    else
      r
  }

  /**
   * The timer of call `id` fires: if the id is still pending, its promise is
   * rejected with the timeout body and its entry removed; otherwise nothing changes.
   */
  function Timeout<V>(r: Registry<V>, id: Id): (r': Registry<V>)
    requires Consistent(r)
    ensures Consistent(r')
    ensures id !in r'.operations && id !in r'.timers && r'.issued == r.issued
    ensures forall k :: k != id ==> (k in r'.operations <==> k in r.operations) && (k in r'.timers <==> k in r.timers)
    ensures forall k :: k in r'.operations ==> r'.operations[k] == r.operations[k]
    ensures id !in r.operations ==> r' == r
    ensures id in r.operations ==> r'.log == r.log + [Rejected(id, TimedOutBody())]
  {
    if id in r.operations then Settle(r, id, Rejected(id, TimedOutBody())) else r
  }

  /** A timer is armed exactly while its call is pending, so the guard on a firing timer always holds. */
  lemma ArmedTimerFindsEntry<V>(r: Registry<V>, id: Id)
    requires Consistent(r) && id in r.timers
    ensures Timeout(r, id).log == r.log + [Rejected(id, TimedOutBody())]
  {
  }

  /** A reply that arrives after the call timed out is a no-op. */
  lemma LateReplyIgnored<V>(r: Registry<V>, id: Id, body: ResponseBody<V>)
    requires Consistent(r)
    ensures Reply(Timeout(r, id), id, body) == Timeout(r, id)
  {
  }

  /** A second reply with the same correlation id is a no-op. */
  lemma DuplicateReplyIgnored<V>(r: Registry<V>, id: Id, b1: ResponseBody<V>, b2: ResponseBody<V>)
    requires Consistent(r)
    ensures Reply(Reply(r, id, b1), id, b2) == Reply(r, id, b1)
  {
  }

  /** A timer of a call already settled by its reply rejects nothing. */
  lemma TimeoutAfterReplyIgnored<V>(r: Registry<V>, id: Id, body: ResponseBody<V>)
    requires Consistent(r)
    ensures Timeout(Reply(r, id, body), id) == Reply(r, id, body)
  {
  }

  /** The events that drive the registry. */
  datatype Event<V> =
    | Sent(id: Id, connected: bool, broadcast: bool, timeout: Option<nat>)
    | ReplyArrived(id: Id, body: ResponseBody<V>)
    | TimerFired(id: Id)

  /** One event; None when a send reuses an issued correlation id, which fresh ids rule out. */
  function Step<V>(r: Registry<V>, e: Event<V>): (r': Option<Registry<V>>)
    requires Consistent(r)
    ensures r'.None? <==> e.Sent? && e.id in r.issued
    ensures r'.Some? ==> Consistent(r'.value)
    ensures r'.Some? ==> r.log <= r'.value.log && r.issued <= r'.value.issued
  {
    match e
    case Sent(id, connected, broadcast, timeout) =>
      if id in r.issued then None else Some(Dispatch(r, id, connected, broadcast, timeout))
    case ReplyArrived(id, body) => Some(Reply(r, id, body))
    case TimerFired(id) => Some(Timeout(r, id))
  }

  /** A run of events, in order; None when some send reuses a correlation id. */
  function Run<V>(r: Registry<V>, events: seq<Event<V>>): (r': Option<Registry<V>>)
    requires Consistent(r)
    decreases |events|
  {
    if events == [] then Some(r)
    else
      match Step(r, events[0])
      case None => None
      case Some(r1) => Run(r1, events[1..])
  }

  /** Every run of events keeps the registry invariant, and the log only grows. */
  lemma {:induction false} RunConsistent<V>(r: Registry<V>, events: seq<Event<V>>)
    requires Consistent(r) && Run(r, events).Some?
    ensures Consistent(Run(r, events).value)
    ensures r.log <= Run(r, events).value.log
    ensures r.issued <= Run(r, events).value.issued
    decreases |events|
  {
    if events != [] {
      var r1 := Step(r, events[0]).value;
      RunConsistent(r1, events[1..]);
    }
  }

  /** The number of settlements of correlation id `id` in a log. */
  function SettleCount<V>(log: seq<Settlement<V>>, id: Id): (n: nat)
  {
    if log == [] then 0 else (if log[0].id == id then 1 else 0) + SettleCount(log[1..], id)
  }

  lemma {:induction false} SettleCountAbsent<V>(log: seq<Settlement<V>>, id: Id)
    requires forall i :: 0 <= i < |log| ==> log[i].id != id
    ensures SettleCount(log, id) == 0
  {
    if log != [] {
      assert forall i :: 0 <= i < |log[1..]| ==> log[1..][i].id == log[i + 1].id;
      SettleCountAbsent(log[1..], id);
    }
  }

  lemma {:induction false} SettleCountDistinct<V>(log: seq<Settlement<V>>, id: Id)
    requires forall i, j :: 0 <= i < j < |log| ==> log[i].id != log[j].id
    ensures SettleCount(log, id) <= 1
  {
    if log != [] {
      var rest := log[1..];
      assert forall i :: 0 <= i < |rest| ==> rest[i].id == log[i + 1].id;
      if log[0].id == id {
        SettleCountAbsent(rest, id);
      } else {
        SettleCountDistinct(rest, id);
      }
    }
  }

  lemma {:induction false} SettleCountPresent<V>(log: seq<Settlement<V>>, id: Id)
    requires id in SettledIds(log)
    ensures SettleCount(log, id) >= 1
  {
    if log[0].id != id {
      var i :| 0 <= i < |log| && log[i].id == id;
      assert log[1..][i - 1].id == id;
      SettleCountPresent(log[1..], id);
    }
  }

  /**
   * Every call a consistent registry has issued is in exactly one of two
   * states: pending and never settled, or no longer pending and settled once.
   */
  lemma PendingOrSettledOnce<V>(r: Registry<V>, id: Id)
    requires Consistent(r) && id in r.issued
    ensures id in r.operations ==> SettleCount(r.log, id) == 0
    ensures id !in r.operations ==> SettleCount(r.log, id) == 1
  {
    if id in r.operations {
      SettleCountAbsent(r.log, id);
    } else {
      SettleCountPresent(r.log, id);
      SettleCountDistinct(r.log, id);
    }
  }

  /** In a consistent registry every correlation id has been settled at most once. */
  lemma SettledAtMostOnce<V>(r: Registry<V>, id: Id)
    requires Consistent(r)
    ensures SettleCount(r.log, id) <= 1
  {
    SettleCountDistinct(r.log, id);
  }

  /**
   * Whatever the interleaving of sends, replies and timer expiries, each
   * correlation id is settled at most once and a settlement already made is
   * never undone.
   */
  lemma AtMostOnceAlongRun<V>(r: Registry<V>, events: seq<Event<V>>, id: Id)
    requires Consistent(r) && Run(r, events).Some?
    ensures SettleCount(Run(r, events).value.log, id) <= 1
    ensures r.log <= Run(r, events).value.log
  {
    RunConsistent(r, events);
    SettledAtMostOnce(Run(r, events).value, id);
  }

  /** One timer expiry per id, in order. */
  function Expiries<V>(ids: seq<Id>): (events: seq<Event<V>>)
    ensures |events| == |ids|
    ensures forall i :: 0 <= i < |ids| ==> events[i] == TimerFired(ids[i])
  {
    if ids == [] then [] else [TimerFired(ids[0])] + Expiries(ids[1..])
  }

  /**
   * No unbounded growth and no forgotten call: once the timer of every
   * pending call has fired, the registry holds no entry and no armed timer,
   * and every call that was pending has been settled exactly once.
   */
  lemma {:induction false} ExpiriesDrain<V>(r: Registry<V>, ids: seq<Id>)
    requires Consistent(r)
    requires forall k :: k in r.operations ==> k in ids
    ensures Run(r, Expiries<V>(ids)).Some?
    ensures Run(r, Expiries<V>(ids)).value.operations == map[]
    ensures Run(r, Expiries<V>(ids)).value.timers == {}
    ensures forall k :: k in r.operations ==> SettleCount(Run(r, Expiries<V>(ids)).value.log, k) == 1
    decreases |ids|
  {
    if ids == [] {
      assert r.operations == map[];
    } else {
      var events: seq<Event<V>> := Expiries(ids);
      var r1 := Timeout(r, ids[0]);
      assert events[0] == TimerFired(ids[0]);
      assert events[1..] == Expiries<V>(ids[1..]);
      assert forall k :: k in r1.operations ==> k in ids[1..] by {
        forall k | k in r1.operations ensures k in ids[1..] {
          assert k in ids && k != ids[0];
        }
      }
      ExpiriesDrain(r1, ids[1..]);
    }
    var events: seq<Event<V>> := Expiries(ids);
    RunConsistent(r, events);
    forall k | k in r.operations
      ensures SettleCount(Run(r, events).value.log, k) == 1
    {
      PendingOrSettledOnce(Run(r, events).value, k);
    }
  }
}
