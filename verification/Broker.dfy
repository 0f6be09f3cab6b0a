/**
 The message broker: one direct exchange (section 3.1.3.1 of the AMQP 0-9-1 specification), where a
 queue receives a message exactly when it is bound under the message's routing key. Queues and keys
 are named after the strings the services declare.
 */
module Broker {
  datatype Queue =
    | TelemetryProcessed       // telemetry.processed
    | CongestionAlert          // congestion.alert, which no service consumes
    | AlertTasks               // congestion.alert.task-assignment
    | AlertNotices             // congestion.alert.notification
    | TaskCreated | TaskFailed // task.created, task.failed
    | VesselArrived | VesselDocked | VesselDeparted
    | DeadLetters              // dlq.errors

  datatype Key =
    | TelemetryKey | AlertKey | CreatedKey | FailedKey
    | ArrivedKey | DockedKey | DepartedKey | DeadKey

  /** The bindings of all five services together. */
  predicate Bound(q: Queue, k: Key) {
    match q
    case TelemetryProcessed => k == TelemetryKey
    case CongestionAlert => k == AlertKey
    case AlertTasks => k == AlertKey
    case AlertNotices => k == AlertKey
    case TaskCreated => k == CreatedKey
    case TaskFailed => k == FailedKey
    case VesselArrived => k == ArrivedKey
    case VesselDocked => k == DockedKey
    case VesselDeparted => k == DepartedKey
    case DeadLetters => k == DeadKey
  }

  type Queues<M> = Queue -> seq<M>

  /** A message goes to the end of every queue bound under its key. */
  function Publish<M>(qs: Queues<M>, k: Key, m: M): Queues<M> {
    (q: Queue) => if Bound(q, k) then qs(q) + [m] else qs(q)
  }

  function Without<M>(ms: seq<M>, i: nat): seq<M>
    requires i < |ms|
  {
    ms[..i] + ms[i + 1..]
  }

  function Remove<M>(qs: Queues<M>, from: Queue, i: nat): Queues<M>
    requires i < |qs(from)|
  {
    var rest := Without(qs(from), i);
    (q: Queue) => if q == from then rest else qs(q)
  }

  /** The default exchange routes by queue name. */
  function Put<M>(qs: Queues<M>, to: Queue, m: M): Queues<M> {
    (q: Queue) => if q == to then qs(q) + [m] else qs(q)
  }

  /** Every key has a reader's queue, and only the alert key has several: one of them unread. */
  lemma Routes(k: Key)
    ensures exists q :: Bound(q, k)
    ensures forall p, q :: Bound(p, k) && Bound(q, k) && p != q ==> k == AlertKey
    ensures forall q :: Bound(q, AlertKey) <==> q in {CongestionAlert, AlertTasks, AlertNotices}
  {
    match k
    case TelemetryKey => assert Bound(TelemetryProcessed, k);
    case AlertKey => assert Bound(CongestionAlert, k);
    case CreatedKey => assert Bound(TaskCreated, k);
    case FailedKey => assert Bound(TaskFailed, k);
    case ArrivedKey => assert Bound(VesselArrived, k);
    case DockedKey => assert Bound(VesselDocked, k);
    case DepartedKey => assert Bound(VesselDeparted, k);
    case DeadKey => assert Bound(DeadLetters, k);
  }
}
