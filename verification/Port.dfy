/**
 The five services as one machine: the vessel table, the task table, the queues, and the control
 point of the alert being handled. A step is one indivisible action of one service; everything the
 outside decides (does the broker accept, does a call arrive, is its answer seen, does a commit
 succeed) is part of the step's label. The history fields record what has happened; no step reads
 them.
 */
module Port {
  import opened Options
  import opened Broker
  import opened Telemetry
  import opened Rules
  import F = Fleet
  import V = Vessels
  import B = Blank

  type TaskId = nat

  datatype TaskStatus = Pending | InProgress | Completed | Failed

  datatype Task = Task(sector: string, alertType: string, unit: string, priority: string,
                       status: TaskStatus, correlationId: string, completedAt: Option<nat>)

  datatype Message =
    | Measured(reading: Reading)
    | Alerted(alert: Alert)
    | Created(id: TaskId, task: Task)
    | Aborted(id: TaskId, task: Task)
    | Lifecycle(event: F.Event)
    | Dead(origin: Queue, message: Message)

  /** A message on a queue of the notification service. */
  datatype Letter = Letter(queue: Queue, body: Message)

  /** `handleAlert` between two of its effects. */
  datatype Saga =
    | Idle
    | Listed(alert: Alert, unit: string, choice: Option<(F.VesselId, string)>)
    | Reserved(alert: Alert, unit: string, held: Option<F.VesselId>)
    | Saved(alert: Alert, id: TaskId, task: Task, held: Option<F.VesselId>)
    | Releasing(alert: Alert, id: TaskId, task: Task, vessel: F.VesselId)
    | Reporting(alert: Alert, id: TaskId, task: Task)
    | Closing(alert: Alert, id: TaskId, task: Task)

  /** A reservation acknowledged to a certain handling. */
  datatype Hold = Hold(handling: nat, vessel: F.VesselId)

  datatype History = History(
    accepted: seq<Message>,   // readings the broker took from the telemetry service
    nominal: seq<Message>,    // readings without an alert
    alarming: seq<Message>,   // readings whose alert was published
    published: seq<Message>,  // alerts the broker took
    handled: seq<Message>,    // alerts whose handling was committed
    rows: seq<TaskId>,        // the rows those handlings added
    dead: seq<Message>,       // everything ever dead-lettered
    logged: seq<Message>,     // dead letters consumed and logged
    read: seq<Letter>,        // notifications acknowledged
    created: seq<Message>,    // task.created events the broker took
    aborted: seq<Message>,    // task.failed events the broker took
    acked: seq<Hold>,         // reservations acknowledged to a handling
    kept: seq<Hold>,          // held when task.created was accepted
    released: seq<Hold>,      // release attempted
    leaked: seq<Hold>,        // held when the save failed
    effective: seq<F.VesselId>) // reservations that took effect, acknowledged or not

  datatype State = State(fleet: F.Fleet, tasks: map<TaskId, Task>, nextTask: TaskId,
                         queues: Queues<Message>, saga: Saga, handling: nat, h: History)

  /** A remote call that reserves: it may not happen, happen, or happen without the caller knowing. */
  datatype Call = NotDone | DoneSeen | DoneUnseen

  datatype Step =
    | Ingest(payload: Payload, header: string, newId: string, sent: bool)
    | Analyse(sent: bool)
    | Begin(vessels: seq<(F.VesselId, F.Vessel)>)
    | Reserve(call: Call)
    | Save(saved: bool)
    | PublishCreated(sent: bool)
    | Release(arrives: bool, fate: F.Fate)
    | PublishAborted(sent: bool)
    | Commit(committed: bool)
    | Complete(task: TaskId, time: nat)
    | Client(request: F.Request, fate: F.Fate)
    | Notify(queue: Queue, index: nat, rejected: bool)
    | LogDead(index: nat)

  predicate ReadByNotifier(q: Queue) {
    q in {AlertNotices, TaskCreated, TaskFailed, VesselArrived, VesselDocked, VesselDeparted}
  }

  predicate Enabled(s: State, step: Step) {
    match step
    case Ingest(_, _, _, _) => true
    case Analyse(_) => s.queues(TelemetryProcessed) != []
    case Begin(vessels) =>
      && s.saga.Idle? && s.queues(AlertTasks) != []
      && (vessels == [] || V.IsListing(vessels, s.fleet.rows, F.Arriving))
    case Reserve(_) => s.saga.Listed?
    case Save(_) => s.saga.Reserved?
    case PublishCreated(_) => s.saga.Saved?
    case Release(_, _) => s.saga.Releasing?
    case PublishAborted(_) => s.saga.Reporting?
    case Commit(_) => s.saga.Closing?
    case Complete(_, _) => true
    case Client(_, _) => true
    case Notify(q, i, _) => ReadByNotifier(q) && i < |s.queues(q)|
    case LogDead(i) => i < |s.queues(DeadLetters)|
  }

  // ------------------------------------------------------------------- the actions

  /** Rejection without requeue: the broker moves the message to the dead letters. */
  function DeadLetter(s: State, origin: Queue, m: Message): State {
    var d := Dead(origin, m);
    s.(queues := Put(s.queues, DeadLetters, d), h := s.h.(dead := s.h.dead + [d]))
  }

  /** The fleet after a transaction, its event on its queue if there was one. */
  function WithFleet(s: State, f: F.Fleet): State {
    var s' := s.(fleet := f);
    if |f.log| <= |s.fleet.log| then s' else
      var e := f.log[|f.log| - 1].event;
      match F.RoutingKey(e.status)
      case None => s'
      case Some(k) => s'.(queues := Publish(s.queues, k, Lifecycle(e)))
  }

  function DoIngest(s: State, p: Payload, header: string, newId: string, sent: bool): State {
    if Refusal(p).Some? || !sent then s else
      var m := Measured(Event(p, header, newId));
      s.(queues := Publish(s.queues, TelemetryKey, m), h := s.h.(accepted := s.h.accepted + [m]))
  }

  function DoAnalyse(th: Thresholds, s: State, sent: bool): State
    requires s.queues(TelemetryProcessed) != []
  {
    var m := s.queues(TelemetryProcessed)[0];
    var t := s.(queues := Remove(s.queues, TelemetryProcessed, 0));
    if !m.Measured? then DeadLetter(t, TelemetryProcessed, m) else
      match Evaluate(th, m.reading)
      case None => t.(h := t.h.(nominal := t.h.nominal + [m]))
      case Some(a) =>
        if !sent then DeadLetter(t, TelemetryProcessed, m) else
          t.(queues := Publish(t.queues, AlertKey, Alerted(a)),
             h := t.h.(alarming := t.h.alarming + [m], published := t.h.published + [Alerted(a)]))
  }

  function Berths(vessels: seq<(F.VesselId, F.Vessel)>): seq<Option<string>> {
    if vessels == [] then [] else [vessels[0].1.berth] + Berths(vessels[1..])
  }

  /** The first listed vessel whose berth has text. */
  function Choice(vessels: seq<(F.VesselId, F.Vessel)>): Option<(F.VesselId, string)> {
    if vessels == [] then None
    else if B.HasText(vessels[0].1.berth) then Some((vessels[0].0, vessels[0].1.berth.value))
    else Choice(vessels[1..])
  }

  function DoBegin(s: State, vessels: seq<(F.VesselId, F.Vessel)>): State
    requires s.queues(AlertTasks) != []
  {
    var m := s.queues(AlertTasks)[0];
    var t := s.(queues := Remove(s.queues, AlertTasks, 0), handling := s.handling + 1);
    if !m.Alerted? || !ValidAlert(m.alert) then DeadLetter(t, AlertTasks, m)
    else t.(saga := Listed(m.alert, AssignedUnit(m.alert, Berths(vessels)), Choice(vessels)))
  }

  function DoReserve(s: State, call: Call): State
    requires s.saga.Listed?
  {
    var Listed(a, unit, choice) := s.saga;
    if choice.None? || call == NotDone || choice.value.0 !in s.fleet.rows then s.(saga := Reserved(a, unit, None)) else
      var (v, berth) := choice.value;
      var t := WithFleet(s, F.Reserve(s.fleet, v, berth, F.Fate(true, true)).0);
      if call == DoneSeen then
        t.(saga := Reserved(a, unit, Some(v)),
           h := t.h.(effective := t.h.effective + [v], acked := t.h.acked + [Hold(s.handling, v)]))
      else
        t.(saga := Reserved(a, unit, None), h := t.h.(effective := t.h.effective + [v]))
  }

  function Holds(s: State, held: Option<F.VesselId>): seq<Hold> {
    if held.Some? then [Hold(s.handling, held.value)] else []
  }

  function NewTask(a: Alert, unit: string): Task {
    Task(a.sector, a.alertType, unit, Priority(a.severity), Pending, a.correlationId, None)
  }

  function DoSave(s: State, saved: bool): State
    requires s.saga.Reserved?
  {
    var Reserved(a, unit, held) := s.saga;
    if saved then
      s.(saga := Saved(a, s.nextTask, NewTask(a, unit), held), nextTask := s.nextTask + 1)
    else
      var t := DeadLetter(s, AlertTasks, Alerted(a));
      t.(saga := Idle, h := t.h.(leaked := t.h.leaked + Holds(s, held)))
  }

  function DoPublishCreated(s: State, sent: bool): State
    requires s.saga.Saved?
  {
    var Saved(a, id, task, held) := s.saga;
    if sent then
      var m := Created(id, task);
      s.(queues := Publish(s.queues, CreatedKey, m), saga := Closing(a, id, task),
         h := s.h.(created := s.h.created + [m], kept := s.h.kept + Holds(s, held)))
    else
      var failed := task.(status := Failed);
      s.(saga := if held.Some? then Releasing(a, id, failed, held.value) else Reporting(a, id, failed))
  }

  function DoRelease(s: State, arrives: bool, fate: F.Fate): State
    requires s.saga.Releasing?
  {
    var Releasing(a, id, task, v) := s.saga;
    var t := if arrives then WithFleet(s, F.Release(s.fleet, v, fate).0) else s;
    t.(saga := Reporting(a, id, task), h := t.h.(released := t.h.released + [Hold(s.handling, v)]))
  }

  function DoPublishAborted(s: State, sent: bool): State
    requires s.saga.Reporting?
  {
    var Reporting(a, id, task) := s.saga;
    var t := s.(saga := Closing(a, id, task));
    if !sent then t else
      var m := Aborted(id, task);
      t.(queues := Publish(t.queues, FailedKey, m), h := t.h.(aborted := t.h.aborted + [m]))
  }

  function DoCommit(s: State, committed: bool): State
    requires s.saga.Closing?
  {
    var Closing(a, id, task) := s.saga;
    var t := s.(saga := Idle);
    if committed then
      t.(tasks := t.tasks[id := task], h := t.h.(handled := t.h.handled + [Alerted(a)], rows := t.h.rows + [id]))
    else DeadLetter(t, AlertTasks, Alerted(a))
  }

  function DoComplete(s: State, id: TaskId, time: nat): State {
    if id !in s.tasks then s else
      s.(tasks := s.tasks[id := s.tasks[id].(status := Completed, completedAt := Some(time))])
  }

  function DoNotify(s: State, q: Queue, i: nat, rejected: bool): State
    requires i < |s.queues(q)|
  {
    var t := s.(queues := Remove(s.queues, q, i));
    if rejected then DeadLetter(t, q, s.queues(q)[i])
    else t.(h := t.h.(read := t.h.read + [Letter(q, s.queues(q)[i])]))
  }

  function DoLogDead(s: State, i: nat): State
    requires i < |s.queues(DeadLetters)|
  {
    s.(queues := Remove(s.queues, DeadLetters, i), h := s.h.(logged := s.h.logged + [s.queues(DeadLetters)[i]]))
  }

  function Apply(th: Thresholds, s: State, step: Step): State
    requires Enabled(s, step)
  {
    match step
    case Ingest(p, header, newId, sent) => DoIngest(s, p, header, newId, sent)
    case Analyse(sent) => DoAnalyse(th, s, sent)
    case Begin(vessels) => DoBegin(s, vessels)
    case Reserve(call) => DoReserve(s, call)
    case Save(saved) => DoSave(s, saved)
    case PublishCreated(sent) => DoPublishCreated(s, sent)
    case Release(arrives, fate) => DoRelease(s, arrives, fate)
    case PublishAborted(sent) => DoPublishAborted(s, sent)
    case Commit(committed) => DoCommit(s, committed)
    case Complete(id, time) => DoComplete(s, id, time)
    case Client(request, fate) => WithFleet(s, F.Serve(s.fleet, request, fate).0)
    case Notify(q, i, rejected) => DoNotify(s, q, i, rejected)
    case LogDead(i) => DoLogDead(s, i)
  }

  // ------------------------------------------------------------------------- runs

  predicate Legal(th: Thresholds, s: State, steps: seq<Step>)
    decreases |steps|
  {
    steps == [] || (Enabled(s, steps[0]) && Legal(th, Apply(th, s, steps[0]), steps[1..]))
  }

  function After(th: Thresholds, s: State, steps: seq<Step>): State
    requires Legal(th, s, steps)
    decreases |steps|
  {
    if steps == [] then s else After(th, Apply(th, s, steps[0]), steps[1..])
  }

  const NO_HISTORY := History([], [], [], [], [], [], [], [], [], [], [], [], [], [], [], [])

  /** An installation at rest, with whatever vessels it has. */
  function AtRest(f: F.Fleet): State {
    State(f, map[], 0, (q: Queue) => [], Idle, 0, NO_HISTORY)
  }
}
