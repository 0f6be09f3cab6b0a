/**
 The task service as the object it is. `HandleAlert` is one handling from the alert's arrival to its
 acknowledgement or rejection; it is proved to do exactly what the machine does in one uninterrupted
 stretch of steps. The machine runs along in a ghost field.
 */
module Assignment {
  import opened Options
  import opened Broker
  import opened Telemetry
  import opened Rules
  import opened Port
  import opened Vessels
  import B = Blank
  import F = Fleet
  import R = Reservations

  /** What happens to a remote call: does it get there, how does the transaction end, does the
      answer get back in time. */
  datatype Line = Line(arrives: bool, fate: F.Fate, answered: bool)

  /** What the outside decides during one handling. */
  datatype Luck = Luck(listed: bool, reserve: Line, saved: bool, created: bool, release: Line, aborted: bool,
                       committed: bool)

  function CallOf(line: Line): Call {
    if !line.arrives || !line.fate.commit then NotDone else if line.answered then DoneSeen else DoneUnseen
  }

  // ------------------------------------------------------------------- one stretch of steps

  predicate Ready(s: State, a: Alert) {
    s.saga.Idle? && s.queues(AlertTasks) != [] && s.queues(AlertTasks)[0] == Alerted(a)
  }

  function Compensated(s: State, luck: Luck): (t: State)
    requires s.saga.Releasing? || s.saga.Reporting?
    ensures t.saga.Closing?
  {
    var r := if s.saga.Releasing? then DoRelease(s, luck.release.arrives, luck.release.fate) else s;
    DoPublishAborted(r, luck.aborted)
  }

  function Published(s: State, luck: Luck): (t: State)
    requires s.saga.Saved?
    ensures t.saga.Closing?
  {
    var p := DoPublishCreated(s, luck.created);
    if luck.created then p else Compensated(p, luck)
  }

  function Handled(s: State, vessels: seq<(F.VesselId, F.Vessel)>, luck: Luck): (t: State)
    requires s.saga.Idle? && s.queues(AlertTasks) != []
    ensures t.saga.Idle?
  {
    var b := DoBegin(s, vessels);
    if b.saga.Idle? then b else
      var d := DoSave(DoReserve(b, CallOf(luck.reserve)), luck.saved);
      if d.saga.Idle? then d else DoCommit(Published(d, luck), luck.committed)
  }

  // The same as labels of the machine.

  function CompensationSteps(s: State, luck: Luck): seq<Step>
  {
    (if s.saga.Releasing? then [Release(luck.release.arrives, luck.release.fate)] else [])
    + [PublishAborted(luck.aborted)]
  }

  function PublicationSteps(s: State, luck: Luck): seq<Step>
    requires s.saga.Saved?
  {
    [PublishCreated(luck.created)] + if luck.created then [] else CompensationSteps(DoPublishCreated(s, false), luck)
  }

  function HandlingSteps(s: State, vessels: seq<(F.VesselId, F.Vessel)>, luck: Luck): seq<Step>
    requires s.saga.Idle? && s.queues(AlertTasks) != []
  {
    var b := DoBegin(s, vessels);
    [Begin(vessels)] +
    if b.saga.Idle? then [] else
      var d := DoSave(DoReserve(b, CallOf(luck.reserve)), luck.saved);
      [Reserve(CallOf(luck.reserve))] + ([Save(luck.saved)] +
      if d.saga.Idle? then [] else PublicationSteps(d, luck) + [Commit(luck.committed)])
  }

  lemma RunCons(th: Thresholds, s: State, step: Step, rest: seq<Step>)
    requires Enabled(s, step) && Legal(th, Apply(th, s, step), rest)
    ensures Legal(th, s, [step] + rest) && After(th, s, [step] + rest) == After(th, Apply(th, s, step), rest)
  {
    hide Enabled, Apply;
    assert ([step] + rest)[1..] == rest;
  }

  lemma ReleaseReports(s: State, luck: Luck)
    requires s.saga.Releasing?
    ensures DoRelease(s, luck.release.arrives, luck.release.fate).saga.Reporting?
  {}

  lemma CompensatedRuns(th: Thresholds, s: State, luck: Luck, rest: seq<Step>)
    requires s.saga.Releasing? || s.saga.Reporting?
    requires Legal(th, Compensated(s, luck), rest)
    ensures Legal(th, s, CompensationSteps(s, luck) + rest)
    ensures After(th, s, CompensationSteps(s, luck) + rest) == After(th, Compensated(s, luck), rest)
  {
    hide Legal, After, DoRelease, DoPublishAborted;
    var abort := PublishAborted(luck.aborted);
    if s.saga.Releasing? {
      var r := DoRelease(s, luck.release.arrives, luck.release.fate);
      ReleaseReports(s, luck);
      RunCons(th, r, abort, rest);
      RunCons(th, s, Release(luck.release.arrives, luck.release.fate), [abort] + rest);
      assert CompensationSteps(s, luck) + rest == [Release(luck.release.arrives, luck.release.fate)] + ([abort] + rest);
    } else {
      RunCons(th, s, abort, rest);
      assert CompensationSteps(s, luck) + rest == [abort] + rest;
    }
  }

  lemma PublishedRuns(th: Thresholds, s: State, luck: Luck, rest: seq<Step>)
    requires s.saga.Saved? && Legal(th, Published(s, luck), rest)
    ensures Legal(th, s, PublicationSteps(s, luck) + rest)
    ensures After(th, s, PublicationSteps(s, luck) + rest) == After(th, Published(s, luck), rest)
  {
    hide Legal, After, Compensated, CompensationSteps;
    var create := PublishCreated(luck.created);
    if luck.created {
      RunCons(th, s, create, rest);
      assert PublicationSteps(s, luck) + rest == [create] + rest;
    } else {
      var p := DoPublishCreated(s, false);
      CompensatedRuns(th, p, luck, rest);
      RunCons(th, s, create, CompensationSteps(p, luck) + rest);
      assert PublicationSteps(s, luck) + rest == [create] + (CompensationSteps(p, luck) + rest);
    }
  }

  lemma BeginLists(s: State, vessels: seq<(F.VesselId, F.Vessel)>)
    requires s.saga.Idle? && s.queues(AlertTasks) != []
    ensures var b := DoBegin(s, vessels); b.saga.Idle? || b.saga.Listed?
  {}

  lemma ReserveAndSave(s: State, call: Call, saved: bool)
    requires s.saga.Listed?
    ensures var r := DoReserve(s, call); r.saga.Reserved? && var d := DoSave(r, saved); d.saga.Idle? || d.saga.Saved?
  {
    hide WithFleet, F.Reserve;
  }

  lemma Stops(th: Thresholds, s: State)
    ensures Legal(th, s, []) && After(th, s, []) == s
  {}

  lemma HandledRuns(th: Thresholds, s: State, vessels: seq<(F.VesselId, F.Vessel)>, luck: Luck)
    requires Enabled(s, Begin(vessels))
    ensures Legal(th, s, HandlingSteps(s, vessels, luck))
    ensures After(th, s, HandlingSteps(s, vessels, luck)) == Handled(s, vessels, luck)
  {
    hide Legal, After, Published, PublicationSteps, DoBegin, DoReserve, DoSave, DoCommit;
    var b := DoBegin(s, vessels);
    BeginLists(s, vessels);
    Stops(th, b);
    if b.saga.Idle? {
      RunCons(th, s, Begin(vessels), []);
      assert HandlingSteps(s, vessels, luck) == [Begin(vessels)] + [];
    } else {
      var call := CallOf(luck.reserve);
      var r := DoReserve(b, call);
      ReserveAndSave(b, call, luck.saved);
      var d := DoSave(r, luck.saved);
      if d.saga.Idle? {
        Stops(th, d);
        RunCons(th, r, Save(luck.saved), []);
        RunCons(th, b, Reserve(call), [Save(luck.saved)] + []);
        RunCons(th, s, Begin(vessels), [Reserve(call)] + ([Save(luck.saved)] + []));
      } else {
        var p := Published(d, luck);
        var c := DoCommit(p, luck.committed);
        Stops(th, c);
        RunCons(th, p, Commit(luck.committed), []);
        assert [Commit(luck.committed)] + [] == [Commit(luck.committed)];
        PublishedRuns(th, d, luck, [Commit(luck.committed)]);
        var rest := PublicationSteps(d, luck) + [Commit(luck.committed)];
        RunCons(th, r, Save(luck.saved), rest);
        RunCons(th, b, Reserve(call), [Save(luck.saved)] + rest);
        RunCons(th, s, Begin(vessels), [Reserve(call)] + ([Save(luck.saved)] + rest));
      }
    }
  }

  // --------------------------------------------------------------- what a handling amounts to

  lemma FleetFrames()
    ensures forall t: State, f :: (WithFleet(t, f).h == t.h && WithFleet(t, f).tasks == t.tasks
                                   && WithFleet(t, f).nextTask == t.nextTask
                                   && WithFleet(t, f).handling == t.handling && WithFleet(t, f).saga == t.saga
                                   && WithFleet(t, f).fleet == f)
  {}

  /** Up to the save. */
  lemma SavedTask(s: State, a: Alert, vessels: seq<(F.VesselId, F.Vessel)>, luck: Luck)
    requires Ready(s, a) && ValidAlert(a)
    ensures var b := DoBegin(s, vessels);
      b.saga.Listed? && var d := DoSave(DoReserve(b, CallOf(luck.reserve)), luck.saved);
      && d.tasks == s.tasks && d.h.created == s.h.created && d.h.aborted == s.h.aborted
      && (luck.saved ==> (d.saga.Saved? && d.saga.alert == a && d.saga.id == s.nextTask
                          && d.saga.task == NewTask(a, AssignedUnit(a, Berths(vessels))) && d.h.dead == s.h.dead))
      && (!luck.saved ==> d.saga.Idle? && d.h.dead == s.h.dead + [Dead(AlertTasks, Alerted(a))])
  {
    hide ValidAlert, AssignedUnit, Berths, Choice, Priority, WithFleet, F.Reserve;
    FleetFrames();
  }

  /** Up to the commit. */
  lemma PublishedTask(d: State, luck: Luck)
    requires d.saga.Saved?
    ensures var p, id, task := Published(d, luck), d.saga.id, d.saga.task;
      var ended := if luck.created then task else task.(status := Failed);
      && p.tasks == d.tasks && p.h.dead == d.h.dead && p.saga == Closing(d.saga.alert, id, ended)
      && p.h.created == (if luck.created then d.h.created + [Created(id, task)] else d.h.created)
      && p.h.aborted == (if !luck.created && luck.aborted then d.h.aborted + [Aborted(id, ended)] else d.h.aborted)
  {
    hide WithFleet, F.Release;
    FleetFrames();
  }

  lemma Refused(s: State, a: Alert, vessels: seq<(F.VesselId, F.Vessel)>)
    requires Ready(s, a) && !ValidAlert(a)
    ensures var b := DoBegin(s, vessels);
      && b.saga.Idle? && b.tasks == s.tasks && b.fleet == s.fleet
      && b.h == s.h.(dead := s.h.dead + [Dead(AlertTasks, Alerted(a))])
  {
    hide ValidAlert, AssignedUnit, Berths, Choice;
  }

  lemma Committed(p: State, committed: bool)
    requires p.saga.Closing?
    ensures var t := DoCommit(p, committed);
      && t.tasks == (if committed then p.tasks[p.saga.id := p.saga.task] else p.tasks)
      && t.h.dead == (if committed then p.h.dead else p.h.dead + [Dead(AlertTasks, Alerted(p.saga.alert))])
      && t.h.created == p.h.created && t.h.aborted == p.h.aborted
  {}

  /** A handling ends with one row or one dead letter, never both; whether the row is pending or
      failed is decided by `task.created` alone, and an event may be out for a row that is not. */
  lemma HandledRow(s: State, a: Alert, vessels: seq<(F.VesselId, F.Vessel)>, luck: Luck)
    requires Ready(s, a)
    ensures var t := Handled(s, vessels, luck);
      var task := NewTask(a, AssignedUnit(a, Berths(vessels)));
      var made, id := ValidAlert(a) && luck.saved, s.nextTask;
      var ended := if luck.created then task else task.(status := Failed);
      && t.tasks == (if made && luck.committed then s.tasks[id := ended] else s.tasks)
      && t.h.dead == (if made && luck.committed then s.h.dead else s.h.dead + [Dead(AlertTasks, Alerted(a))])
      && t.h.created == (if made && luck.created then s.h.created + [Created(id, task)] else s.h.created)
      && t.h.aborted == (if made && !luck.created && luck.aborted then s.h.aborted + [Aborted(id, ended)]
                         else s.h.aborted)
  {
    hide ValidAlert, NewTask, AssignedUnit, Berths, CallOf, DoBegin, DoReserve, DoSave, DoCommit, Published;
    if ValidAlert(a) {
      SavedTask(s, a, vessels, luck);
      ReserveAndSave(DoBegin(s, vessels), CallOf(luck.reserve), luck.saved);
      if luck.saved {
        var d := DoSave(DoReserve(DoBegin(s, vessels), CallOf(luck.reserve)), luck.saved);
        PublishedTask(d, luck);
        Committed(Published(d, luck), luck.committed);
      }
    } else {
      Refused(s, a, vessels);
    }
  }

  lemma ListedRow(vessels: seq<(F.VesselId, F.Vessel)>, f: F.Fleet, i: nat)
    requires i < |vessels| && IsListing(vessels, f.rows, F.Arriving)
    ensures vessels[i].0 in f.rows && f.rows[vessels[i].0] == vessels[i].1 && vessels[i].1.status == F.Arriving
  {
    assert vessels[i] in vessels;
  }

  lemma ChoiceBerth(vessels: seq<(F.VesselId, F.Vessel)>, f: F.Fleet)
    requires vessels == [] || IsListing(vessels, f.rows, F.Arriving)
    ensures var c := Choice(vessels);
      c.Some? ==>
        && c.value.0 in f.rows && f.rows[c.value.0].status == F.Arriving
        && f.rows[c.value.0].berth == Some(c.value.1)
  {
    hide Choice, IsListing;
    var i := R.ChoiceIsFirst(vessels);
    if Choice(vessels).Some? {
      ListedRow(vessels, f, i);
    }
  }

  /** The vessels up to the save. */
  lemma ReservedVessel(s: State, a: Alert, vessels: seq<(F.VesselId, F.Vessel)>, luck: Luck)
    requires Ready(s, a) && Enabled(s, Begin(vessels)) && ValidAlert(a)
    ensures var b, line, choice := DoBegin(s, vessels), luck.reserve, Choice(vessels);
      b.saga.Listed? && var d := DoSave(DoReserve(b, CallOf(line)), luck.saved);
      && (choice.Some? ==> choice.value.0 in s.fleet.rows)
      && d.fleet.rows == (if choice.Some? && line.arrives && line.fate.commit
                          then s.fleet.rows[choice.value.0 := s.fleet.rows[choice.value.0].(status := F.Berthed)]
                          else s.fleet.rows)
      && (!luck.saved ==> d.saga.Idle?)
      && (luck.saved ==> d.saga.Saved?)
      && (luck.saved ==> d.saga.held == if choice.Some? && line.arrives && line.fate.commit && line.answered
                                        then Some(choice.value.0) else None)
  {
    hide ValidAlert, AssignedUnit, Berths, Choice, Priority, WithFleet;
    FleetFrames();
    ChoiceBerth(vessels, s.fleet);
  }

  /** The vessels from there on. */
  lemma ReleasedVessel(d: State, luck: Luck)
    requires d.saga.Saved? && (d.saga.held.Some? ==> d.saga.held.value in d.fleet.rows)
    ensures var held, line := d.saga.held, luck.release;
      DoCommit(Published(d, luck), luck.committed).fleet.rows ==
        if held.Some? && !luck.created && line.arrives && line.fate.broker && line.fate.commit
        then d.fleet.rows[held.value := d.fleet.rows[held.value].(status := F.Arriving, berth := None)]
        else d.fleet.rows
  {
    hide WithFleet;
    FleetFrames();
  }

  /** What a handling does to the vessels. A compensation returns the vessel without its berth, and
      a reservation whose answer was lost, or that was followed by a failed save, stays. */
  lemma HandledVessels(s: State, a: Alert, vessels: seq<(F.VesselId, F.Vessel)>, luck: Luck)
    requires Ready(s, a) && Enabled(s, Begin(vessels))
    ensures var rows, choice := s.fleet.rows, Choice(vessels);
      var reserved := ValidAlert(a) && choice.Some? && luck.reserve.arrives && luck.reserve.fate.commit;
      var released := luck.reserve.answered && luck.saved && !luck.created
        && luck.release.arrives && luck.release.fate.broker && luck.release.fate.commit;
      && (choice.Some? ==> choice.value.0 in rows)
      && Handled(s, vessels, luck).fleet.rows ==
           if !reserved then rows
           else if released then rows[choice.value.0 := rows[choice.value.0].(berth := None)]
           else rows[choice.value.0 := rows[choice.value.0].(status := F.Berthed)]
  {
    hide ValidAlert, Choice, CallOf, DoBegin, DoReserve, DoSave, DoCommit, Published, IsListing;
    ChoiceBerth(vessels, s.fleet);
    if ValidAlert(a) {
      ReservedVessel(s, a, vessels, luck);
      ReserveAndSave(DoBegin(s, vessels), CallOf(luck.reserve), luck.saved);
      if luck.saved {
        ReleasedVessel(DoSave(DoReserve(DoBegin(s, vessels), CallOf(luck.reserve)), luck.saved), luck);
      }
    } else {
      Refused(s, a, vessels);
    }
  }

  /** The client's view of a reservation is the machine's. */
  lemma ReserveSeen(s: State, line: Line)
    requires s.saga.Listed?
    ensures var t, choice := DoReserve(s, CallOf(line)), s.saga.choice;
      && t.tasks == s.tasks && t.nextTask == s.nextTask && t.handling == s.handling
      && t.h.created == s.h.created && t.h.aborted == s.h.aborted && t.h.dead == s.h.dead
      && if choice.None? then t.fleet == s.fleet && t.saga == Reserved(s.saga.alert, s.saga.unit, None)
         else var (f, reply) := F.Reserve(s.fleet, choice.value.0, choice.value.1, line.fate);
           && t.fleet == (if line.arrives then f else s.fleet)
           && t.saga == Reserved(s.saga.alert, s.saga.unit,
                                 if line.arrives && line.answered && reply.Ok? then Some(choice.value.0) else None)
  {
    hide WithFleet;
    FleetFrames();
  }

  lemma ElsewhereFrame(th: Thresholds, s: State, step: Step)
    requires Enabled(s, step) && (step.Ingest? || step.Analyse? || step.Notify? || step.LogDead?)
    ensures var t := Apply(th, s, step);
      && t.fleet == s.fleet && t.tasks == s.tasks && t.nextTask == s.nextTask && t.saga == s.saga
      && t.h.created == s.h.created && t.h.aborted == s.h.aborted
  {
    hide Evaluate, Refusal, Event;
  }

  // ------------------------------------------------------------------------------ the service

  datatype Answer = Done(id: TaskId, task: Task) | Unknown | Thrown

  class TaskAssignmentService {
    const vessels: VesselService
    var tasks: map<TaskId, Task>
    var nextTask: TaskId
    var created: seq<Message>
    var aborted: seq<Message>
    ghost var port: State

    ghost predicate Valid()
      reads this, vessels
    {
      && port.fleet == vessels.State() && port.tasks == tasks && port.nextTask == nextTask
      && port.h.created == created && port.h.aborted == aborted
    }

    constructor (vessels: VesselService)
      ensures Valid() && this.vessels == vessels && port == AtRest(vessels.State())
    {
      this.vessels := vessels;
      tasks, nextTask, created, aborted := map[], 0, [], [];
      port := AtRest(vessels.State());
    }

    /** Meanwhile, a step of the machine that is another service's and none of the vessel service's. */
    ghost method Elsewhere(th: Thresholds, step: Step)
      requires Valid() && Enabled(port, step)
      requires step.Ingest? || step.Analyse? || step.Notify? || step.LogDead?
      modifies `port
      ensures Valid() && port == Apply(th, old(port), step)
      ensures port.saga == old(port.saga)
    {
      ElsewhereFrame(th, port, step);
      port := Apply(th, port, step);
    }

    /** A request of somebody else's to the vessel service. */
    method Client(request: F.Request, fate: F.Fate) returns (reply: F.Reply)
      requires Valid()
      modifies vessels, `port
      ensures Valid() && port == WithFleet(old(port), F.Serve(old(port.fleet), request, fate).0)
      ensures reply == F.Serve(old(port.fleet), request, fate).1
    {
      hide F.Serve, WithFleet;
      FleetFrames();
      match request {
        case RegisterReq(name, imo, berth, eta) => reply := vessels.Register(name, imo, berth, eta, fate);
        case UpdateReq(id, status, berth) => reply := vessels.UpdateStatus(id, status, berth, fate);
        case ReserveReq(id, berth) => reply := vessels.ReserveBerth(id, berth, fate);
        case ReleaseReq(id) => reply := vessels.ReleaseBerth(id, fate);
      }
      port := WithFleet(port, F.Serve(port.fleet, request, fate).0);
    }

    /** The client's list call, with its fallback. */
    method ArrivingVessels(up: bool) returns (list: seq<(F.VesselId, F.Vessel)>)
      ensures if up then IsListing(list, vessels.rows, F.Arriving) else list == []
    {
      if !up {
        return [];
      }
      list := vessels.ListByStatus(F.Arriving);
    }

    /** The client's two writing calls: an exception for anything but a timely good answer. */
    method ReserveBerth(id: F.VesselId, berth: string, line: Line) returns (thrown: bool)
      modifies vessels
      ensures vessels.State()
           == if line.arrives then F.Reserve(old(vessels.State()), id, berth, line.fate).0 else old(vessels.State())
      ensures thrown <==> !(line.arrives && line.answered
                            && F.Reserve(old(vessels.State()), id, berth, line.fate).1.Ok?)
    {
      if !line.arrives {
        return true;
      }
      var reply := vessels.ReserveBerth(id, berth, line.fate);
      return !(line.answered && reply.Ok?);
    }

    method ReleaseBerth(id: F.VesselId, line: Line) returns (thrown: bool)
      modifies vessels
      ensures vessels.State()
           == if line.arrives then F.Release(old(vessels.State()), id, line.fate).0 else old(vessels.State())
      ensures thrown <==> !(line.arrives && line.answered && F.Release(old(vessels.State()), id, line.fate).1.Ok?)
    {
      if !line.arrives {
        return true;
      }
      var reply := vessels.ReleaseBerth(id, line.fate);
      return !(line.answered && reply.Ok?);
    }

    method Publish(created: bool, id: TaskId, task: Task, up: bool) returns (thrown: bool)
      modifies this`created, this`aborted
      ensures thrown == !up
      ensures this.created == if up && created then old(this.created) + [Created(id, task)] else old(this.created)
      ensures this.aborted == if up && !created then old(this.aborted) + [Aborted(id, task)] else old(this.aborted)
    {
      if up && created {
        this.created := this.created + [Created(id, task)];
      } else if up {
        this.aborted := this.aborted + [Aborted(id, task)];
      }
      return !up;
    }

    /** The catch block: release what was reserved, then report. */
    method Compensate(id: TaskId, task: Task, reserved: Option<F.VesselId>, luck: Luck)
      requires Valid() && task.status == Failed
      requires || (port.saga.Releasing? && reserved == Some(port.saga.vessel))
               || (port.saga.Reporting? && reserved == None)
      requires port.saga.id == id && port.saga.task == task
      modifies vessels, `created, `aborted, `port
      ensures Valid() && port == Compensated(old(port), luck)
      ensures port.saga.id == id && port.saga.task == task && port.saga.alert == old(port.saga.alert)
    {
      hide F.Release, WithFleet;
      FleetFrames();
      if reserved.Some? {
        var thrown := ReleaseBerth(reserved.value, luck.release);
        port := DoRelease(port, luck.release.arrives, luck.release.fate);
      }
      var thrown := Publish(false, id, task, luck.aborted);
      port := DoPublishAborted(port, luck.aborted);
    }

    /** From the new task to the end of the transaction. */
    method SaveAndPublish(alert: Alert, unit: string, reserved: Option<F.VesselId>, luck: Luck) returns (answer: Answer)
      requires Valid() && port.saga == Reserved(alert, unit, reserved)
      modifies this, vessels
      ensures Valid()
      ensures port == var d := DoSave(old(port), luck.saved);
                      if d.saga.Idle? then d else DoCommit(Published(d, luck), luck.committed)
      ensures answer.Thrown? || answer.Done?
      ensures answer.Thrown? <==> port.h.dead != old(port.h.dead)
      ensures answer.Done? ==> tasks == old(tasks)[answer.id := answer.task]
    {
      hide Compensated, Priority;
      var task := Task(alert.sector, alert.alertType, unit, Priority(alert.severity), Pending, alert.correlationId,
                       None);
      port := DoSave(port, luck.saved);
      if !luck.saved {
        return Thrown;
      }
      var id := nextTask;
      nextTask := nextTask + 1;
      ghost var d := port;
      PublishedTask(d, luck);
      var thrown := Publish(true, id, task, luck.created);
      port := DoPublishCreated(port, luck.created);
      if thrown {
        task := task.(status := Failed);
        Compensate(id, task, reserved, luck);
      }
      assert port == Published(d, luck);
      port := DoCommit(port, luck.committed);
      if !luck.committed {
        return Thrown;
      }
      tasks := tasks[id := task];
      return Done(id, task);
    }

    /** `handleAlert` together with the listener around it, whose exception rejects the message. */
    method HandleAlert(alert: Alert, luck: Luck) returns (answer: Answer, ghost listing: seq<(F.VesselId, F.Vessel)>)
      requires Valid() && Ready(port, alert)
      modifies this, vessels
      ensures Valid()
      ensures listing == [] || IsListing(listing, old(vessels.rows), F.Arriving)
      ensures ValidAlert(alert) && luck.listed ==> IsListing(listing, old(vessels.rows), F.Arriving)
      ensures port == Handled(old(port), listing, luck)
      ensures answer.Thrown? <==> port.h.dead != old(port.h.dead)
      ensures answer.Done? ==> tasks == old(tasks)[answer.id := answer.task]
    {
      hide ValidAlert, F.Reserve, WithFleet, IsListing;
      FleetFrames();
      listing := [];
      if !ValidAlert(alert) {
        port := DoBegin(port, []);
        return Thrown, [];
      }
      var list := ArrivingVessels(luck.listed);
      listing := list;
      var unit := AssignedUnit(alert, Berths(list));
      var choice := Choice(list);
      port := DoBegin(port, list);
      var reserved := None;
      if choice.Some? {
        var thrown := ReserveBerth(choice.value.0, choice.value.1, luck.reserve);
        if !thrown {
          reserved := Some(choice.value.0);
        }
      }
      ReserveSeen(port, luck.reserve);
      port := DoReserve(port, CallOf(luck.reserve));
      answer := SaveAndPublish(alert, unit, reserved, luck);
    }

    method CompleteTask(id: TaskId, now: nat) returns (answer: Answer)
      requires Valid()
      modifies `tasks, `port
      ensures Valid() && port == DoComplete(old(port), id, now)
      ensures answer == if id in old(tasks) then Done(id, tasks[id]) else Unknown
      ensures tasks.Keys == old(tasks.Keys)
      ensures id in old(tasks) ==> tasks[id] == old(tasks)[id].(status := Completed, completedAt := Some(now))
    {
      port := DoComplete(port, id, now);
      if id !in tasks {
        return Unknown;
      }
      var task := tasks[id];
      task := task.(status := Completed);
      task := task.(completedAt := Some(now));
      tasks := tasks[id := task];
      return Done(id, task);
    }
  }

  // ------------------------------------------------------------------- one afternoon in the port

  const GOOD := F.Fate(true, true)
  const REACHED := Line(true, GOOD, true)

  /** Everything works but the publication of the new task. */
  const UNANNOUNCED := Luck(true, REACHED, true, false, REACHED, true, true)

  /** A reading that raises an alert, on its way to the task service. */
  lemma AlertArrives(th: Thresholds, s: State, p: Payload, a: Alert)
    requires s.saga.Idle? && s.queues(TelemetryProcessed) == [] && s.queues(AlertTasks) == []
    requires Refusal(p) == None && Evaluate(th, Event(p, "", "id")) == Some(a)
    ensures Enabled(s, Ingest(p, "", "id", true))
    ensures var t := Apply(th, s, Ingest(p, "", "id", true));
      Enabled(t, Analyse(true)) && Ready(Apply(th, t, Analyse(true)), a)
  {
    hide Refusal, Evaluate, Event;
  }

  lemma VesselArrives(name: string, imo: string, berth: string)
    ensures var (f, reply) := F.Serve(F.NO_VESSELS, F.RegisterReq(name, imo, Some(berth), None), GOOD);
      var s := WithFleet(AtRest(F.NO_VESSELS), f);
      && f.rows == map[0 := F.Vessel(name, imo, F.Arriving, Some(berth), None)] && s.fleet == f
      && s.saga.Idle? && s.queues(TelemetryProcessed) == [] && s.queues(AlertTasks) == []
  {
    assert map[][0 := F.Vessel(name, imo, F.Arriving, Some(berth), None)]
      == map[0 := F.Vessel(name, imo, F.Arriving, Some(berth), None)];
  }

  /** The listing of a table with one arriving vessel. */
  lemma OneVessel(f: F.Fleet, listing: seq<(F.VesselId, F.Vessel)>, name: string, imo: string, berth: string)
    requires f.rows == map[0 := F.Vessel(name, imo, F.Arriving, Some(berth), None)] && B.HasText(Some(berth))
    requires IsListing(listing, f.rows, F.Arriving)
    ensures Choice(listing) == Some((0, berth))
  {
    hide B.HasText, Choice;
    var i := R.ChoiceIsFirst(listing);
    assert (0, f.rows[0]) in listing;
    if Choice(listing).Some? {
      assert listing[i] in listing;
    }
  }

  /** What is left of it in the evening: a failed task, and a vessel without its berth. */
  lemma Evening(s: State, a: Alert, listing: seq<(F.VesselId, F.Vessel)>, name: string, imo: string, berth: string)
    requires Ready(s, a) && ValidAlert(a) && B.HasText(Some(berth))
    requires s.fleet.rows == map[0 := F.Vessel(name, imo, F.Arriving, Some(berth), None)]
    requires IsListing(listing, s.fleet.rows, F.Arriving)
    ensures var t := Handled(s, listing, UNANNOUNCED);
      && t.h.dead == s.h.dead
      && t.fleet.rows == map[0 := F.Vessel(name, imo, F.Arriving, None, None)]
      && t.tasks == s.tasks[s.nextTask := NewTask(a, UnitName(UnitOf(a)) + berth).(status := Failed)]
  {
    hide Handled, ValidAlert, B.HasText, Choice, UnitName, UnitOf, AssignedUnit, NewTask, IsListing;
    OneVessel(s.fleet, listing, name, imo, berth);
    R.UnitNamesBerth(a, listing);
    HandledRow(s, a, listing, UNANNOUNCED);
    HandledVessels(s, a, listing, UNANNOUNCED);
  }

  /** A vessel is registered, a reading comes in and raises an alert, and the alert is handled while
      the broker refuses `task.created`. */
  method Afternoon(th: Thresholds, p: Payload, name: string, imo: string, berth: string)
    returns (service: TaskAssignmentService, answer: Answer)
    requires Refusal(p) == None && Evaluate(th, Event(p, "", "id")).Some?
    requires ValidAlert(Evaluate(th, Event(p, "", "id")).value) && B.HasText(Some(berth))
    ensures !answer.Thrown?
    ensures service.tasks
         == map[0 := NewTask(Evaluate(th, Event(p, "", "id")).value,
                             UnitName(UnitOf(Evaluate(th, Event(p, "", "id")).value)) + berth).(status := Failed)]
    ensures service.vessels.rows == map[0 := F.Vessel(name, imo, F.Arriving, None, None)]
  {
    hide Refusal, Evaluate, Event, ValidAlert, B.HasText, Handled, UnitName, UnitOf, Apply, Enabled, NewTask,
      WithFleet, F.Serve, Ready, IsListing;
    RefusalIff(p);
    var alert := Evaluate(th, Event(p, "", "id")).value;
    var vessels := new VesselService();
    service := new TaskAssignmentService(vessels);
    VesselArrives(name, imo, berth);
    var reply := service.Client(F.RegisterReq(name, imo, Some(berth), None), GOOD);
    AlertArrives(th, service.port, p, alert);
    service.Elsewhere(th, Ingest(p, "", "id", true));
    service.Elsewhere(th, Analyse(true));
    ghost var before := service.port;
    ghost var listing;
    answer, listing := service.HandleAlert(alert, UNANNOUNCED);
    Evening(before, alert, listing, name, imo, berth);
  }
}
