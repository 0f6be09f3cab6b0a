/** What every reachable task table looks like, and what its events say about it. */
module Tasks {
  import opened Telemetry
  import opened Rules
  import opened Port
  import opened Conservation
  import F = Fleet

  /** How many of the events are about task `id`. */
  function Count(ms: seq<Message>, id: TaskId): nat {
    if ms == [] then 0 else
      var m := ms[|ms| - 1];
      Count(ms[..|ms| - 1], id) + if (m.Created? || m.Aborted?) && m.id == id then 1 else 0
  }

  lemma CountSnoc(ms: seq<Message>, m: Message, id: TaskId)
    ensures Count(ms + [m], id) == Count(ms, id) + if (m.Created? || m.Aborted?) && m.id == id then 1 else 0
  {
    assert (ms + [m])[..|ms|] == ms;
  }

  /** What has been announced of a task when it is in a certain status. */
  predicate Told(status: TaskStatus, created: nat, aborted: nat) {
    match status
    case Pending => created == 1 && aborted == 0
    case InProgress => false
    case Failed => created == 0 && aborted <= 1
    case Completed => (created == 1 && aborted == 0) || (created == 0 && aborted <= 1)
  }

  predicate Untold(created: seq<Message>, aborted: seq<Message>, id: TaskId) {
    Count(created, id) == 0 && Count(aborted, id) == 0
  }

  predicate Consistent(created: seq<Message>, aborted: seq<Message>, id: TaskId, task: Task) {
    && Told(task.status, Count(created, id), Count(aborted, id))
    && (task.completedAt.Some? <==> task.status == Completed)
  }

  predicate TaskOf(s: State, id: TaskId)
    requires !s.saga.Idle? && !s.saga.Listed? && !s.saga.Reserved?
  {
    && s.saga.task.completedAt.None?
    && match s.saga
       case Saved(_, _, task, _) => task.status == Pending && Untold(s.h.created, s.h.aborted, id)
       case Releasing(_, _, task, _) => task.status == Failed && Untold(s.h.created, s.h.aborted, id)
       case Reporting(_, _, task) => task.status == Failed && Untold(s.h.created, s.h.aborted, id)
       case Closing(_, _, task) => Consistent(s.h.created, s.h.aborted, id, task)
  }

  /** Rows and the task in hand agree with their events; what has no identifier yet has no event. */
  ghost predicate TasksTold(s: State) {
    && (forall id :: id in s.tasks ==> Consistent(s.h.created, s.h.aborted, id, s.tasks[id]))
    && (!s.saga.Idle? && !s.saga.Listed? && !s.saga.Reserved? ==> TaskOf(s, s.saga.id))
    && (forall id :: id >= s.nextTask ==> Untold(s.h.created, s.h.aborted, id))
  }

  predicate Tasked(saga: Saga) { !saga.Idle? && !saga.Listed? && !saga.Reserved? }

  /** Most steps have nothing to do with tasks. */
  lemma TasksFrame(th: Thresholds, s: State, step: Step)
    requires Enabled(s, step)
    requires !(step.Save? || step.PublishCreated? || step.Release? || step.PublishAborted? || step.Commit?
               || step.Complete?)
    ensures var t := Apply(th, s, step);
      && t.tasks == s.tasks && t.nextTask == s.nextTask && t.h.created == s.h.created && t.h.aborted == s.h.aborted
      && (t.saga == s.saga || !Tasked(t.saga))
  {
    hide Evaluate, ValidAlert, AssignedUnit, Choice, Berths, WithFleet, Refusal, Event, Priority, F.Serve, F.Reserve,
      F.Release;
    StepFrames(s, step);
  }

  lemma SaveTold(s: State, saved: bool)
    requires TasksTold(s) && s.saga.Reserved?
    ensures TasksTold(DoSave(s, saved))
  {
    hide Count, Told, Priority;
  }

  /** One event about the task in hand changes the count of that task alone. */
  lemma CountedOnce(s: State, ms: seq<Message>, m: Message)
    requires Tasked(s.saga) && (m.Created? || m.Aborted?) && m.id == s.saga.id
    ensures Count(ms + [m], m.id) == Count(ms, m.id) + 1
    ensures forall id :: id != m.id ==> Count(ms + [m], id) == Count(ms, id)
  {
    hide Count;
    forall id ensures Count(ms + [m], id) == Count(ms, id) + if m.id == id then 1 else 0 {
      CountSnoc(ms, m, id);
    }
  }

  /** An event about the task in hand says nothing about any other. */
  lemma Retold(s: State, t: State)
    requires TasksTold(s) && IdsFresh(s) && Tasked(s.saga) && Tasked(t.saga) && t.saga.id == s.saga.id
    requires t.tasks == s.tasks && t.nextTask == s.nextTask
    requires forall id :: id != s.saga.id ==>
      Count(t.h.created, id) == Count(s.h.created, id) && Count(t.h.aborted, id) == Count(s.h.aborted, id)
    requires TaskOf(t, t.saga.id)
    ensures TasksTold(t)
  {
    hide Count, Told;
    forall id | id in t.tasks ensures Consistent(t.h.created, t.h.aborted, id, t.tasks[id]) {
      assert Consistent(s.h.created, s.h.aborted, id, s.tasks[id]);
    }
    forall id | id >= t.nextTask ensures Untold(t.h.created, t.h.aborted, id) {
      assert Untold(s.h.created, s.h.aborted, id);
    }
  }

  lemma PublishCreatedTold(s: State, sent: bool)
    requires TasksTold(s) && IdsFresh(s) && s.saga.Saved?
    ensures TasksTold(DoPublishCreated(s, sent))
  {
    hide Count;
    if sent {
      CountedOnce(s, s.h.created, Created(s.saga.id, s.saga.task));
    }
    Retold(s, DoPublishCreated(s, sent));
  }

  lemma ReleaseTold(s: State, arrives: bool, fate: F.Fate)
    requires TasksTold(s) && s.saga.Releasing?
    ensures TasksTold(DoRelease(s, arrives, fate))
  {
    hide Count, Told, WithFleet, F.Release;
    FleetFrame(s, F.Release(s.fleet, s.saga.vessel, fate).0);
  }

  lemma PublishAbortedTold(s: State, sent: bool)
    requires TasksTold(s) && IdsFresh(s) && s.saga.Reporting?
    ensures TasksTold(DoPublishAborted(s, sent))
  {
    hide Count;
    if sent {
      CountedOnce(s, s.h.aborted, Aborted(s.saga.id, s.saga.task));
    }
    Retold(s, DoPublishAborted(s, sent));
  }

  lemma CommitTold(s: State, committed: bool)
    requires TasksTold(s) && s.saga.Closing?
    ensures TasksTold(DoCommit(s, committed))
  {
    hide Count, Told;
  }

  lemma CompleteTold(s: State, id: TaskId, time: nat)
    requires TasksTold(s) && IdsFresh(s)
    ensures TasksTold(DoComplete(s, id, time))
  {
    hide Count;
  }

  lemma FrameTold(s: State, t: State)
    requires TasksTold(s)
    requires t.tasks == s.tasks && t.nextTask == s.nextTask && t.h.created == s.h.created && t.h.aborted == s.h.aborted
    requires t.saga == s.saga || !Tasked(t.saga)
    ensures TasksTold(t)
  {
    hide Count, Told;
  }

  lemma TasksStep(th: Thresholds, s: State, step: Step)
    requires TasksTold(s) && IdsFresh(s) && Enabled(s, step)
    ensures TasksTold(Apply(th, s, step))
  {
    hide TasksTold, IdsFresh, DoSave, DoPublishCreated, DoRelease, DoPublishAborted, DoCommit, DoComplete;
    match step
    case Save(saved) => SaveTold(s, saved);
    case PublishCreated(sent) => PublishCreatedTold(s, sent);
    case Release(arrives, fate) => ReleaseTold(s, arrives, fate);
    case PublishAborted(sent) => PublishAbortedTold(s, sent);
    case Commit(committed) => CommitTold(s, committed);
    case Complete(id, time) => CompleteTold(s, id, time);
    case _ =>
      hide Apply, Enabled;
      TasksFrame(th, s, step);
      FrameTold(s, Apply(th, s, step));
  }

  // ------------------------------------------------------------------ what never goes back

  /** The part of a task that is fixed when it is made. */
  function Order(t: Task): (string, string, string, string, string) {
    (t.sector, t.alertType, t.unit, t.priority, t.correlationId)
  }

  /** Later tables: no row is lost or rewritten, and completion is for good. */
  predicate Later(s: State, t: State) {
    forall id :: id in s.tasks ==>
      && id in t.tasks && Order(t.tasks[id]) == Order(s.tasks[id])
      && (t.tasks[id] == s.tasks[id] || t.tasks[id].status == Completed)
  }

  lemma LaterStep(th: Thresholds, s: State, step: Step)
    requires IdsFresh(s) && Enabled(s, step)
    ensures Later(s, Apply(th, s, step))
  {
    if step.Commit? || step.Complete? {
      hide Evaluate, ValidAlert, AssignedUnit;
    } else if step.Save? || step.PublishCreated? || step.Release? || step.PublishAborted? {
      hide WithFleet, Priority, F.Release;
      if step.Release? {
        FleetFrame(s, F.Release(s.fleet, s.saga.vessel, step.fate).0);
      }
    } else {
      hide Apply, Enabled;
      TasksFrame(th, s, step);
    }
  }

  /** An event describes the task it names. */
  predicate EventsTrue(s: State) {
    forall m :: m in s.h.created + s.h.aborted ==>
      && (m.Created? || m.Aborted?) && m.id < s.nextTask
      && (m.id in s.tasks ==> Order(m.task) == Order(s.tasks[m.id]))
      && (Tasked(s.saga) && s.saga.id == m.id ==> Order(m.task) == Order(s.saga.task))
  }

  lemma EventsOwn(s: State, step: Step)
    requires EventsTrue(s) && IdsFresh(s) && Enabled(s, step)
    ensures step.Save? ==> EventsTrue(DoSave(s, step.saved))
    ensures step.PublishCreated? ==> EventsTrue(DoPublishCreated(s, step.sent))
    ensures step.PublishAborted? ==> EventsTrue(DoPublishAborted(s, step.sent))
    ensures step.Commit? ==> EventsTrue(DoCommit(s, step.committed))
  {
    hide Priority;
  }

  lemma EventsFrame(s: State, t: State)
    requires EventsTrue(s) && t.h.created == s.h.created && t.h.aborted == s.h.aborted && t.nextTask == s.nextTask
    requires t.tasks.Keys == s.tasks.Keys && Later(s, t)
    requires !Tasked(t.saga) || (Tasked(s.saga) && t.saga.id == s.saga.id && t.saga.task == s.saga.task)
    ensures EventsTrue(t)
  {}

  lemma CompleteFrame(s: State, id: TaskId, time: nat)
    ensures var t := DoComplete(s, id, time); t.h == s.h && t.nextTask == s.nextTask && t.saga == s.saga
  {}

  lemma EventsStep(th: Thresholds, s: State, step: Step)
    requires EventsTrue(s) && IdsFresh(s) && Enabled(s, step)
    ensures EventsTrue(Apply(th, s, step))
  {
    hide EventsTrue, IdsFresh, Later, WithFleet, DoSave, DoPublishCreated, DoPublishAborted, DoCommit, DoComplete;
    if step.Save? || step.PublishCreated? || step.PublishAborted? || step.Commit? {
      EventsOwn(s, step);
    } else if step.Release? {
      FleetFrame(s, F.Release(s.fleet, s.saga.vessel, step.fate).0);
      LaterStep(th, s, step);
      RowsFrame(th, s, step);
      EventsFrame(s, Apply(th, s, step));
    } else if step.Complete? {
      LaterStep(th, s, step);
      RowsFrame(th, s, step);
      CompleteFrame(s, step.task, step.time);
      EventsFrame(s, Apply(th, s, step));
    } else {
      hide Apply, Enabled;
      TasksFrame(th, s, step);
      LaterStep(th, s, step);
      RowsFrame(th, s, step);
      EventsFrame(s, Apply(th, s, step));
    }
  }
}
