/**
 The services come to rest. Left to themselves, with no new readings, no requests from outside and
 nobody completing tasks, they can take only so many steps, and they stop only when everything they
 consume is consumed.
 */
module Progress {
  import opened Broker
  import opened Rules
  import opened Port
  import opened Conservation
  import opened Runs
  import F = Fleet
  import P = Provenance
  import R = Reservations
  import T = Tasks

  /** A step the services take of their own accord. */
  predicate Internal(step: Step) { !step.Ingest? && !step.Client? && !step.Complete? }

  /** What a message in a queue can still set off, itself included. */
  function Weight(q: Queue): nat {
    match q
    case TelemetryProcessed => 15
    case AlertTasks => 12
    case CongestionAlert => 0
    case DeadLetters => 1
    case _ => 2
  }

  function NoticeLoad(qs: Queues<Message>): nat {
    2 * (|qs(AlertNotices)| + |qs(TaskCreated)| + |qs(TaskFailed)|
         + |qs(VesselArrived)| + |qs(VesselDocked)| + |qs(VesselDeparted)|)
  }

  function Load(qs: Queues<Message>): nat {
    Weight(TelemetryProcessed) * |qs(TelemetryProcessed)| + Weight(AlertTasks) * |qs(AlertTasks)|
    + Weight(DeadLetters) * |qs(DeadLetters)| + NoticeLoad(qs)
  }

  /** What the handling in progress can still set off. */
  function SagaLoad(saga: Saga): nat {
    match saga
    case Idle => 0
    case Listed(_, _, _) => 11
    case Reserved(_, _, _) => 10
    case Saved(_, _, _, _) => 9
    case Releasing(_, _, _, _) => 8
    case Reporting(_, _, _) => 5
    case Closing(_, _, _) => 2
  }

  function Work(s: State): nat { Load(s.queues) + SagaLoad(s.saga) }

  // ----------------------------------------------------------------------- queues and weights

  function KeyWeight(k: Key): nat {
    match k
    case TelemetryKey => 15
    case AlertKey => 14
    case DeadKey => 1
    case _ => 2
  }

  lemma PublishLoad(qs: Queues<Message>, k: Key, m: Message)
    ensures Load(Publish(qs, k, m)) == Load(qs) + KeyWeight(k)
  {}

  lemma RemoveLoad(qs: Queues<Message>, q: Queue, i: nat)
    requires i < |qs(q)|
    ensures Load(Remove(qs, q, i)) == Load(qs) - Weight(q)
  {}

  lemma PutLoad(qs: Queues<Message>, m: Message)
    ensures Load(Put(qs, DeadLetters, m)) == Load(qs) + 1
  {}

  lemma FleetLoad(s: State, f: F.Fleet)
    ensures Load(WithFleet(s, f).queues) <= Load(s.queues) + 2
    ensures |f.log| <= |s.fleet.log| ==> WithFleet(s, f).queues == s.queues
    ensures WithFleet(s, f).saga == s.saga
  {
    hide Load, Publish;
    if |f.log| > |s.fleet.log| && F.RoutingKey(f.log[|f.log| - 1].event.status).Some? {
      var e := f.log[|f.log| - 1].event;
      PublishLoad(s.queues, F.RoutingKey(e.status).value, Lifecycle(e));
    }
  }

  // ---------------------------------------------------------------------------- every step

  lemma AnalyseWork(th: Thresholds, s: State, sent: bool)
    requires Enabled(s, Analyse(sent))
    ensures Work(DoAnalyse(th, s, sent)) < Work(s)
  {
    hide Load, Publish, Remove, Put, Evaluate;
    var m := s.queues(TelemetryProcessed)[0];
    var rest := Remove(s.queues, TelemetryProcessed, 0);
    RemoveLoad(s.queues, TelemetryProcessed, 0);
    PutLoad(rest, Dead(TelemetryProcessed, m));
    if m.Measured? && Evaluate(th, m.reading).Some? {
      PublishLoad(rest, AlertKey, Alerted(Evaluate(th, m.reading).value));
    }
  }

  lemma BeginWork(s: State, vessels: seq<(F.VesselId, F.Vessel)>)
    requires Enabled(s, Begin(vessels))
    ensures Work(DoBegin(s, vessels)) < Work(s)
  {
    hide Load, Remove, Put, ValidAlert, AssignedUnit, Choice, Berths;
    RemoveLoad(s.queues, AlertTasks, 0);
    PutLoad(Remove(s.queues, AlertTasks, 0), Dead(AlertTasks, s.queues(AlertTasks)[0]));
  }

  lemma ReserveWork(s: State, call: Call)
    requires s.saga.Listed?
    ensures Work(DoReserve(s, call)) < Work(s)
  {
    hide Load, WithFleet;
    if s.saga.choice.Some? {
      FleetLoad(s, F.Reserve(s.fleet, s.saga.choice.value.0, s.saga.choice.value.1, F.Fate(true, true)).0);
    }
  }

  lemma SaveWork(s: State, saved: bool)
    requires s.saga.Reserved?
    ensures Work(DoSave(s, saved)) < Work(s)
  {
    hide Load, Put, Priority;
    PutLoad(s.queues, Dead(AlertTasks, Alerted(s.saga.alert)));
  }

  lemma PublishCreatedWork(s: State, sent: bool)
    requires s.saga.Saved?
    ensures Work(DoPublishCreated(s, sent)) < Work(s)
  {
    hide Load, Publish;
    PublishLoad(s.queues, CreatedKey, Created(s.saga.id, s.saga.task));
  }

  lemma ReleaseWork(s: State, arrives: bool, fate: F.Fate)
    requires s.saga.Releasing?
    ensures Work(DoRelease(s, arrives, fate)) < Work(s)
  {
    hide Load, WithFleet, F.Release;
    FleetLoad(s, F.Release(s.fleet, s.saga.vessel, fate).0);
  }

  lemma PublishAbortedWork(s: State, sent: bool)
    requires s.saga.Reporting?
    ensures Work(DoPublishAborted(s, sent)) < Work(s)
  {
    hide Load, Publish;
    PublishLoad(s.queues, FailedKey, Aborted(s.saga.id, s.saga.task));
  }

  lemma CommitWork(s: State, committed: bool)
    requires s.saga.Closing?
    ensures Work(DoCommit(s, committed)) < Work(s)
  {
    hide Load, Put;
    PutLoad(s.queues, Dead(AlertTasks, Alerted(s.saga.alert)));
  }

  lemma NotifyWork(s: State, q: Queue, i: nat, rejected: bool)
    requires Enabled(s, Notify(q, i, rejected))
    ensures Work(DoNotify(s, q, i, rejected)) < Work(s)
  {
    hide Load, Remove, Put;
    RemoveLoad(s.queues, q, i);
    PutLoad(Remove(s.queues, q, i), Dead(q, s.queues(q)[i]));
  }

  lemma LogDeadWork(s: State, i: nat)
    requires Enabled(s, LogDead(i))
    ensures Work(DoLogDead(s, i)) < Work(s)
  {
    hide Load, Remove;
    RemoveLoad(s.queues, DeadLetters, i);
  }

  /** Every step the services take of their own accord leaves less to do. */
  lemma WorkDrops(th: Thresholds, s: State, step: Step)
    requires Enabled(s, step) && Internal(step)
    ensures Work(Apply(th, s, step)) < Work(s)
  {
    hide Work, DoAnalyse, DoBegin, DoReserve, DoSave, DoPublishCreated, DoRelease, DoPublishAborted, DoCommit, DoNotify;
    match step
    case Analyse(sent) => AnalyseWork(th, s, sent);
    case Begin(vessels) => BeginWork(s, vessels);
    case Reserve(call) => ReserveWork(s, call);
    case Save(saved) => SaveWork(s, saved);
    case PublishCreated(sent) => PublishCreatedWork(s, sent);
    case Release(arrives, fate) => ReleaseWork(s, arrives, fate);
    case PublishAborted(sent) => PublishAbortedWork(s, sent);
    case Commit(committed) => CommitWork(s, committed);
    case Notify(q, i, rejected) => NotifyWork(s, q, i, rejected);
    case LogDead(i) => LogDeadWork(s, i);
  }

  // ---------------------------------------------------------------------------- whole runs

  predicate AllInternal(steps: seq<Step>) { forall step :: step in steps ==> Internal(step) }

  /** Left to themselves the services take at most as many steps as there is work. */
  lemma {:induction false} RunsStop(th: Thresholds, s: State, steps: seq<Step>)
    requires Legal(th, s, steps) && AllInternal(steps)
    ensures |steps| + Work(After(th, s, steps)) <= Work(s)
    decreases |steps|
  {
    hide Work, Apply, Enabled, Internal;
    if steps != [] {
      WorkDrops(th, s, steps[0]);
      RunsStop(th, Apply(th, s, steps[0]), steps[1..]);
    }
  }

  /** Nothing in hand, and no message in any queue that has a reader. */
  predicate AtEase(s: State) {
    && s.saga.Idle? && s.queues(TelemetryProcessed) == [] && s.queues(AlertTasks) == [] && s.queues(DeadLetters) == []
    && s.queues(AlertNotices) == [] && s.queues(TaskCreated) == [] && s.queues(TaskFailed) == []
    && s.queues(VesselArrived) == [] && s.queues(VesselDocked) == [] && s.queues(VesselDeparted) == []
  }

  /** The services stop only at ease. */
  lemma NextStep(s: State) returns (step: Step)
    requires !AtEase(s)
    ensures Internal(step) && Enabled(s, step)
  {
    step := match s.saga
      case Listed(_, _, _) => Reserve(NotDone)
      case Reserved(_, _, _) => Save(true)
      case Saved(_, _, _, _) => PublishCreated(true)
      case Releasing(_, _, _, _) => Release(true, F.Fate(true, true))
      case Reporting(_, _, _) => PublishAborted(true)
      case Closing(_, _, _) => Commit(true)
      case Idle =>
        if s.queues(TelemetryProcessed) != [] then Analyse(true)
        else if s.queues(AlertTasks) != [] then Begin([])
        else if s.queues(DeadLetters) != [] then LogDead(0)
        else if s.queues(AlertNotices) != [] then Notify(AlertNotices, 0, false)
        else if s.queues(TaskCreated) != [] then Notify(TaskCreated, 0, false)
        else if s.queues(TaskFailed) != [] then Notify(TaskFailed, 0, false)
        else if s.queues(VesselArrived) != [] then Notify(VesselArrived, 0, false)
        else if s.queues(VesselDocked) != [] then Notify(VesselDocked, 0, false)
        else Notify(VesselDeparted, 0, false);
  }

  /** From everywhere they can get there. */
  lemma {:induction false} RestIsReachable(th: Thresholds, s: State) returns (steps: seq<Step>)
    ensures AllInternal(steps) && Legal(th, s, steps) && AtEase(After(th, s, steps))
    decreases Work(s)
  {
    hide Work, Apply, Enabled, Internal, AtEase;
    steps := [];
    if !AtEase(s) {
      var step := NextStep(s);
      WorkDrops(th, s, step);
      var rest := RestIsReachable(th, Apply(th, s, step));
      steps := [step] + rest;
      assert steps[0] == step && steps[1..] == rest;
    }
  }

  lemma Stopped(s: State)
    ensures !AtEase(s) ==> exists step :: Internal(step) && Enabled(s, step)
  {
    hide AtEase, Internal, Enabled;
    if !AtEase(s) {
      var step := NextStep(s);
    }
  }

  /** When the services have stopped, every single reading that was accepted was nominal, raised an
      alert or is in the log of the dead, and every single alert has its row or is in that log. */
  lemma RunSettles(th: Thresholds, f: F.Fleet, steps: seq<Step>)
    requires Legal(th, AtRest(f), steps)
    requires forall step :: Internal(step) ==> !Enabled(After(th, AtRest(f), steps), step)
    ensures var s := After(th, AtRest(f), steps);
      && AtEase(s)
      && multiset(s.h.accepted) == multiset(s.h.nominal) + multiset(s.h.alarming) + From(s.h.dead, TelemetryProcessed)
      && multiset(s.h.published) == multiset(s.h.handled) + From(s.h.dead, AlertTasks)
      && multiset(s.h.dead) == multiset(s.h.logged)
      && |s.h.handled| == |s.tasks|
  {
    hide Legal, After, From, Enabled, Internal, UnreadKept, AlertsOfReadings, IdsFresh, R.HoldsKept, R.HeldKnown,
      T.TasksTold, T.EventsTrue, P.Traced;
    Reachable(th, f, steps);
    var s := After(th, AtRest(f), steps);
    Stopped(s);
  }
}
