/** Nothing is lost: where every reading and every alert is, in every reachable state. */
module Conservation {
  import opened Options
  import opened Broker
  import opened Telemetry
  import opened Rules
  import opened Port
  import F = Fleet

  /** The messages among dead letters `ds` that came from queue `origin`. */
  function From(ds: seq<Message>, origin: Queue): multiset<Message> {
    if ds == [] then multiset{} else
      var d := ds[|ds| - 1];
      From(ds[..|ds| - 1], origin) + if d.Dead? && d.origin == origin then multiset{d.message} else multiset{}
  }

  /** The alert being handled. */
  function InFlight(saga: Saga): multiset<Message> {
    if saga.Idle? then multiset{} else multiset{Alerted(saga.alert)}
  }

  /** Everything that came in is in exactly one of four places. */
  predicate Accounted(all: seq<Message>, waiting: seq<Message>, held: multiset<Message>, done: seq<Message>,
                      dead: multiset<Message>) {
    multiset(all) == multiset(waiting) + held + multiset(done) + dead
  }

  /** Every accepted reading waits, was found nominal, raised a published alert, or is dead. */
  predicate ReadingsKept(s: State) {
    Accounted(s.h.accepted, s.queues(TelemetryProcessed), multiset(s.h.nominal), s.h.alarming,
              From(s.h.dead, TelemetryProcessed))
  }

  /** Every published alert waits, is in hand, was handled to a committed row, or is dead. */
  predicate AlertsKept(s: State) {
    && Accounted(s.h.published, s.queues(AlertTasks), InFlight(s.saga), s.h.handled, From(s.h.dead, AlertTasks))
    && |s.h.handled| == |s.tasks|
  }

  /** Nobody consumes `congestion.alert`: it holds every alert ever published, in order. */
  predicate UnreadKept(s: State) { s.queues(CongestionAlert) == s.h.published }

  /** Every dead letter waits or was logged. */
  predicate DeadKept(s: State) {
    multiset(s.h.dead) == multiset(s.queues(DeadLetters)) + multiset(s.h.logged)
  }

  /** Task identifiers are handed out once. */
  predicate IdsFresh(s: State) {
    && (forall id :: id in s.tasks ==> id < s.nextTask)
    && (s.saga.Saved? || s.saga.Releasing? || s.saga.Reporting? || s.saga.Closing? ==>
          s.saga.id < s.nextTask && s.saga.id !in s.tasks)
  }

  /** The alerts published are the alerts of the alarming readings, one each, in order. */
  predicate AlertsOfReadings(th: Thresholds, s: State) {
    && |s.h.alarming| == |s.h.published|
    && (forall i :: 0 <= i < |s.h.alarming| ==>
          s.h.alarming[i].Measured? && s.h.published[i].Alerted?
          && Evaluate(th, s.h.alarming[i].reading) == Some(s.h.published[i].alert))
    && (forall m :: m in s.h.nominal ==> m.Measured? && Evaluate(th, m.reading) == None)
  }

  lemma FromSnoc(ds: seq<Message>, d: Message, origin: Queue)
    ensures From(ds + [d], origin)
         == From(ds, origin) + if d.Dead? && d.origin == origin then multiset{d.message} else multiset{}
  {
    assert (ds + [d])[..|ds|] == ds;
  }

  lemma WithoutCount(ms: seq<Message>, i: nat)
    requires i < |ms|
    ensures multiset(ms) == multiset(Without(ms, i)) + multiset{ms[i]}
  {
    assert ms == ms[..i] + [ms[i]] + ms[i + 1..];
  }

  /** The three moves a message can make. */
  lemma Arrive(all: seq<Message>, waiting: seq<Message>, held: multiset<Message>, done: seq<Message>,
               dead: multiset<Message>, m: Message)
    requires Accounted(all, waiting, held, done, dead)
    ensures Accounted(all + [m], waiting + [m], held, done, dead)
  {}

  lemma Take(all: seq<Message>, waiting: seq<Message>, held: multiset<Message>, done: seq<Message>,
             dead: multiset<Message>, i: nat)
    requires Accounted(all, waiting, held, done, dead) && i < |waiting|
    ensures Accounted(all, Without(waiting, i), held + multiset{waiting[i]}, done, dead)
  {
    hide Without;
    WithoutCount(waiting, i);
  }

  lemma Finish(all: seq<Message>, waiting: seq<Message>, held: multiset<Message>, done: seq<Message>,
               dead: multiset<Message>, m: Message)
    requires Accounted(all, waiting, held + multiset{m}, done, dead)
    ensures Accounted(all, waiting, held, done + [m], dead)
    ensures Accounted(all, waiting, held, done, dead + multiset{m})
  {}

  lemma FinishOnly(all: seq<Message>, waiting: seq<Message>, done: seq<Message>, dead: multiset<Message>, m: Message)
    requires Accounted(all, waiting, multiset{m}, done, dead)
    ensures Accounted(all, waiting, multiset{}, done + [m], dead)
    ensures Accounted(all, waiting, multiset{}, done, dead + multiset{m})
  {
    assert multiset{} + multiset{m} == multiset{m};
    Finish(all, waiting, multiset{}, done, dead, m);
  }

  /** A vessel transaction touches the fleet and the three queues of its events. */
  lemma FleetFrame(s: State, f: F.Fleet)
    ensures var t := WithFleet(s, f);
      && t.fleet == f && t.h == s.h && t.tasks == s.tasks && t.nextTask == s.nextTask
      && t.saga == s.saga && t.handling == s.handling
      && forall q :: q !in {VesselArrived, VesselDocked, VesselDeparted} ==> t.queues(q) == s.queues(q)
  {}

  /** The facts about one step that every balance needs. */
  lemma StepFrames(s: State, step: Step)
    requires Enabled(s, step)
    ensures forall f :: (WithFleet(s, f).h == s.h && WithFleet(s, f).tasks == s.tasks
                         && WithFleet(s, f).nextTask == s.nextTask
                         && WithFleet(s, f).saga == s.saga && WithFleet(s, f).handling == s.handling)
    ensures forall f, q ::
      q !in {VesselArrived, VesselDocked, VesselDeparted} ==> WithFleet(s, f).queues(q) == s.queues(q)
  {
    forall f ensures WithFleet(s, f).h == s.h && WithFleet(s, f).tasks == s.tasks
      && WithFleet(s, f).nextTask == s.nextTask
      && WithFleet(s, f).saga == s.saga && WithFleet(s, f).handling == s.handling
      && forall q :: q !in {VesselArrived, VesselDocked, VesselDeparted} ==> WithFleet(s, f).queues(q) == s.queues(q)
    {
      FleetFrame(s, f);
    }
  }

  /** What a step sends to the dead letters: the message and the queue it came from. */
  function Killed(th: Thresholds, s: State, step: Step): (r: Option<(Queue, Message)>)
    requires Enabled(s, step)
  {
    match step
    case Analyse(sent) =>
      var m := s.queues(TelemetryProcessed)[0];
      if !m.Measured? || (Evaluate(th, m.reading).Some? && !sent) then Some((TelemetryProcessed, m)) else None
    case Begin(_) =>
      var m := s.queues(AlertTasks)[0];
      if !m.Alerted? || !ValidAlert(m.alert) then Some((AlertTasks, m)) else None
    case Save(saved) => if saved then None else Some((AlertTasks, Alerted(s.saga.alert)))
    case Commit(committed) => if committed then None else Some((AlertTasks, Alerted(s.saga.alert)))
    case Notify(q, i, rejected) => if rejected then Some((q, s.queues(q)[i])) else None
    case _ => None
  }

  /** Dead letters are what `Killed` says, in the history and, but for the logger, on the queue. */
  lemma KilledIs(th: Thresholds, s: State, step: Step)
    requires Enabled(s, step)
    ensures var t := Apply(th, s, step);
      var k := Killed(th, s, step);
      var ds := if k.Some? then [Dead(k.value.0, k.value.1)] else [];
      && t.h.dead == s.h.dead + ds
      && (!step.LogDead? ==> t.queues(DeadLetters) == s.queues(DeadLetters) + ds && t.h.logged == s.h.logged)
  {
    hide Evaluate, ValidAlert, AssignedUnit, Choice, Berths, WithFleet, Refusal, Event, Priority, F.Serve, F.Reserve,
      F.Release;
    StepFrames(s, step);
    assert s.h.dead + [] == s.h.dead && s.queues(DeadLetters) + [] == s.queues(DeadLetters);
  }

  lemma KilledFrom(th: Thresholds, s: State, step: Step, q: Queue)
    requires Enabled(s, step)
    ensures var k := Killed(th, s, step);
      From(Apply(th, s, step).h.dead, q)
      == if k.Some? && k.value.0 == q then From(s.h.dead, q) + multiset{k.value.1} else From(s.h.dead, q)
  {
    hide Killed, Apply, From;
    KilledIs(th, s, step);
    var k := Killed(th, s, step);
    if k.Some? {
      FromSnoc(s.h.dead, Dead(k.value.0, k.value.1), q);
      assert From(s.h.dead, q) + multiset{} == From(s.h.dead, q);
    } else {
      assert s.h.dead + [] == s.h.dead;
    }
  }

  lemma LogDeadIs(th: Thresholds, s: State, i: nat)
    requires Enabled(s, LogDead(i))
    ensures Apply(th, s, LogDead(i)) == DoLogDead(s, i) && Killed(th, s, LogDead(i)) == None
  {}

  lemma DeadStep(th: Thresholds, s: State, step: Step)
    requires DeadKept(s) && Enabled(s, step)
    ensures DeadKept(Apply(th, s, step))
  {
    hide Killed, Apply, Put, Publish;
    KilledIs(th, s, step);
    if step.LogDead? {
      LogDeadIs(th, s, step.index);
      WithoutCount(s.queues(DeadLetters), step.index);
    }
  }

  /** Steps other than these two leave the readings where they are. */
  lemma ReadingsFrame(th: Thresholds, s: State, step: Step)
    requires Enabled(s, step) && !step.Ingest? && !step.Analyse?
    ensures var t := Apply(th, s, step);
      && t.h.accepted == s.h.accepted && t.h.nominal == s.h.nominal && t.h.alarming == s.h.alarming
      && t.queues(TelemetryProcessed) == s.queues(TelemetryProcessed)
      && (Killed(th, s, step).Some? ==> Killed(th, s, step).value.0 != TelemetryProcessed)
  {
    hide Evaluate, ValidAlert, AssignedUnit, Choice, Berths, WithFleet, Refusal, Event, Priority, F.Serve, F.Reserve,
      F.Release;
    StepFrames(s, step);
  }

  lemma IngestIs(th: Thresholds, s: State, step: Step)
    requires step.Ingest?
    ensures var t := Apply(th, s, step);
      && Killed(th, s, step) == None
      && t.h.nominal == s.h.nominal && t.h.alarming == s.h.alarming
      && ((t.h.accepted == s.h.accepted && t.queues(TelemetryProcessed) == s.queues(TelemetryProcessed))
          || exists m :: (t.h.accepted == s.h.accepted + [m]
                          && t.queues(TelemetryProcessed) == s.queues(TelemetryProcessed) + [m]))
  {
    hide Refusal;
  }

  /** The head of the queue goes to exactly one of three places. */
  lemma AnalyseIs(th: Thresholds, s: State, step: Step)
    requires Enabled(s, step) && step.Analyse?
    ensures |s.queues(TelemetryProcessed)| > 0
    ensures var t, m := Apply(th, s, step), s.queues(TelemetryProcessed)[0];
      var k := Killed(th, s, step);
      && t.h.accepted == s.h.accepted
      && t.queues(TelemetryProcessed) == Without(s.queues(TelemetryProcessed), 0)
      && (|| (k == Some((TelemetryProcessed, m)) && t.h.nominal == s.h.nominal && t.h.alarming == s.h.alarming)
          || (k == None && t.h.nominal == s.h.nominal + [m] && t.h.alarming == s.h.alarming)
          || (k == None && t.h.nominal == s.h.nominal && t.h.alarming == s.h.alarming + [m]))
  {
    hide Evaluate;
  }

  lemma ReadingsStep(th: Thresholds, s: State, step: Step)
    requires ReadingsKept(s) && Enabled(s, step)
    ensures ReadingsKept(Apply(th, s, step))
  {
    hide From, Killed, Apply, Enabled, Accounted, Without;
    var t, k := Apply(th, s, step), Killed(th, s, step);
    var q, n, d := s.queues(TelemetryProcessed), multiset(s.h.nominal), From(s.h.dead, TelemetryProcessed);
    KilledFrom(th, s, step, TelemetryProcessed);
    if step.Ingest? {
      IngestIs(th, s, step);
      if m :| t.h.accepted == s.h.accepted + [m] && t.queues(TelemetryProcessed) == q + [m] {
        Arrive(s.h.accepted, q, n, s.h.alarming, d, m);
      }
    } else if step.Analyse? {
      AnalyseIs(th, s, step);
      Take(s.h.accepted, q, n, s.h.alarming, d, 0);
      Finish(s.h.accepted, Without(q, 0), n, s.h.alarming, d, q[0]);
    } else {
      ReadingsFrame(th, s, step);
    }
  }

  /** An analysis publishes to the alert queue what it records, and touches no handling. */
  lemma AlertsRaised(th: Thresholds, s: State, step: Step)
    requires Enabled(s, step) && step.Analyse?
    ensures var t, k := Apply(th, s, step), Killed(th, s, step);
      && (k.Some? ==> k.value.0 != AlertTasks)
      && t.h.handled == s.h.handled && t.saga == s.saga && t.tasks == s.tasks
      && ((t.h.published == s.h.published && t.queues(AlertTasks) == s.queues(AlertTasks))
          || exists m :: t.h.published == s.h.published + [m] && t.queues(AlertTasks) == s.queues(AlertTasks) + [m])
  {
    hide Evaluate;
  }

  /** The head of the alert queue is taken in hand or refused. */
  lemma AlertsBegun(th: Thresholds, s: State, step: Step)
    requires Enabled(s, step) && step.Begin?
    ensures |s.queues(AlertTasks)| > 0
    ensures var t, k, m := Apply(th, s, step), Killed(th, s, step), s.queues(AlertTasks)[0];
      && t.h.published == s.h.published && t.h.handled == s.h.handled && t.tasks == s.tasks && s.saga.Idle?
      && t.queues(AlertTasks) == Without(s.queues(AlertTasks), 0)
      && ((k == Some((AlertTasks, m)) && t.saga.Idle?) || (k == None && InFlight(t.saga) == multiset{m}))
  {
    hide ValidAlert, AssignedUnit;
  }

  /** The alert in hand gets its row or is refused. */
  lemma AlertsClosed(th: Thresholds, s: State, step: Step)
    requires Enabled(s, step) && step.Commit? && IdsFresh(s)
    ensures !s.saga.Idle?
    ensures var t, k, m := Apply(th, s, step), Killed(th, s, step), Alerted(s.saga.alert);
      && t.h.published == s.h.published && t.saga.Idle? && t.queues(AlertTasks) == s.queues(AlertTasks)
      && ((k == Some((AlertTasks, m)) && t.h.handled == s.h.handled && t.tasks == s.tasks)
          || (k == None && t.h.handled == s.h.handled + [m] && |t.tasks| == |s.tasks| + 1))
  {}

  /** A save that fails gives up the alert in hand; the other steps leave every alert in its place. */
  lemma AlertsFrame(th: Thresholds, s: State, step: Step)
    requires Enabled(s, step) && !step.Analyse? && !step.Begin? && !step.Commit?
    ensures var t, k := Apply(th, s, step), Killed(th, s, step);
      && t.h.published == s.h.published && t.h.handled == s.h.handled
      && t.queues(AlertTasks) == s.queues(AlertTasks)
      && ((k.Some? && k.value.0 == AlertTasks && k.value.1 == Alerted(s.saga.alert) && !s.saga.Idle? && t.saga.Idle?)
          || ((k.Some? ==> k.value.0 != AlertTasks) && InFlight(t.saga) == InFlight(s.saga)))
  {
    hide Evaluate, ValidAlert, AssignedUnit, Choice, Berths, WithFleet, Refusal, Event, Priority, F.Serve, F.Reserve,
      F.Release;
    StepFrames(s, step);
  }

  /** Only a commit adds a row, and nothing removes one. */
  lemma RowsFrame(th: Thresholds, s: State, step: Step)
    requires Enabled(s, step) && !step.Commit?
    ensures Apply(th, s, step).tasks.Keys == s.tasks.Keys && |Apply(th, s, step).tasks| == |s.tasks|
  {
    hide Evaluate, ValidAlert, AssignedUnit, Choice, Berths, WithFleet, Refusal, Event, Priority, F.Serve, F.Reserve,
      F.Release;
    StepFrames(s, step);
    var t := Apply(th, s, step);
    assert t.tasks.Keys == s.tasks.Keys;
    assert |t.tasks.Keys| == |t.tasks| && |s.tasks.Keys| == |s.tasks|;
  }

  lemma AlertsAfterAnalyse(th: Thresholds, s: State, step: Step)
    requires AlertsKept(s) && Enabled(s, step) && step.Analyse?
    ensures AlertsKept(Apply(th, s, step))
  {
    hide From, Killed, Apply, Enabled, Accounted;
    var t, q := Apply(th, s, step), s.queues(AlertTasks);
    KilledFrom(th, s, step, AlertTasks);
    AlertsRaised(th, s, step);
    if m :| t.h.published == s.h.published + [m] && t.queues(AlertTasks) == q + [m] {
      Arrive(s.h.published, q, InFlight(s.saga), s.h.handled, From(s.h.dead, AlertTasks), m);
    }
  }

  lemma AlertsAfterBegin(th: Thresholds, s: State, step: Step)
    requires AlertsKept(s) && Enabled(s, step) && step.Begin?
    ensures AlertsKept(Apply(th, s, step))
  {
    hide From, Killed, Apply, Enabled, Accounted, Without;
    var q, d := s.queues(AlertTasks), From(s.h.dead, AlertTasks);
    KilledFrom(th, s, step, AlertTasks);
    AlertsBegun(th, s, step);
    assert InFlight(s.saga) == multiset{} && multiset{} + multiset{q[0]} == multiset{q[0]};
    Take(s.h.published, q, InFlight(s.saga), s.h.handled, d, 0);
    FinishOnly(s.h.published, Without(q, 0), s.h.handled, d, q[0]);
  }

  lemma AlertsAfterCommit(th: Thresholds, s: State, step: Step)
    requires AlertsKept(s) && IdsFresh(s) && Enabled(s, step) && step.Commit?
    ensures AlertsKept(Apply(th, s, step))
  {
    hide From, Killed, Apply, IdsFresh, Enabled, Accounted;
    KilledFrom(th, s, step, AlertTasks);
    AlertsClosed(th, s, step);
    FinishOnly(s.h.published, s.queues(AlertTasks), s.h.handled, From(s.h.dead, AlertTasks), Alerted(s.saga.alert));
  }

  lemma AlertsAfterOther(th: Thresholds, s: State, step: Step)
    requires AlertsKept(s) && Enabled(s, step) && !step.Analyse? && !step.Begin? && !step.Commit?
    ensures AlertsKept(Apply(th, s, step))
  {
    hide From, Killed, Apply, Enabled, Accounted;
    var k := Killed(th, s, step);
    KilledFrom(th, s, step, AlertTasks);
    AlertsFrame(th, s, step);
    RowsFrame(th, s, step);
    if k.Some? && k.value.0 == AlertTasks {
      FinishOnly(s.h.published, s.queues(AlertTasks), s.h.handled, From(s.h.dead, AlertTasks), Alerted(s.saga.alert));
    }
  }

  lemma AlertsStep(th: Thresholds, s: State, step: Step)
    requires AlertsKept(s) && IdsFresh(s) && Enabled(s, step)
    ensures AlertsKept(Apply(th, s, step))
  {
    hide AlertsKept, Apply, IdsFresh, Enabled;
    if step.Analyse? {
      AlertsAfterAnalyse(th, s, step);
    } else if step.Begin? {
      AlertsAfterBegin(th, s, step);
    } else if step.Commit? {
      AlertsAfterCommit(th, s, step);
    } else {
      AlertsAfterOther(th, s, step);
    }
  }

  lemma UnreadStep(th: Thresholds, s: State, step: Step)
    requires UnreadKept(s) && Enabled(s, step)
    ensures UnreadKept(Apply(th, s, step))
  {
    hide Evaluate, ValidAlert, AssignedUnit, Choice, Berths, WithFleet, Refusal, Event, Priority, F.Serve, F.Reserve,
      F.Release;
    StepFrames(s, step);
  }

  lemma IdsStep(th: Thresholds, s: State, step: Step)
    requires IdsFresh(s) && Enabled(s, step)
    ensures IdsFresh(Apply(th, s, step))
  {
    hide Evaluate, ValidAlert, AssignedUnit, Choice, Berths, WithFleet, Refusal, Event, Priority, F.Serve, F.Reserve,
      F.Release;
    StepFrames(s, step);
  }

  lemma AlertsOfStep(th: Thresholds, s: State, step: Step)
    requires AlertsOfReadings(th, s) && Enabled(s, step)
    ensures AlertsOfReadings(th, Apply(th, s, step))
  {
    hide Evaluate, ValidAlert, AssignedUnit, Choice, Berths, WithFleet, Refusal, Event, Priority, F.Serve, F.Reserve,
      F.Release;
    StepFrames(s, step);
  }
}
