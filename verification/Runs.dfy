/** The theorems about whole runs: any legal sequence of steps, of any length, in any interleaving. */
module Runs {
  import opened Options
  import opened Broker
  import opened Telemetry
  import opened Rules
  import opened Port
  import opened Conservation
  import opened Reservations
  import opened Tasks
  import opened Provenance
  import F = Fleet

  ghost predicate Invariant(th: Thresholds, s: State) {
    && ReadingsKept(s) && AlertsKept(s) && UnreadKept(s) && DeadKept(s) && IdsFresh(s) && AlertsOfReadings(th, s)
    && HoldsKept(s) && HeldKnown(s)
    && TasksTold(s) && EventsTrue(s)
    && Traced(s)
  }

  lemma InvariantAtRest(th: Thresholds, f: F.Fleet)
    ensures Invariant(th, AtRest(f))
  {}

  lemma InvariantStep(th: Thresholds, s: State, step: Step)
    requires Invariant(th, s) && Enabled(s, step)
    ensures Invariant(th, Apply(th, s, step))
  {
    hide Apply, Enabled, ReadingsKept, AlertsKept, UnreadKept, DeadKept, IdsFresh, AlertsOfReadings, HoldsKept,
      HeldKnown, TasksTold, EventsTrue, Traced;
    ReadingsStep(th, s, step);
    AlertsStep(th, s, step);
    UnreadStep(th, s, step);
    DeadStep(th, s, step);
    IdsStep(th, s, step);
    AlertsOfStep(th, s, step);
    HoldsStep(th, s, step);
    KnownStep(th, s, step);
    TasksStep(th, s, step);
    EventsStep(th, s, step);
    TracedStep(th, s, step);
  }

  lemma {:induction false} InvariantRun(th: Thresholds, s: State, steps: seq<Step>)
    requires Invariant(th, s) && Legal(th, s, steps)
    ensures Invariant(th, After(th, s, steps))
    decreases |steps|
  {
    hide Invariant, Apply, Enabled;
    if steps != [] {
      InvariantStep(th, s, steps[0]);
      InvariantRun(th, Apply(th, s, steps[0]), steps[1..]);
    }
  }

  /** Any state a system can get into that started at rest. */
  lemma Reachable(th: Thresholds, f: F.Fleet, steps: seq<Step>)
    requires Legal(th, AtRest(f), steps)
    ensures Invariant(th, After(th, AtRest(f), steps))
  {
    hide Invariant, Legal, After;
    InvariantAtRest(th, f);
    InvariantRun(th, AtRest(f), steps);
  }

  // ------------------------------------------------------------------------ conservation

  lemma Sizes(all: seq<Message>, waiting: seq<Message>, held: multiset<Message>, done: seq<Message>,
              dead: multiset<Message>)
    requires Accounted(all, waiting, held, done, dead)
    ensures |all| == |waiting| + |held| + |done| + |dead|
  {
    assert |multiset(all)| == |multiset(waiting) + held + multiset(done) + dead|;
  }

  /** Nothing is lost or doubled, in numbers. */
  lemma RunConserves(th: Thresholds, f: F.Fleet, steps: seq<Step>)
    requires Legal(th, AtRest(f), steps)
    ensures var s := After(th, AtRest(f), steps);
      && |s.h.accepted| == |s.queues(TelemetryProcessed)| + |s.h.nominal| + |s.h.published|
                           + |From(s.h.dead, TelemetryProcessed)|
      && |s.h.published| == |s.queues(AlertTasks)| + (if s.saga.Idle? then 0 else 1) + |s.tasks|
                            + |From(s.h.dead, AlertTasks)|
      && |s.h.published| == |s.queues(CongestionAlert)|
      && |s.h.dead| == |s.queues(DeadLetters)| + |s.h.logged|
  {
    hide Legal, After, From, TasksTold, EventsTrue, Traced, HoldsKept, HeldKnown, IdsFresh;
    Reachable(th, f, steps);
    var s := After(th, AtRest(f), steps);
    Sizes(s.h.accepted, s.queues(TelemetryProcessed), multiset(s.h.nominal), s.h.alarming,
          From(s.h.dead, TelemetryProcessed));
    Sizes(s.h.published, s.queues(AlertTasks), InFlight(s.saga), s.h.handled, From(s.h.dead, AlertTasks));
    assert |multiset(s.h.dead)| == |multiset(s.queues(DeadLetters)) + multiset(s.h.logged)|;
  }

  // ------------------------------------------------------------------------ reservations

  /** Every acknowledged reservation belongs to its own handling and is settled in one way only. */
  lemma RunReserves(th: Thresholds, f: F.Fleet, steps: seq<Step>)
    requires Legal(th, AtRest(f), steps)
    ensures var s := After(th, AtRest(f), steps);
      && Settled(s.h.acked, s.h.kept, s.h.released, s.h.leaked, InHand(s))
      && |s.h.acked| == |s.h.kept| + |s.h.released| + |s.h.leaked| + |InHand(s)|
      && (forall i, j :: 0 <= i < j < |s.h.acked| ==> s.h.acked[i].handling != s.h.acked[j].handling)
      && (forall x :: x in s.h.acked ==> x.vessel in s.fleet.rows)
  {
    hide Legal, After, InHand, ReadingsKept, AlertsKept, UnreadKept, DeadKept, AlertsOfReadings, TasksTold, EventsTrue,
      Traced, IdsFresh;
    Reachable(th, f, steps);
    var s := After(th, AtRest(f), steps);
    assert |multiset(s.h.acked)|
        == |multiset(s.h.kept) + multiset(s.h.released) + multiset(s.h.leaked) + multiset(InHand(s))|;
  }

  /** In a run, the compensating release takes effect exactly when its call arrives, the broker
      takes the event and the commit succeeds. */
  lemma RunReleases(th: Thresholds, f: F.Fleet, steps: seq<Step>, arrives: bool, fate: F.Fate)
    requires Legal(th, AtRest(f), steps) && After(th, AtRest(f), steps).saga.Releasing?
    ensures var s := After(th, AtRest(f), steps);
      var t, v := Apply(th, s, Release(arrives, fate)), s.saga.vessel;
      && v in s.fleet.rows
      && t.fleet.rows == (if arrives && fate.broker && fate.commit
                          then s.fleet.rows[v := s.fleet.rows[v].(status := F.Arriving, berth := None)]
                          else s.fleet.rows)
      && (t.queues(VesselArrived) != s.queues(VesselArrived) <==> arrives && fate.broker)
  {
    hide Legal, After, DoRelease, ReadingsKept, AlertsKept, UnreadKept, DeadKept, AlertsOfReadings, TasksTold,
      EventsTrue, Traced, IdsFresh;
    Reachable(th, f, steps);
    var s := After(th, AtRest(f), steps);
    var x := Hold(s.handling, s.saga.vessel);
    assert x in multiset(InHand(s));
    assert x in multiset(s.h.acked);
    ReleaseEffect(s, arrives, fate);
  }

  predicate Undisturbed(steps: seq<Step>) { forall step :: step in steps ==> !step.Client? }

  lemma {:induction false} DrainingRun(first: set<F.VesselId>, th: Thresholds, s: State, steps: seq<Step>)
    requires Draining(first, s) && Legal(th, s, steps) && Undisturbed(steps)
    ensures Draining(first, After(th, s, steps))
    ensures Candidates(After(th, s, steps).fleet) <= Candidates(s.fleet)
    decreases |steps|
  {
    hide Draining, Candidates, Apply, Enabled;
    if steps != [] {
      DrainingStep(first, th, s, steps[0]);
      DrainingRun(first, th, Apply(th, s, steps[0]), steps[1..]);
    }
  }

  lemma {:induction false} Pigeonhole(xs: seq<F.VesselId>, within: set<F.VesselId>)
    requires forall x :: x in xs ==> x in within
    requires forall i, j :: 0 <= i < j < |xs| ==> xs[i] != xs[j]
    ensures |xs| <= |within|
    decreases |xs|
  {
    if xs != [] {
      var last := xs[|xs| - 1];
      Pigeonhole(xs[..|xs| - 1], within - {last});
    }
  }

  /** With no requests but those of `handleAlert`, whatever fails: a vessel is reserved at most once,
      the supply of candidates never grows, and it bounds the reservations. */
  lemma RunDrains(th: Thresholds, f: F.Fleet, steps: seq<Step>)
    requires Legal(th, AtRest(f), steps) && Undisturbed(steps)
    ensures var s := After(th, AtRest(f), steps);
      && (forall i, j :: 0 <= i < j < |s.h.effective| ==> s.h.effective[i] != s.h.effective[j])
      && |s.h.effective| <= |Candidates(f)| - |Candidates(s.fleet)|
      && Candidates(s.fleet) <= Candidates(f)
  {
    hide Legal, After, Candidates;
    DrainingRun(Candidates(f), th, AtRest(f), steps);
    var s := After(th, AtRest(f), steps);
    Pigeonhole(s.h.effective, Candidates(f) - Candidates(s.fleet));
  }

  // ------------------------------------------------------------------------------- tasks

  /** A row and its events: pending rows were announced once, failed rows never and reported at most
      once; a completion time marks the completed; no row is ever in progress. */
  lemma RunTells(th: Thresholds, f: F.Fleet, steps: seq<Step>, id: TaskId)
    requires Legal(th, AtRest(f), steps) && id in After(th, AtRest(f), steps).tasks
    ensures var s := After(th, AtRest(f), steps);
      var row, created, aborted := s.tasks[id], Count(s.h.created, id), Count(s.h.aborted, id);
      && row.status != InProgress
      && (row.status == Pending ==> created == 1 && aborted == 0)
      && (row.status == Failed ==> created == 0 && aborted <= 1)
      && ((created == 1 && aborted == 0) || (created == 0 && aborted <= 1))
      && (row.completedAt.Some? <==> row.status == Completed)
      && (forall m :: m in s.h.created + s.h.aborted && (m.Created? || m.Aborted?) && m.id == id ==>
            Order(m.task) == Order(row))
  {
    hide Legal, After, Count, Order, ReadingsKept, AlertsKept, UnreadKept, DeadKept, AlertsOfReadings, HoldsKept,
      HeldKnown, Traced, IdsFresh;
    Reachable(th, f, steps);
  }

  lemma {:induction false} LaterRun(th: Thresholds, s: State, steps: seq<Step>)
    requires Invariant(th, s) && Legal(th, s, steps)
    ensures Later(s, After(th, s, steps))
    decreases |steps|
  {
    hide Order, Apply, Enabled, ReadingsKept, AlertsKept, UnreadKept, DeadKept, AlertsOfReadings, HoldsKept, HeldKnown,
      TasksTold, EventsTrue, Traced;
    if steps != [] {
      LaterStep(th, s, steps[0]);
      InvariantStep(th, s, steps[0]);
      LaterRun(th, Apply(th, s, steps[0]), steps[1..]);
    }
  }

  /** From any moment of a run to any later one: no row is lost or rewritten, completion is for good. */
  lemma RunForward(th: Thresholds, f: F.Fleet, steps: seq<Step>, more: seq<Step>, id: TaskId)
    requires Legal(th, AtRest(f), steps) && Legal(th, After(th, AtRest(f), steps), more)
    requires id in After(th, AtRest(f), steps).tasks
    ensures var s, t := After(th, AtRest(f), steps), After(th, After(th, AtRest(f), steps), more);
      && id in t.tasks && Order(t.tasks[id]) == Order(s.tasks[id])
      && (s.tasks[id].status == Completed ==> t.tasks[id].status == Completed)
      && (t.tasks[id].status != s.tasks[id].status ==> t.tasks[id].status == Completed)
  {
    hide Legal, After, Order, Invariant;
    Reachable(th, f, steps);
    LaterRun(th, After(th, AtRest(f), steps), more);
  }

  // -------------------------------------------------------------------------- provenance

  /** Rows and handled alerts match one to one, and behind every row is an accepted reading. */
  lemma RunTraces(th: Thresholds, f: F.Fleet, steps: seq<Step>, id: TaskId)
    requires Legal(th, AtRest(f), steps) && id in After(th, AtRest(f), steps).tasks
    ensures var s := After(th, AtRest(f), steps);
      && RowsMatch(s)
      && exists e: Reading ::
           && Measured(e) in s.h.accepted && Accepted(e)
           && s.tasks[id].correlationId == e.correlationId && s.tasks[id].sector == e.sector
           && Evaluate(th, e).Some? && ValidAlert(Evaluate(th, e).value)
           && Describes(Evaluate(th, e).value, s.tasks[id])
  {
    hide Legal, After, Evaluate, ValidAlert, Describes, Accepted, RowsMatch, SagaMatches, ReadingsAccepted,
      ReadingsKept, AlertsKept, UnreadKept, DeadKept, AlertsOfReadings, HoldsKept, HeldKnown, TasksTold, EventsTrue,
      IdsFresh;
    Reachable(th, f, steps);
    RowTraced(th, After(th, AtRest(f), steps), id);
  }

  // --------------------------------------------------------------------------- lifecycle

  /** The requests the vessel service serves in a run. */
  function Requests(th: Thresholds, s: State, steps: seq<Step>): seq<(F.Request, F.Fate)>
    requires Legal(th, s, steps)
    decreases |steps|
  {
    if steps == [] then [] else RequestsOf(s, steps[0]) + Requests(th, Apply(th, s, steps[0]), steps[1..])
  }

  /** Seen from the vessel service, a run of the whole machine is the run of its requests. */
  lemma {:induction false} RunServes(th: Thresholds, s: State, steps: seq<Step>)
    requires Legal(th, s, steps)
    ensures After(th, s, steps).fleet == F.ServeAll(s.fleet, Requests(th, s, steps))
    decreases |steps|
  {
    hide F.Serve, Apply, Enabled, RequestsOf;
    if steps != [] {
      var now, later := RequestsOf(s, steps[0]), Requests(th, Apply(th, s, steps[0]), steps[1..]);
      FleetServed(th, s, steps[0]);
      RunServes(th, Apply(th, s, steps[0]), steps[1..]);
      F.ServeAllConcat(s.fleet, now, later);
      if now != [] {
        assert now[1..] == [];
      }
    }
  }

  lemma RunAnnounces(th: Thresholds, s: State, steps: seq<Step>)
    requires F.UniqueImo(s.fleet) && F.Announced(s.fleet) && Legal(th, s, steps)
    ensures F.UniqueImo(After(th, s, steps).fleet) && F.Announced(After(th, s, steps).fleet)
  {
    hide F.UniqueImo, F.Announced, F.ServeAll, Legal, After, Requests;
    RunServes(th, s, steps);
    F.ServeAllKeeps(s.fleet, Requests(th, s, steps));
  }

  /** In any run: a vessel was last heard of as what it is if and only if no request misled about it,
      or a later one set it right. */
  lemma RunHears(th: Thresholds, s: State, steps: seq<Step>, id: F.VesselId)
    requires F.UniqueImo(s.fleet) && F.Announced(s.fleet) && F.Heard(s.fleet, id) && Legal(th, s, steps)
    ensures var rs := Requests(th, s, steps);
      F.Heard(After(th, s, steps).fleet, id) <==> !exists k :: 0 <= k < |rs| && F.MisledBy(s.fleet, rs, id, k)
  {
    hide F.UniqueImo, F.Announced, F.Heard, F.MisledBy, F.ServeAll, Legal, After, Requests;
    RunServes(th, s, steps);
    F.HeardIff(s.fleet, Requests(th, s, steps), id);
  }

  lemma Silent()
    ensures !F.Emits(F.Berthed) && F.Emits(F.Arriving)
  {}

  /** Of the steps of a handling, only the compensating release can mislead, and only about a vessel
      that somebody else has announced again in the meantime. */
  lemma StepMisleads(th: Thresholds, s: State, step: Step, id: F.VesselId)
    requires Enabled(s, step) && F.Announced(s.fleet) && F.Heard(s.fleet, id) && !step.Client?
    ensures !F.Heard(Apply(th, s, step).fleet, id) <==>
      && step.Release? && step.arrives && step.fate.broker && !step.fate.commit
      && id == s.saga.vessel && id in s.fleet.rows && F.Emits(s.fleet.rows[id].status)
      && !(s.fleet.rows[id].status == F.Arriving && s.fleet.rows[id].berth == None)
  {
    hide F.Announced, F.Heard, F.Serve, Apply, F.RoutingKey;
    FleetServed(th, s, step);
    var rs := RequestsOf(s, step);
    if rs != [] {
      F.HeardStep(s.fleet, rs[0].0, rs[0].1, id);
    }
    Silent();
  }
}
