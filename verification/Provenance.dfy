/** Where a task row comes from. */
module Provenance {
  import opened Options
  import opened Telemetry
  import opened Rules
  import opened Port
  import opened Conservation
  import opened Tasks
  import F = Fleet

  /** A reading that passed the checks of the telemetry service. */
  ghost predicate Accepted(e: Reading) {
    exists p, header, newId :: Refusal(p) == None && e == Event(p, header, newId)
  }

  /** The task an alert asks for. */
  predicate Describes(a: Alert, t: Task) {
    && t.sector == a.sector && t.alertType == a.alertType && t.correlationId == a.correlationId
    && t.priority == Priority(a.severity)
    && UnitName(UnitOf(a)) <= t.unit
  }

  /** Rows and handled alerts match one to one, in order. */
  ghost predicate RowsMatch(s: State) {
    && |s.h.rows| == |s.h.handled|
    && (forall i, j :: 0 <= i < j < |s.h.rows| ==> s.h.rows[i] != s.h.rows[j])
    && (forall id :: id in s.tasks <==> id in s.h.rows)
    && (forall i :: 0 <= i < |s.h.rows| ==>
          && s.h.handled[i].Alerted? && ValidAlert(s.h.handled[i].alert)
          && Describes(s.h.handled[i].alert, s.tasks[s.h.rows[i]]))
  }

  predicate SagaMatches(saga: Saga) {
    match saga
    case Idle => true
    case Listed(a, unit, _) => ValidAlert(a) && UnitName(UnitOf(a)) <= unit
    case Reserved(a, unit, _) => ValidAlert(a) && UnitName(UnitOf(a)) <= unit
    case Saved(a, _, task, _) => ValidAlert(a) && Describes(a, task)
    case Releasing(a, _, task, _) => ValidAlert(a) && Describes(a, task)
    case Reporting(a, _, task) => ValidAlert(a) && Describes(a, task)
    case Closing(a, _, task) => ValidAlert(a) && Describes(a, task)
  }

  ghost predicate ReadingsAccepted(s: State) {
    forall m :: m in s.h.accepted ==> m.Measured? && Accepted(m.reading)
  }

  ghost predicate Traced(s: State) { RowsMatch(s) && SagaMatches(s.saga) && ReadingsAccepted(s) }

  lemma SagaStep(th: Thresholds, s: State, step: Step)
    requires SagaMatches(s.saga) && Enabled(s, step)
    ensures SagaMatches(Apply(th, s, step).saga)
  {
    hide Evaluate, ValidAlert, UnitName, UnitOf, FirstBerth, Choice, Berths, WithFleet, Refusal, Event, Priority,
      F.Serve, F.Reserve, F.Release;
    StepFrames(s, step);
  }

  lemma AcceptedSame(s: State, t: State)
    requires ReadingsAccepted(s) && t.h.accepted == s.h.accepted
    ensures ReadingsAccepted(t)
  {
    hide Accepted;
  }

  lemma AcceptedIngest(s: State, p: Payload, header: string, newId: string, sent: bool)
    requires ReadingsAccepted(s)
    ensures ReadingsAccepted(DoIngest(s, p, header, newId, sent))
  {
    hide Refusal, Event;
    RefusalIff(p);
    if Refusal(p) == None && sent {
      var m := Measured(Event(p, header, newId));
      assert Accepted(m.reading);
      hide Accepted;
      assert DoIngest(s, p, header, newId, sent).h.accepted == s.h.accepted + [m];
    }
  }

  lemma AcceptedFrame(th: Thresholds, s: State, step: Step)
    requires Enabled(s, step) && !step.Ingest?
    ensures Apply(th, s, step).h.accepted == s.h.accepted
  {
    hide Evaluate, ValidAlert, AssignedUnit, Choice, Berths, WithFleet, Refusal, Event, Priority, F.Serve, F.Reserve,
      F.Release;
    StepFrames(s, step);
  }

  lemma AcceptedStep(th: Thresholds, s: State, step: Step)
    requires ReadingsAccepted(s) && Enabled(s, step)
    ensures ReadingsAccepted(Apply(th, s, step))
  {
    hide ReadingsAccepted;
    if step.Ingest? {
      AcceptedIngest(s, step.payload, step.header, step.newId, step.sent);
    } else {
      hide Apply, Enabled;
      AcceptedFrame(th, s, step);
      AcceptedSame(s, Apply(th, s, step));
    }
  }

  lemma RowsCommit(s: State, committed: bool)
    requires RowsMatch(s) && SagaMatches(s.saga) && IdsFresh(s) && s.saga.Closing?
    ensures RowsMatch(DoCommit(s, committed))
  {
    hide ValidAlert, Describes;
    var t := DoCommit(s, committed);
    if committed {
      assert s.saga.id !in s.h.rows;
      assert t.h.rows == s.h.rows + [s.saga.id] && t.h.handled == s.h.handled + [Alerted(s.saga.alert)];
      forall i | 0 <= i < |t.h.rows|
        ensures t.h.handled[i].Alerted? && ValidAlert(t.h.handled[i].alert)
        ensures Describes(t.h.handled[i].alert, t.tasks[t.h.rows[i]])
      {
        if i < |s.h.rows| {
          assert s.h.rows[i] in s.tasks;
        }
      }
    }
  }

  lemma RowsSame(s: State, t: State)
    requires RowsMatch(s) && Later(s, t) && t.tasks.Keys == s.tasks.Keys
    requires t.h.handled == s.h.handled && t.h.rows == s.h.rows
    ensures RowsMatch(t)
  {
    hide ValidAlert, Priority, UnitName, UnitOf;
    forall i | 0 <= i < |t.h.rows|
      ensures Describes(t.h.handled[i].alert, t.tasks[t.h.rows[i]])
    {
      assert s.h.rows[i] in s.tasks;
    }
  }

  lemma HandledFrame(th: Thresholds, s: State, step: Step)
    requires Enabled(s, step) && !step.Commit?
    ensures Apply(th, s, step).h.handled == s.h.handled && Apply(th, s, step).h.rows == s.h.rows
  {
    hide Evaluate, ValidAlert, AssignedUnit, Choice, Berths, WithFleet, Refusal, Event, Priority, F.Serve, F.Reserve,
      F.Release;
    StepFrames(s, step);
  }

  lemma RowsStep(th: Thresholds, s: State, step: Step)
    requires RowsMatch(s) && SagaMatches(s.saga) && IdsFresh(s) && Enabled(s, step)
    ensures RowsMatch(Apply(th, s, step))
  {
    hide RowsMatch, SagaMatches, IdsFresh, Later;
    if step.Commit? {
      RowsCommit(s, step.committed);
    } else {
      hide Apply, Enabled;
      RowsFrame(th, s, step);
      LaterStep(th, s, step);
      HandledFrame(th, s, step);
      RowsSame(s, Apply(th, s, step));
    }
  }

  lemma TracedStep(th: Thresholds, s: State, step: Step)
    requires Traced(s) && IdsFresh(s) && Enabled(s, step)
    ensures Traced(Apply(th, s, step))
  {
    hide RowsMatch, SagaMatches, ReadingsAccepted, Apply, Enabled, IdsFresh;
    RowsStep(th, s, step);
    SagaStep(th, s, step);
    AcceptedStep(th, s, step);
  }

  lemma DescribesReading(th: Thresholds, e: Reading, t: Task)
    requires Evaluate(th, e).Some? && Describes(Evaluate(th, e).value, t)
    ensures t.correlationId == e.correlationId && t.sector == e.sector
  {
    hide Evaluate, Priority, UnitName, UnitOf;
    AlertOf(th, e);
  }

  /** Every row stems from an accepted reading whose evaluation is the alert the row describes. */
  lemma RowTraced(th: Thresholds, s: State, id: TaskId)
    requires Traced(s) && ReadingsKept(s) && AlertsKept(s) && AlertsOfReadings(th, s) && id in s.tasks
    ensures exists e: Reading ::
      && Measured(e) in s.h.accepted && Accepted(e)
      && s.tasks[id].correlationId == e.correlationId && s.tasks[id].sector == e.sector
      && Evaluate(th, e).Some? && ValidAlert(Evaluate(th, e).value) && Describes(Evaluate(th, e).value, s.tasks[id])
  {
    hide From, Evaluate, ValidAlert, Describes, Accepted, InFlight;
    var i :| 0 <= i < |s.h.rows| && s.h.rows[i] == id;
    assert s.h.handled[i] in multiset(s.h.handled);
    assert s.h.handled[i] in multiset(s.h.published);
    var j :| 0 <= j < |s.h.published| && s.h.published[j] == s.h.handled[i];
    assert s.h.alarming[j] in multiset(s.h.alarming);
    assert s.h.alarming[j] in multiset(s.h.accepted);
    assert s.h.alarming[j] == Measured(s.h.alarming[j].reading);
    DescribesReading(th, s.h.alarming[j].reading, s.tasks[id]);
  }
}
