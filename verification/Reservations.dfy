/** What becomes of reservations, and which of them a compensation gives back. */
module Reservations {
  import opened Options
  import opened Broker
  import opened Telemetry
  import opened Rules
  import opened Port
  import opened Conservation
  import F = Fleet
  import V = Vessels
  import B = Blank

  // ----------------------------------------------------------------------- accounting

  /** The acknowledged reservation of the handling in progress, until its fate is settled. */
  function InHand(s: State): seq<Hold> {
    match s.saga
    case Reserved(_, _, held) => Holds(s, held)
    case Saved(_, _, _, held) => Holds(s, held)
    case Releasing(_, _, _, v) => [Hold(s.handling, v)]
    case _ => []
  }

  predicate Settled(acked: seq<Hold>, kept: seq<Hold>, released: seq<Hold>, leaked: seq<Hold>, hand: seq<Hold>) {
    multiset(acked) == multiset(kept) + multiset(released) + multiset(leaked) + multiset(hand)
  }

  lemma SettleHand(acked: seq<Hold>, kept: seq<Hold>, released: seq<Hold>, leaked: seq<Hold>, hand: seq<Hold>)
    requires Settled(acked, kept, released, leaked, hand)
    ensures Settled(acked, kept + hand, released, leaked, [])
    ensures Settled(acked, kept, released + hand, leaked, [])
    ensures Settled(acked, kept, released, leaked + hand, [])
  {}

  lemma TakeInHand(acked: seq<Hold>, kept: seq<Hold>, released: seq<Hold>, leaked: seq<Hold>, x: Hold)
    requires Settled(acked, kept, released, leaked, [])
    ensures Settled(acked + [x], kept, released, leaked, [x])
  {}

  /** Acknowledged reservations are kept, given up, leaked or in hand, and no handling has two. */
  predicate HoldsKept(s: State) {
    && Settled(s.h.acked, s.h.kept, s.h.released, s.h.leaked, InHand(s))
    && (forall i, j :: 0 <= i < j < |s.h.acked| ==> s.h.acked[i].handling < s.h.acked[j].handling)
    && (forall x :: x in s.h.acked ==> if s.saga.Listed? then x.handling < s.handling else x.handling <= s.handling)
  }

  /** The steps that settle a reservation, and what they do to the five lists. */
  datatype Move = Stay | Ack(hold: Hold) | Keep | GiveUp | Leak

  function MoveOf(s: State, step: Step): Move
    requires Enabled(s, step)
  {
    match step
    case Reserve(call) =>
      if call == DoneSeen && s.saga.choice.Some? && s.saga.choice.value.0 in s.fleet.rows
      then Ack(Hold(s.handling, s.saga.choice.value.0)) else Stay
    case Save(saved) => if saved then Stay else Leak
    case PublishCreated(sent) => if sent then Keep else Stay
    case Release(_, _) => GiveUp
    case _ => Stay
  }

  lemma MoveOwn(th: Thresholds, s: State, step: Step)
    requires Enabled(s, step) && (step.Reserve? || step.Save? || step.PublishCreated? || step.Release?)
    ensures var t, m := Apply(th, s, step), MoveOf(s, step);
      && t.h.acked == (if m.Ack? then s.h.acked + [m.hold] else s.h.acked)
      && t.h.kept == (if m.Keep? then s.h.kept + InHand(s) else s.h.kept)
      && t.h.released == (if m.GiveUp? then s.h.released + InHand(s) else s.h.released)
      && t.h.leaked == (if m.Leak? then s.h.leaked + InHand(s) else s.h.leaked)
      && InHand(t) == (if m.Stay? then InHand(s) else if m.Ack? then [m.hold] else [])
      && (m.Ack? ==> InHand(s) == [] && s.saga.Listed? && !t.saga.Listed? && m.hold.handling == s.handling)
      && t.handling == (if step.Begin? then s.handling + 1 else s.handling)
      && (t.saga.Listed? ==> s.saga.Listed? || step.Begin?)
  {
    hide Evaluate, ValidAlert, AssignedUnit, Choice, Berths, WithFleet, Refusal, Event, Priority, F.Serve, F.Reserve,
      F.Release;
    StepFrames(s, step);
  }

  lemma MoveNone(th: Thresholds, s: State, step: Step)
    requires Enabled(s, step) && !(step.Reserve? || step.Save? || step.PublishCreated? || step.Release?)
    ensures var t := Apply(th, s, step);
      && MoveOf(s, step) == Stay
      && t.h.acked == s.h.acked && t.h.kept == s.h.kept && t.h.released == s.h.released && t.h.leaked == s.h.leaked
      && InHand(t) == InHand(s)
      && t.handling == (if step.Begin? then s.handling + 1 else s.handling)
      && (t.saga.Listed? ==> s.saga.Listed? || step.Begin?)
  {
    hide Evaluate, ValidAlert, AssignedUnit, Choice, Berths, WithFleet, Refusal, Event, Priority, F.Serve, F.Reserve,
      F.Release;
    StepFrames(s, step);
  }

  lemma MoveIs(th: Thresholds, s: State, step: Step)
    requires Enabled(s, step)
    ensures var t, m := Apply(th, s, step), MoveOf(s, step);
      && t.h.acked == (if m.Ack? then s.h.acked + [m.hold] else s.h.acked)
      && t.h.kept == (if m.Keep? then s.h.kept + InHand(s) else s.h.kept)
      && t.h.released == (if m.GiveUp? then s.h.released + InHand(s) else s.h.released)
      && t.h.leaked == (if m.Leak? then s.h.leaked + InHand(s) else s.h.leaked)
      && InHand(t) == (if m.Stay? then InHand(s) else if m.Ack? then [m.hold] else [])
      && (m.Ack? ==> InHand(s) == [] && s.saga.Listed? && !t.saga.Listed? && m.hold.handling == s.handling)
      && t.handling == (if step.Begin? then s.handling + 1 else s.handling)
      && (t.saga.Listed? ==> s.saga.Listed? || step.Begin?)
  {
    hide Apply, Enabled, MoveOf, InHand;
    if step.Reserve? || step.Save? || step.PublishCreated? || step.Release? {
      MoveOwn(th, s, step);
    } else {
      MoveNone(th, s, step);
    }
  }

  lemma HoldsStep(th: Thresholds, s: State, step: Step)
    requires HoldsKept(s) && Enabled(s, step)
    ensures HoldsKept(Apply(th, s, step))
  {
    hide Apply, Enabled, MoveOf, InHand, Settled;
    MoveIs(th, s, step);
    match MoveOf(s, step)
    case Stay =>
    case Ack(x) => TakeInHand(s.h.acked, s.h.kept, s.h.released, s.h.leaked, x);
    case _ => SettleHand(s.h.acked, s.h.kept, s.h.released, s.h.leaked, InHand(s));
  }

  /** The request a step sends to the vessel service, if one arrives there. */
  function RequestsOf(s: State, step: Step): seq<(F.Request, F.Fate)>
    requires Enabled(s, step)
  {
    match step
    case Client(request, fate) => [(request, fate)]
    case Reserve(call) =>
      if s.saga.choice.Some? && call != NotDone && s.saga.choice.value.0 in s.fleet.rows
      then [(F.ReserveReq(s.saga.choice.value.0, s.saga.choice.value.1), F.Fate(true, true))] else []
    case Release(arrives, fate) => if arrives then [(F.ReleaseReq(s.saga.vessel), fate)] else []
    case _ => []
  }

  /** The other steps leave the vessel table alone. */
  lemma VesselsFrame(th: Thresholds, s: State, step: Step)
    requires Enabled(s, step) && !step.Reserve? && !step.Release? && !step.Client?
    ensures var t := Apply(th, s, step);
      t.fleet == s.fleet && t.h.effective == s.h.effective && (t.saga.Listed? ==> step.Begin? || t.saga == s.saga)
  {
    hide Evaluate, ValidAlert, AssignedUnit, Choice, Berths, WithFleet, Refusal, Event, Priority, F.Serve, F.Reserve,
      F.Release;
    StepFrames(s, step);
  }

  lemma FleetUntouched(th: Thresholds, s: State, step: Step)
    requires Enabled(s, step) && !step.Reserve? && !step.Release? && !step.Client?
    ensures Apply(th, s, step).fleet == s.fleet && RequestsOf(s, step) == []
  {
    hide Apply, Enabled;
    VesselsFrame(th, s, step);
  }

  /** Every change of the vessel table is a request served. */
  lemma FleetServed(th: Thresholds, s: State, step: Step)
    requires Enabled(s, step)
    ensures |RequestsOf(s, step)| <= 1
    ensures var rs := RequestsOf(s, step);
      Apply(th, s, step).fleet == if rs == [] then s.fleet else F.Serve(s.fleet, rs[0].0, rs[0].1).0
  {
    hide F.Transact, WithFleet;
    if step.Client? {
      FleetFrame(s, F.Serve(s.fleet, step.request, step.fate).0);
    } else if step.Reserve? {
      if s.saga.choice.Some? {
        FleetFrame(s, F.Reserve(s.fleet, s.saga.choice.value.0, s.saga.choice.value.1, F.Fate(true, true)).0);
      }
    } else if step.Release? {
      FleetFrame(s, F.Release(s.fleet, s.saga.vessel, step.fate).0);
    } else {
      FleetUntouched(th, s, step);
    }
  }

  /** The vessels held exist: no row is ever deleted. */
  predicate HeldKnown(s: State) { forall x :: x in s.h.acked ==> x.vessel in s.fleet.rows }

  lemma ServeGrows(f: F.Fleet, r: F.Request, fate: F.Fate)
    ensures f.rows.Keys <= F.Serve(f, r, fate).0.rows.Keys
  {
    hide F.Serve;
    F.ServeEffect(f, r, fate);
  }

  lemma AckKnown(th: Thresholds, s: State, step: Step)
    requires Enabled(s, step)
    ensures MoveOf(s, step).Ack? ==> MoveOf(s, step).hold.vessel in s.fleet.rows
  {}

  lemma KnownStep(th: Thresholds, s: State, step: Step)
    requires HeldKnown(s) && Enabled(s, step)
    ensures HeldKnown(Apply(th, s, step))
  {
    hide Apply, Enabled, F.Serve;
    hide RequestsOf;
    FleetServed(th, s, step);
    MoveIs(th, s, step);
    AckKnown(th, s, step);
    var rs := RequestsOf(s, step);
    if rs != [] {
      ServeGrows(s.fleet, rs[0].0, rs[0].1);
    }
  }

  // ----------------------------------------------------------------------- compensation

  /** A release takes effect exactly when its call arrives, the broker takes the event and the
      commit succeeds; and then the vessel is back among the arriving ones, but without its berth. */
  lemma ReleaseEffect(s: State, arrives: bool, fate: F.Fate)
    requires s.saga.Releasing? && s.saga.vessel in s.fleet.rows
    ensures var t, v := DoRelease(s, arrives, fate), s.saga.vessel;
      && t.fleet.rows == (if arrives && fate.broker && fate.commit
                          then s.fleet.rows[v := s.fleet.rows[v].(status := F.Arriving, berth := None)]
                          else s.fleet.rows)
      && (t.queues(VesselArrived) != s.queues(VesselArrived) <==> arrives && fate.broker)
  {
    var t, v := DoRelease(s, arrives, fate), s.saga.vessel;
    var e := Lifecycle(F.EventOf(v, s.fleet.rows[v].(status := F.Arriving, berth := None)));
    if arrives && fate.broker {
      assert t.queues(VesselArrived) == s.queues(VesselArrived) + [e];
      assert |t.queues(VesselArrived)| == |s.queues(VesselArrived)| + 1;
    }
  }

  // ------------------------------------------------------------------------- exhaustion

  /** The vessels an alert can still reserve: arriving, with text in the berth. */
  function Candidates(f: F.Fleet): set<F.VesselId> {
    set id | id in f.rows && f.rows[id].status == F.Arriving && B.HasText(f.rows[id].berth)
  }

  /** Without other requests: what took effect was a candidate at the start and is none now. */
  predicate Draining(first: set<F.VesselId>, s: State) {
    && Candidates(s.fleet) <= first
    && (forall v :: v in s.h.effective ==> v in first && v !in Candidates(s.fleet))
    && (forall i, j :: 0 <= i < j < |s.h.effective| ==> s.h.effective[i] != s.h.effective[j])
    && (s.saga.Listed? && s.saga.choice.Some? ==> s.saga.choice.value.0 in Candidates(s.fleet))
  }

  /** `i` is the first of the listed vessels with text in its berth. */
  predicate IsFirst(vessels: seq<(F.VesselId, F.Vessel)>, i: nat) {
    && i < |vessels| && B.HasText(vessels[i].1.berth)
    && forall j :: 0 <= j < i ==> !B.HasText(vessels[j].1.berth)
  }

  lemma {:induction false} ChoiceIsFirst(vessels: seq<(F.VesselId, F.Vessel)>) returns (i: nat)
    ensures Choice(vessels).Some? ==>
      && IsFirst(vessels, i) && vessels[i].0 == Choice(vessels).value.0
      && vessels[i].1.berth == Some(Choice(vessels).value.1)
    ensures Choice(vessels).None? ==> forall j :: 0 <= j < |vessels| ==> !B.HasText(vessels[j].1.berth)
  {
    i := 0;
    if vessels != [] && !B.HasText(vessels[0].1.berth) {
      var k := ChoiceIsFirst(vessels[1..]);
      assert forall j :: 0 < j < |vessels| ==> vessels[j] == vessels[1..][j - 1];
      i := k + 1;
    }
  }

  lemma TextIsSome(b: Option<string>)
    ensures B.HasText(b) ==> b.Some?
  {}

  /** The unit is named after the berth of the very vessel that is to be reserved. */
  lemma {:induction false} UnitNamesBerth(a: Alert, vessels: seq<(F.VesselId, F.Vessel)>)
    ensures AssignedUnit(a, Berths(vessels))
         == UnitName(UnitOf(a)) + if Choice(vessels).Some? then Choice(vessels).value.1 else "1"
  {
    hide B.HasText, UnitName, UnitOf;
    if vessels != [] {
      assert Berths(vessels)[1..] == Berths(vessels[1..]);
      UnitNamesBerth(a, vessels[1..]);
      TextIsSome(vessels[0].1.berth);
    }
  }

  /** The choice is a candidate at the moment of the listing. */
  lemma ChoiceIsCandidate(vessels: seq<(F.VesselId, F.Vessel)>, f: F.Fleet)
    requires vessels == [] || V.IsListing(vessels, f.rows, F.Arriving)
    ensures Choice(vessels).Some? ==> Choice(vessels).value.0 in Candidates(f)
  {
    hide B.HasText, Choice;
    var i := ChoiceIsFirst(vessels);
    if Choice(vessels).Some? {
      assert vessels[i] in vessels;
    }
  }

  lemma ReserveRemoves(f: F.Fleet, v: F.VesselId, berth: string)
    requires v in f.rows
    ensures Candidates(F.Reserve(f, v, berth, F.Fate(true, true)).0) == Candidates(f) - {v}
  {}

  lemma ReleaseAddsNone(f: F.Fleet, v: F.VesselId, fate: F.Fate)
    ensures Candidates(F.Release(f, v, fate).0) <= Candidates(f)
  {
    hide F.Serve, B.HasText;
    F.ServeEffect(f, F.ReleaseReq(v), fate);
    TextIsSome(None);
  }

  lemma ReserveDrains(first: set<F.VesselId>, s: State, call: Call)
    requires Draining(first, s) && s.saga.Listed?
    ensures Draining(first, DoReserve(s, call)) && Candidates(DoReserve(s, call).fleet) <= Candidates(s.fleet)
  {
    hide Candidates, F.Reserve, WithFleet;
    var t := DoReserve(s, call);
    if !(s.saga.choice.None? || call == NotDone || s.saga.choice.value.0 !in s.fleet.rows) {
      var v, berth := s.saga.choice.value.0, s.saga.choice.value.1;
      ReserveRemoves(s.fleet, v, berth);
      FleetFrame(s, F.Reserve(s.fleet, v, berth, F.Fate(true, true)).0);
      assert t.h.effective == s.h.effective + [v];
    }
  }

  lemma ReleaseDrains(first: set<F.VesselId>, s: State, arrives: bool, fate: F.Fate)
    requires Draining(first, s) && s.saga.Releasing?
    ensures Draining(first, DoRelease(s, arrives, fate))
    ensures Candidates(DoRelease(s, arrives, fate).fleet) <= Candidates(s.fleet)
  {
    hide Candidates, F.Release, WithFleet;
    ReleaseAddsNone(s.fleet, s.saga.vessel, fate);
    FleetFrame(s, F.Release(s.fleet, s.saga.vessel, fate).0);
  }

  lemma BeginDrains(first: set<F.VesselId>, s: State, vessels: seq<(F.VesselId, F.Vessel)>)
    requires Draining(first, s) && Enabled(s, Begin(vessels))
    ensures Draining(first, DoBegin(s, vessels))
  {
    hide Candidates, Choice, Berths, AssignedUnit, ValidAlert;
    ChoiceIsCandidate(vessels, s.fleet);
  }

  lemma DrainingStep(first: set<F.VesselId>, th: Thresholds, s: State, step: Step)
    requires Draining(first, s) && Enabled(s, step) && !step.Client?
    ensures Draining(first, Apply(th, s, step)) && Candidates(Apply(th, s, step).fleet) <= Candidates(s.fleet)
  {
    hide Candidates, DoBegin, DoReserve, DoRelease;
    if step.Reserve? {
      ReserveDrains(first, s, step.call);
    } else if step.Release? {
      ReleaseDrains(first, s, step.arrives, step.fate);
    } else {
      if step.Begin? {
        BeginDrains(first, s, step.vessels);
      }
      hide Apply, Enabled;
      VesselsFrame(th, s, step);
    }
  }
}
