/** Nothing is lost on the way to the notification service either. */
module Notices {
  import opened Options
  import opened Broker
  import opened Telemetry
  import opened Rules
  import opened Port
  import opened Conservation
  import F = Fleet
  import R = Reservations

  /** An entry of the vessel log is an event on `q`. */
  predicate Routed(e: F.Entry, q: Queue) {
    var k := F.RoutingKey(e.event.status);
    k.Some? && Bound(q, k.value)
  }

  /** The events of the vessel log that went to `q`. */
  function Announcements(log: seq<F.Entry>, q: Queue): seq<Message> {
    if log == [] then [] else
      var e := log[|log| - 1];
      Announcements(log[..|log| - 1], q) + if Routed(e, q) then [Lifecycle(e.event)] else []
  }

  predicate OfVessels(q: Queue) { q in {VesselArrived, VesselDocked, VesselDeparted} }

  /** Everything the broker ever took for `q`. */
  function Sent(s: State, q: Queue): seq<Message> {
    match q
    case AlertNotices => s.h.published
    case TaskCreated => s.h.created
    case TaskFailed => s.h.aborted
    case _ => Announcements(s.fleet.log, q)
  }

  /** What was sent before the machine started. */
  function Before(log: seq<F.Entry>, q: Queue): seq<Message> {
    if OfVessels(q) then Announcements(log, q) else []
  }

  function ReadFrom(read: seq<Letter>, q: Queue): multiset<Message> {
    if read == [] then multiset{} else
      var x := read[|read| - 1];
      ReadFrom(read[..|read| - 1], q) + if x.queue == q then multiset{x.body} else multiset{}
  }

  /** Every notification waits, was read, is dead, or is from before. */
  predicate NoticeKept(log: seq<F.Entry>, s: State, q: Queue) {
    Accounted(Sent(s, q), s.queues(q), ReadFrom(s.h.read, q), Before(log, q), From(s.h.dead, q))
  }

  // ------------------------------------------------------------------------- the vessel log

  lemma AnnouncementsSnoc(log: seq<F.Entry>, e: F.Entry, q: Queue)
    ensures Announcements(log + [e], q) == Announcements(log, q) + if Routed(e, q) then [Lifecycle(e.event)] else []
  {
    assert (log + [e])[..|log|] == log;
  }

  lemma LogGrows(f: F.Fleet, r: F.Request, fate: F.Fate)
    ensures var log := F.Serve(f, r, fate).0.log;
      log == f.log || (|log| == |f.log| + 1 && log == f.log + [log[|log| - 1]])
  {
    hide F.Asked, F.Target;
  }

  lemma OnlyVessels(e: F.Entry, q: Queue)
    requires ReadByNotifier(q)
    ensures Routed(e, q) ==> OfVessels(q)
  {}

  /** A vessel transaction puts on `q` what it puts in the log for `q`. */
  lemma FleetCarries(s: State, f: F.Fleet, q: Queue) returns (ms: seq<Message>)
    requires ReadByNotifier(q)
    requires f.log == s.fleet.log || (|f.log| == |s.fleet.log| + 1 && f.log == s.fleet.log + [f.log[|f.log| - 1]])
    ensures |ms| <= 1 && WithFleet(s, f).queues(q) == s.queues(q) + ms
    ensures Sent(WithFleet(s, f), q) == Sent(s, q) + ms
  {
    hide Announcements;
    FleetFrame(s, f);
    ms := [];
    if f.log != s.fleet.log {
      var e := f.log[|f.log| - 1];
      AnnouncementsSnoc(s.fleet.log, e, q);
      if Routed(e, q) {
        ms := [Lifecycle(e.event)];
      }
      OnlyVessels(e, q);
    }
    assert s.queues(q) + [] == s.queues(q) && Sent(s, q) + [] == Sent(s, q);
  }

  // ---------------------------------------------------------------------------- every step

  lemma NotKilled(th: Thresholds, s: State, step: Step)
    requires Enabled(s, step) && (step.Client? || step.Reserve? || step.Release?)
    ensures Killed(th, s, step) == None
  {}

  lemma SentIs(s: State, t: State, q: Queue)
    requires t.fleet == s.fleet && t.h.published == s.h.published
    requires t.h.created == s.h.created && t.h.aborted == s.h.aborted
    ensures Sent(t, q) == Sent(s, q) && Sent(t, q) == Sent(s, q) + [] && s.queues(q) == s.queues(q) + []
  {}

  lemma CarriedByFleet(th: Thresholds, s: State, step: Step, q: Queue) returns (ms: seq<Message>)
    requires Enabled(s, step) && (step.Client? || step.Reserve? || step.Release?) && ReadByNotifier(q)
    ensures var t := Apply(th, s, step);
      && |ms| <= 1 && t.queues(q) == s.queues(q) + ms && Sent(t, q) == Sent(s, q) + ms
      && t.h.read == s.h.read && Killed(th, s, step) == None
  {
    hide F.Serve, Announcements, WithFleet, Sent, Killed;
    NotKilled(th, s, step);
    var rs := R.RequestsOf(s, step);
    if rs == [] {
      ms := [];
      SentIs(s, Apply(th, s, step), q);
    } else {
      LogGrows(s.fleet, rs[0].0, rs[0].1);
      var u := WithFleet(s, F.Serve(s.fleet, rs[0].0, rs[0].1).0);
      ms := FleetCarries(s, F.Serve(s.fleet, rs[0].0, rs[0].1).0, q);
      FleetFrame(s, F.Serve(s.fleet, rs[0].0, rs[0].1).0);
      SentIs(u, Apply(th, s, step), q);
    }
  }

  /** The events of the task service: each key has one queue. */
  lemma CarriedByEvent(s: State, key: Key, m: Message, t: State, q: Queue) returns (ms: seq<Message>)
    requires ReadByNotifier(q) && t.queues == Publish(s.queues, key, m) && t.fleet == s.fleet
    requires t.h.published == s.h.published + if key == AlertKey then [m] else []
    requires t.h.created == s.h.created + if key == CreatedKey then [m] else []
    requires t.h.aborted == s.h.aborted + if key == FailedKey then [m] else []
    requires key in {AlertKey, CreatedKey, FailedKey}
    ensures |ms| <= 1 && t.queues(q) == s.queues(q) + ms && Sent(t, q) == Sent(s, q) + ms
  {
    hide Announcements;
    Routes(key);
    ms := if Bound(q, key) then [m] else [];
    assert s.queues(q) + [] == s.queues(q) && Sent(s, q) + [] == Sent(s, q);
  }

  lemma AddNothing(s: State)
    ensures s.h.published + [] == s.h.published && s.h.created + [] == s.h.created && s.h.aborted + [] == s.h.aborted
  {}

  lemma CarriedByAnalyse(th: Thresholds, s: State, step: Step, q: Queue) returns (ms: seq<Message>)
    requires Enabled(s, step) && step.Analyse? && ReadByNotifier(q)
    ensures var t := Apply(th, s, step);
      && |ms| <= 1 && t.queues(q) == s.queues(q) + ms && Sent(t, q) == Sent(s, q) + ms
      && t.h.read == s.h.read && (Killed(th, s, step).Some? ==> Killed(th, s, step).value.0 != q)
  {
    hide Evaluate, Announcements, Publish, Sent;
    var m, t := s.queues(TelemetryProcessed)[0], Apply(th, s, step);
    var rest := s.(queues := Remove(s.queues, TelemetryProcessed, 0));
    SentIs(s, rest, q);
    if m.Measured? && Evaluate(th, m.reading).Some? && step.sent {
      AddNothing(s);
      ms := CarriedByEvent(rest, AlertKey, Alerted(Evaluate(th, m.reading).value), t, q);
    } else {
      ms := [];
      SentIs(s, t, q);
    }
  }

  lemma CarriedByPublication(th: Thresholds, s: State, step: Step, q: Queue) returns (ms: seq<Message>)
    requires Enabled(s, step) && (step.PublishCreated? || step.PublishAborted?) && ReadByNotifier(q)
    ensures var t := Apply(th, s, step);
      && |ms| <= 1 && t.queues(q) == s.queues(q) + ms && Sent(t, q) == Sent(s, q) + ms
      && t.h.read == s.h.read && Killed(th, s, step) == None
  {
    hide Announcements, Publish, Sent;
    var t := Apply(th, s, step);
    AddNothing(s);
    if !step.sent {
      ms := [];
      SentIs(s, t, q);
    } else if step.PublishCreated? {
      ms := CarriedByEvent(s, CreatedKey, Created(s.saga.id, s.saga.task), t, q);
    } else {
      ms := CarriedByEvent(s, FailedKey, Aborted(s.saga.id, s.saga.task), t, q);
    }
  }

  lemma HandlingCarriesNothing(th: Thresholds, s: State, step: Step, q: Queue)
    requires Enabled(s, step) && ReadByNotifier(q) && (step.Begin? || step.Save? || step.Commit?)
    ensures var t := Apply(th, s, step);
      && t.queues(q) == s.queues(q) && t.fleet == s.fleet && t.h.published == s.h.published
      && t.h.created == s.h.created && t.h.aborted == s.h.aborted
      && t.h.read == s.h.read && (Killed(th, s, step).Some? ==> Killed(th, s, step).value.0 != q)
  {
    hide ValidAlert, AssignedUnit, Choice, Berths, NewTask;
  }

  lemma RestCarriesNothing(th: Thresholds, s: State, step: Step, q: Queue)
    requires Enabled(s, step) && ReadByNotifier(q) && (step.Ingest? || step.Complete? || step.LogDead?)
    ensures var t := Apply(th, s, step);
      && t.queues(q) == s.queues(q) && t.fleet == s.fleet && t.h.published == s.h.published
      && t.h.created == s.h.created && t.h.aborted == s.h.aborted
      && t.h.read == s.h.read && Killed(th, s, step) == None
  {
    hide Refusal, Event;
  }

  /** The other steps touch no queue of the notification service. */
  lemma NothingCarried(th: Thresholds, s: State, step: Step, q: Queue)
    requires Enabled(s, step) && ReadByNotifier(q) && !step.Notify?
    requires !(step.Client? || step.Reserve? || step.Release?)
    requires !(step.Analyse? || step.PublishCreated? || step.PublishAborted?)
    ensures var t := Apply(th, s, step);
      && t.queues(q) == s.queues(q) && t.queues(q) == s.queues(q) + [] && Sent(t, q) == Sent(s, q) + []
      && t.h.read == s.h.read && (Killed(th, s, step).Some? ==> Killed(th, s, step).value.0 != q)
  {
    hide Sent;
    if step.Begin? || step.Save? || step.Commit? {
      HandlingCarriesNothing(th, s, step, q);
    } else {
      RestCarriesNothing(th, s, step, q);
    }
    SentIs(s, Apply(th, s, step), q);
  }

  /** What a step of another service puts on `q` it also records as sent there. */
  lemma Carried(th: Thresholds, s: State, step: Step, q: Queue) returns (ms: seq<Message>)
    requires Enabled(s, step) && !step.Notify? && ReadByNotifier(q)
    ensures var t := Apply(th, s, step);
      && |ms| <= 1 && t.queues(q) == s.queues(q) + ms && Sent(t, q) == Sent(s, q) + ms
      && t.h.read == s.h.read && (Killed(th, s, step).Some? ==> Killed(th, s, step).value.0 != q)
  {
    hide Apply, Sent, Killed, Enabled;
    if step.Client? || step.Reserve? || step.Release? {
      ms := CarriedByFleet(th, s, step, q);
    } else if step.Analyse? {
      ms := CarriedByAnalyse(th, s, step, q);
    } else if step.PublishCreated? || step.PublishAborted? {
      ms := CarriedByPublication(th, s, step, q);
    } else {
      ms := [];
      NothingCarried(th, s, step, q);
    }
  }

  lemma ReadSnoc(read: seq<Letter>, x: Letter, q: Queue)
    ensures ReadFrom(read + [x], q) == if x.queue == q then ReadFrom(read, q) + multiset{x.body} else ReadFrom(read, q)
  {
    assert (read + [x])[..|read|] == read;
  }

  lemma {:induction false} ArriveAll(all: seq<Message>, waiting: seq<Message>, held: multiset<Message>,
                                     done: seq<Message>, dead: multiset<Message>, ms: seq<Message>)
    requires Accounted(all, waiting, held, done, dead)
    ensures Accounted(all + ms, waiting + ms, held, done, dead)
  {}

  /** What a notification step does, queue by queue. */
  lemma NotifyIs(s: State, q: Queue, i: nat, rejected: bool)
    requires ReadByNotifier(q) && i < |s.queues(q)|
    ensures var t, m := DoNotify(s, q, i, rejected), s.queues(q)[i];
      && t.h.logged == s.h.logged && t.h.published == s.h.published && t.h.created == s.h.created
      && t.h.aborted == s.h.aborted && t.fleet == s.fleet
      && t.h.read == (if rejected then s.h.read else s.h.read + [Letter(q, m)])
      && t.h.dead == (if rejected then s.h.dead + [Dead(q, m)] else s.h.dead)
      && (forall r :: ReadByNotifier(r) ==> t.queues(r) == if r == q then Without(s.queues(q), i) else s.queues(r))
      && t.queues(DeadLetters)
         == (if rejected then s.queues(DeadLetters) + [Dead(q, m)] else s.queues(DeadLetters))
  {
    hide Without;
  }

  lemma DeadSnoc(dead: seq<Message>, r: Queue, m: Message, q: Queue)
    ensures From(dead + [Dead(r, m)], q) == if r == q then From(dead, q) + multiset{m} else From(dead, q)
  {
    hide From;
    FromSnoc(dead, Dead(r, m), q);
    assert From(dead, q) + multiset{} == From(dead, q);
  }

  /** A notification is read or dies. */
  lemma NotifyKeeps(log: seq<F.Entry>, s: State, step: Step, q: Queue)
    requires Enabled(s, step) && step.Notify? && ReadByNotifier(q) && NoticeKept(log, s, q)
    ensures NoticeKept(log, DoNotify(s, step.queue, step.index, step.rejected), q)
  {
    hide Accounted, Announcements, From, ReadFrom, Without, DoNotify, Sent, Before;
    var r, i := step.queue, step.index;
    var m, t := s.queues(r)[i], DoNotify(s, r, i, step.rejected);
    NotifyIs(s, r, i, step.rejected);
    SentIs(s, t, q);
    DeadSnoc(s.h.dead, r, m, q);
    ReadSnoc(s.h.read, Letter(r, m), q);
    if q == r {
      Take(Sent(s, q), s.queues(q), ReadFrom(s.h.read, q), Before(log, q), From(s.h.dead, q), i);
      Finish(Sent(s, q), Without(s.queues(q), i), ReadFrom(s.h.read, q), Before(log, q), From(s.h.dead, q), m);
    }
  }

  lemma NoticeStep(log: seq<F.Entry>, th: Thresholds, s: State, step: Step, q: Queue)
    requires Enabled(s, step) && ReadByNotifier(q) && NoticeKept(log, s, q)
    ensures NoticeKept(log, Apply(th, s, step), q)
  {
    hide Accounted, Sent, Before, From, ReadFrom, Killed, DoNotify;
    if step.Notify? {
      hide NoticeKept;
      NotifyKeeps(log, s, step, q);
    } else {
      hide Apply, Enabled;
      var ms := Carried(th, s, step, q);
      KilledFrom(th, s, step, q);
      ArriveAll(Sent(s, q), s.queues(q), ReadFrom(s.h.read, q), Before(log, q), From(s.h.dead, q), ms);
    }
  }

  lemma {:induction false} NoticeRun(log: seq<F.Entry>, th: Thresholds, s: State, steps: seq<Step>, q: Queue)
    requires Legal(th, s, steps) && ReadByNotifier(q) && NoticeKept(log, s, q)
    ensures NoticeKept(log, After(th, s, steps), q)
    decreases |steps|
  {
    hide NoticeKept, Apply, Enabled;
    if steps != [] {
      NoticeStep(log, th, s, steps[0], q);
      NoticeRun(log, th, Apply(th, s, steps[0]), steps[1..], q);
    }
  }

  /** Over any run: every alert, task event and vessel event that was sent waits for the notification
      service, was read by it, or is dead. */
  lemma RunNotifies(th: Thresholds, f: F.Fleet, steps: seq<Step>, q: Queue)
    requires Legal(th, AtRest(f), steps) && ReadByNotifier(q)
    ensures var s := After(th, AtRest(f), steps);
      multiset(Sent(s, q)) ==
        multiset(s.queues(q)) + ReadFrom(s.h.read, q) + multiset(Before(f.log, q)) + From(s.h.dead, q)
  {
    hide Legal, After, Announcements;
    NoticeRun(f.log, th, AtRest(f), steps, q);
  }
}
