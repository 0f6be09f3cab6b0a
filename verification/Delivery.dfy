/**
 The notification service in the machine of all services. There a notification is acknowledged or
 dead-lettered in one step; here that is shown to be what the attempts with their requeues amount to.
 */
module Delivery {
  import opened Broker
  import opened Rules
  import opened Port
  import C = Conservation
  import N = Notifier
  import Notices

  /** The messages that wait on `q`, in whatever order. */
  function Waiting(notes: seq<N.Note>, q: Queue): multiset<Message> {
    if notes == [] then multiset{} else
      var x := notes[|notes| - 1].letter;
      Waiting(notes[..|notes| - 1], q) + if x.queue == q then multiset{x.body} else multiset{}
  }

  function Corpse(m: N.Note): Message { Dead(m.letter.queue, m.letter.body) }

  /** The dead letters that stand for them. */
  function Corpses(notes: seq<N.Note>): multiset<Message> {
    if notes == [] then multiset{} else
      Corpses(notes[..|notes| - 1]) + multiset{Corpse(notes[|notes| - 1])}
  }

  /** The machine shows the notifier's queues; the log grew by what the notifier logged. */
  ghost predicate Shows(p: State, n: N.State, log: multiset<Message>) {
    && (forall m :: m in n.waiting ==> ReadByNotifier(m.letter.queue))
    && (forall q :: ReadByNotifier(q) ==> multiset(p.queues(q)) == Waiting(n.waiting, q))
    && multiset(p.queues(DeadLetters)) == Corpses(n.dead)
    && multiset(p.h.logged) == log + Corpses(n.logged)
  }

  // -------------------------------------------------------------------- counting in pieces

  lemma WaitingSnoc(notes: seq<N.Note>, m: N.Note, q: Queue)
    ensures Waiting(notes + [m], q)
         == Waiting(notes, q) + if m.letter.queue == q then multiset{m.letter.body} else multiset{}
  {
    assert (notes + [m])[..|notes|] == notes;
  }

  lemma {:induction false} WaitingConcat(a: seq<N.Note>, b: seq<N.Note>, q: Queue)
    ensures Waiting(a + b, q) == Waiting(a, q) + Waiting(b, q)
    decreases |b|
  {
    if b == [] {
      assert a + b == a;
    } else {
      assert (a + b)[..|a + b| - 1] == a + b[..|b| - 1];
      WaitingConcat(a, b[..|b| - 1], q);
    }
  }

  lemma WaitingWithout(notes: seq<N.Note>, i: nat, q: Queue)
    requires i < |notes|
    ensures var x, rest := notes[i].letter, Waiting(Without(notes, i), q);
      Waiting(notes, q) == if x.queue == q then rest + multiset{x.body} else rest
  {
    hide Waiting;
    var a, m, b := notes[..i], notes[i], notes[i + 1..];
    assert notes == (a + [m]) + b;
    WaitingConcat(a + [m], b, q);
    WaitingSnoc(a, m, q);
    WaitingConcat(a, b, q);
  }

  lemma CorpsesSnoc(notes: seq<N.Note>, m: N.Note)
    ensures Corpses(notes + [m]) == Corpses(notes) + multiset{Corpse(m)}
  {
    assert (notes + [m])[..|notes|] == notes;
  }

  lemma {:induction false} CorpsesConcat(a: seq<N.Note>, b: seq<N.Note>)
    ensures Corpses(a + b) == Corpses(a) + Corpses(b)
    decreases |b|
  {
    if b == [] {
      assert a + b == a;
    } else {
      assert (a + b)[..|a + b| - 1] == a + b[..|b| - 1];
      CorpsesConcat(a, b[..|b| - 1]);
    }
  }

  lemma CorpsesWithout(notes: seq<N.Note>, i: nat)
    requires i < |notes|
    ensures Corpses(notes) == Corpses(Without(notes, i)) + multiset{Corpse(notes[i])}
  {
    hide Corpses;
    var a, m, b := notes[..i], notes[i], notes[i + 1..];
    assert notes == (a + [m]) + b;
    CorpsesConcat(a + [m], b);
    CorpsesSnoc(a, m);
    CorpsesConcat(a, b);
  }

  lemma Cancel(a: multiset<Message>, b: multiset<Message>, m: Message)
    requires a + multiset{m} == b + multiset{m}
    ensures a == b
  {
    assert a == (a + multiset{m}) - multiset{m};
    assert b == (b + multiset{m}) - multiset{m};
  }

  // --------------------------------------------------------------------------- one delivery

  lemma LogDeadIs(p: State, j: nat)
    requires j < |p.queues(DeadLetters)|
    ensures var t := DoLogDead(p, j);
      && t.h.logged == p.h.logged + [p.queues(DeadLetters)[j]]
      && (forall r :: ReadByNotifier(r) ==> t.queues(r) == p.queues(r))
      && t.queues(DeadLetters) == Without(p.queues(DeadLetters), j)
  {
    hide Without;
  }

  /** A message that fails and is requeued: the machine does not move. */
  lemma RequeueShows(p: State, n: N.State, log: multiset<Message>, i: nat)
    requires Shows(p, n, log) && i < |n.waiting|
    requires N.DeliveryCount(n.waiting[i].header) < N.MAX_DELIVERY_ATTEMPTS
    ensures Shows(p, N.Apply(n, N.Deliver(i, false)), log)
  {
    hide Waiting, Corpses, Without;
    var m := n.waiting[i];
    var again := m.(runs := m.runs + 1, header := N.Raised(m.header));
    N.WithoutSize(n.waiting, i);
    forall q ensures Waiting(Without(n.waiting, i) + [again], q) == Waiting(n.waiting, q) {
      WaitingWithout(n.waiting, i, q);
      WaitingSnoc(Without(n.waiting, i), again, q);
    }
  }

  lemma LeaveIs(n: N.State, i: nat)
    requires i < |n.waiting|
    ensures var t, m := N.Apply(n, N.Deliver(i, true)), n.waiting[i];
      && t.waiting == Without(n.waiting, i) && t.logged == n.logged
      && t.dead == if N.DeliveryCount(m.header) >= N.MAX_DELIVERY_ATTEMPTS then n.dead + [m] else n.dead
  {
    hide Without, N.DeliveryCount;
  }

  lemma QueuesAfter(p: State, n: N.State, log: multiset<Message>, i: nat, j: nat, rejected: bool, q: Queue)
    requires Shows(p, n, log) && i < |n.waiting| && ReadByNotifier(q)
    requires var x := n.waiting[i].letter;
      ReadByNotifier(x.queue) && j < |p.queues(x.queue)| && p.queues(x.queue)[j] == x.body
    ensures multiset(DoNotify(p, n.waiting[i].letter.queue, j, rejected).queues(q))
         == Waiting(Without(n.waiting, i), q)
  {
    hide Waiting, Corpses, Without, DoNotify, ReadByNotifier;
    var x := n.waiting[i].letter;
    Notices.NotifyIs(p, x.queue, j, rejected);
    WaitingWithout(n.waiting, i, q);
    if q == x.queue {
      C.WithoutCount(p.queues(q), j);
      Cancel(multiset(Without(p.queues(q), j)), Waiting(Without(n.waiting, i), q), x.body);
    }
  }

  lemma Findable(p: State, n: N.State, log: multiset<Message>, i: nat) returns (j: nat)
    requires Shows(p, n, log) && i < |n.waiting|
    ensures var x := n.waiting[i].letter;
      ReadByNotifier(x.queue) && j < |p.queues(x.queue)| && p.queues(x.queue)[j] == x.body
  {
    hide Waiting, Corpses, Without, ReadByNotifier;
    var x := n.waiting[i].letter;
    WaitingWithout(n.waiting, i, x.queue);
    assert x.body in multiset(p.queues(x.queue));
    j :| 0 <= j < |p.queues(x.queue)| && p.queues(x.queue)[j] == x.body;
  }

  /** A message that leaves its queue, acknowledged or rejected. */
  lemma LeaveShows(p: State, n: N.State, log: multiset<Message>, i: nat, rejected: bool) returns (j: nat)
    requires Shows(p, n, log) && i < |n.waiting|
    requires rejected <==> N.DeliveryCount(n.waiting[i].header) >= N.MAX_DELIVERY_ATTEMPTS
    ensures var q := n.waiting[i].letter.queue;
      && Enabled(p, Notify(q, j, rejected))
      && Shows(DoNotify(p, q, j, rejected), N.Apply(n, N.Deliver(i, true)), log)
  {
    hide Waiting, Corpses, Without, DoNotify, ReadByNotifier, N.Apply, N.DeliveryCount;
    var m := n.waiting[i];
    LeaveIs(n, i);
    N.WithoutSize(n.waiting, i);
    j := Findable(p, n, log, i);
    CorpsesSnoc(n.dead, m);
    Notices.NotifyIs(p, m.letter.queue, j, rejected);
    forall q | ReadByNotifier(q)
      ensures multiset(DoNotify(p, m.letter.queue, j, rejected).queues(q)) == Waiting(Without(n.waiting, i), q)
    {
      QueuesAfter(p, n, log, i, j, rejected, q);
    }
  }

  lemma LogShows(p: State, n: N.State, log: multiset<Message>, i: nat) returns (j: nat)
    requires Shows(p, n, log) && i < |n.dead|
    ensures Enabled(p, LogDead(j)) && Shows(DoLogDead(p, j), N.Apply(n, N.LogDead(i)), log)
  {
    hide Waiting, Corpses, Without, DoLogDead;
    var m := n.dead[i];
    CorpsesWithout(n.dead, i);
    assert Corpse(m) in multiset(p.queues(DeadLetters));
    j :| 0 <= j < |p.queues(DeadLetters)| && p.queues(DeadLetters)[j] == Corpse(m);
    C.WithoutCount(p.queues(DeadLetters), j);
    CorpsesSnoc(n.logged, m);
    LogDeadIs(p, j);
    Cancel(multiset(Without(p.queues(DeadLetters), j)), Corpses(Without(n.dead, i)), Corpse(m));
  }

  predicate OfNotifier(step: Step) { step.Notify? || step.LogDead? }

  /** A message with no attempt left is rejected unread. */
  lemma SameDelivery(n: N.State, i: nat, succeeds: bool)
    requires i < |n.waiting|
    requires succeeds || N.DeliveryCount(n.waiting[i].header) >= N.MAX_DELIVERY_ATTEMPTS
    ensures N.Apply(n, N.Deliver(i, succeeds)) == N.Apply(n, N.Deliver(i, true))
  {}

  /** Every delivery is at most one step of the machine. */
  lemma StepShows(th: Thresholds, p: State, n: N.State, log: multiset<Message>, step: N.Step)
    returns (steps: seq<Step>)
    requires Shows(p, n, log) && N.Enabled(n, step) && !step.Arrive?
    ensures |steps| <= 1 && (forall x :: x in steps ==> OfNotifier(x))
    ensures Legal(th, p, steps) && Shows(After(th, p, steps), N.Apply(n, step), log)
  {
    hide Shows, DoNotify, DoLogDead;
    steps := [];
    match step
    case Deliver(i, succeeds) =>
      var rejected := N.DeliveryCount(n.waiting[i].header) >= N.MAX_DELIVERY_ATTEMPTS;
      if rejected || succeeds {
        var j := LeaveShows(p, n, log, i, rejected);
        SameDelivery(n, i, succeeds);
        steps := [Notify(n.waiting[i].letter.queue, j, rejected)];
      } else {
        RequeueShows(p, n, log, i);
      }
    case LogDead(i) =>
      var j := LogShows(p, n, log, i);
      steps := [LogDead(j)];
  }

  lemma {:induction false} LegalConcat(th: Thresholds, s: State, a: seq<Step>, b: seq<Step>)
    requires Legal(th, s, a) && Legal(th, After(th, s, a), b)
    ensures Legal(th, s, a + b) && After(th, s, a + b) == After(th, After(th, s, a), b)
    decreases |a|
  {
    hide Enabled, Apply;
    if a == [] {
      assert a + b == b;
    } else {
      assert (a + b)[0] == a[0] && (a + b)[1..] == a[1..] + b;
      LegalConcat(th, Apply(th, s, a[0]), a[1..], b);
    }
  }

  lemma Nothing(th: Thresholds, p: State)
    ensures Legal(th, p, []) && After(th, p, []) == p
  {}

  /** Every run of deliveries, attempts and requeues and all, is a run of the machine. */
  lemma {:induction false} RunShows(th: Thresholds, p: State, n: N.State, log: multiset<Message>,
                                    run: seq<N.Step>)
    returns (steps: seq<Step>)
    requires Shows(p, n, log) && N.Legal(n, run) && N.Arrivals(run) == []
    ensures |steps| <= |run| && (forall x :: x in steps ==> OfNotifier(x))
    ensures Legal(th, p, steps) && Shows(After(th, p, steps), N.After(n, run), log)
    decreases |run|
  {
    hide Shows, Enabled, Apply, N.Enabled, N.Apply, Legal, After, OfNotifier;
    if run == [] {
      steps := [];
      Nothing(th, p);
    } else {
      var first := StepShows(th, p, n, log, run[0]);
      var rest := RunShows(th, After(th, p, first), N.Apply(n, run[0]), log, run[1..]);
      LegalConcat(th, p, first, rest);
      steps := first + rest;
    }
  }

  // ------------------------------------------------------------------ what the others do meanwhile

  const QUEUES: seq<Queue> := [AlertNotices, TaskCreated, TaskFailed, VesselArrived, VesselDocked, VesselDeparted]

  /** New messages on `q`, as the notifier meets them. */
  function NotesOn(q: Queue, ms: seq<Message>): seq<N.Note> {
    if ms == [] then [] else NotesOn(q, ms[..|ms| - 1]) + [N.Note(Letter(q, ms[|ms| - 1]), N.Absent, N.Absent, 0)]
  }

  /** What a queue has in `t` beyond what it has in `p`. */
  function Grown(p: State, t: State, q: Queue): seq<Message> {
    if |p.queues(q)| <= |t.queues(q)| then t.queues(q)[|p.queues(q)|..] else []
  }

  function NewNotes(p: State, t: State, qs: seq<Queue>): seq<N.Note> {
    if qs == [] then [] else
      var q := qs[|qs| - 1];
      NewNotes(p, t, qs[..|qs| - 1]) + NotesOn(q, Grown(p, t, q))
  }

  lemma MultisetSnoc(ms: seq<Message>, m: Message)
    ensures multiset(ms + [m]) == multiset(ms) + multiset{m}
  {}

  lemma NoneWait(r: Queue)
    ensures Waiting([], r) == multiset{}
  {}

  lemma {:induction false} NotesOnWait(q: Queue, ms: seq<Message>, r: Queue)
    ensures Waiting(NotesOn(q, ms), r) == if r == q then multiset(ms) else multiset{}
  {
    hide Waiting;
    if ms == [] {
      NoneWait(r);
    } else {
      var before, last := ms[..|ms| - 1], ms[|ms| - 1];
      NotesOnWait(q, before, r);
      WaitingSnoc(NotesOn(q, before), N.Note(Letter(q, last), N.Absent, N.Absent, 0), r);
      MultisetSnoc(before, last);
      assert ms == before + [last];
    }
  }

  lemma {:induction false} NotesOnUntouched(q: Queue, ms: seq<Message>)
    ensures forall m :: m in NotesOn(q, ms) ==> N.Untouched(m) && m.letter.queue == q
  {
    if ms != [] {
      NotesOnUntouched(q, ms[..|ms| - 1]);
    }
  }

  lemma {:induction false} NewNotesWait(p: State, t: State, qs: seq<Queue>, r: Queue)
    requires forall i, j :: 0 <= i < j < |qs| ==> qs[i] != qs[j]
    ensures Waiting(NewNotes(p, t, qs), r) == if r in qs then multiset(Grown(p, t, r)) else multiset{}
    ensures forall m :: m in NewNotes(p, t, qs) ==> N.Untouched(m) && m.letter.queue in qs
    decreases |qs|
  {
    hide Waiting, Grown, N.Untouched;
    if qs == [] {
      NoneWait(r);
    } else {
      var q, before := qs[|qs| - 1], qs[..|qs| - 1];
      NewNotesWait(p, t, before, r);
      NotesOnWait(q, Grown(p, t, q), r);
      NotesOnUntouched(q, Grown(p, t, q));
      WaitingConcat(NewNotes(p, t, before), NotesOn(q, Grown(p, t, q)), r);
      assert qs == before + [q];
    }
  }

  /** The arrival of a list of notes. */
  function Arriving(notes: seq<N.Note>): seq<N.Step> {
    if notes == [] then [] else [N.Arrive(notes[0])] + Arriving(notes[1..])
  }

  lemma ArriveFirst(n: N.State, m: N.Note, rest: seq<N.Step>)
    requires N.Untouched(m) && N.Legal(N.Apply(n, N.Arrive(m)), rest)
    ensures N.Legal(n, [N.Arrive(m)] + rest) && N.Arrivals([N.Arrive(m)] + rest) == [m] + N.Arrivals(rest)
    ensures N.After(n, [N.Arrive(m)] + rest) == N.After(N.Apply(n, N.Arrive(m)), rest)
  {
    hide N.Untouched, N.Apply;
    assert ([N.Arrive(m)] + rest)[1..] == rest;
    assert N.Enabled(n, N.Arrive(m));
  }

  lemma NoArrivals(n: N.State)
    ensures N.Legal(n, []) && N.After(n, []) == n && N.Arrivals([]) == []
  {}

  lemma {:induction false} DeadArrive(n: N.State, dead: seq<N.Note>)
    requires forall m :: m in dead ==> N.Untouched(m) && !N.Own(m)
    ensures N.Legal(n, Arriving(dead)) && N.Arrivals(Arriving(dead)) == dead
    ensures N.After(n, Arriving(dead)) == n.(dead := n.dead + dead)
    decreases |dead|
  {
    hide N.Untouched, N.Own, N.Legal, N.After, N.Arrivals;
    if dead == [] {
      NoArrivals(n);
      assert n.dead + [] == n.dead;
    } else {
      DeadArrive(n.(dead := n.dead + [dead[0]]), dead[1..]);
      ArriveFirst(n, dead[0], Arriving(dead[1..]));
      assert n.dead + [dead[0]] + dead[1..] == n.dead + dead;
    }
  }

  lemma {:induction false} ArrivingRuns(n: N.State, notes: seq<N.Note>, dead: seq<N.Note>)
    requires forall m :: m in notes ==> N.Untouched(m) && N.Own(m)
    requires forall m :: m in dead ==> N.Untouched(m) && !N.Own(m)
    ensures N.Legal(n, Arriving(notes + dead)) && N.Arrivals(Arriving(notes + dead)) == notes + dead
    ensures N.After(n, Arriving(notes + dead)) == n.(waiting := n.waiting + notes, dead := n.dead + dead)
    decreases |notes|
  {
    hide N.Untouched, N.Own, N.Legal, N.After, N.Arrivals;
    if notes == [] {
      DeadArrive(n, dead);
      assert [] + dead == dead && n.waiting + [] == n.waiting;
    } else {
      ArrivingRuns(n.(waiting := n.waiting + [notes[0]]), notes[1..], dead);
      ArriveFirst(n, notes[0], Arriving(notes[1..] + dead));
      assert (notes + dead)[0] == notes[0] && (notes + dead)[1..] == notes[1..] + dead;
      assert n.waiting + [notes[0]] + notes[1..] == n.waiting + notes;
    }
  }

  /** A step of another service only adds to the queues of the notifier, at the end. */
  lemma QueuesGrow(th: Thresholds, p: State, step: Step, q: Queue)
    requires Enabled(p, step) && !OfNotifier(step) && ReadByNotifier(q)
    ensures var t := Apply(th, p, step);
      && multiset(t.queues(q)) == multiset(p.queues(q)) + multiset(Grown(p, t, q))
      && (C.Killed(th, p, step).Some? ==> C.Killed(th, p, step).value.0 != q)
  {
    hide Apply, Enabled, C.Killed;
    var ms := Notices.Carried(th, p, step, q);
    var t := Apply(th, p, step);
    assert t.queues(q)[|p.queues(q)|..] == ms;
  }

  lemma FreshNote(notes: seq<N.Note>)
    requires forall m :: m in notes ==> m.header == m.first && m.runs == 0
    ensures forall m :: m in notes ==> N.Untouched(m)
  {}

  lemma {:induction false} ArrivalsArrive(notes: seq<N.Note>)
    ensures forall x :: x in Arriving(notes) ==> x.Arrive?
  {
    if notes != [] {
      ArrivalsArrive(notes[1..]);
    }
  }

  lemma ElsewhereFrame(th: Thresholds, p: State, step: Step)
    requires Enabled(p, step) && !OfNotifier(step)
    ensures var t, k := Apply(th, p, step), C.Killed(th, p, step);
      && t.h.logged == p.h.logged
      && t.queues(DeadLetters) == p.queues(DeadLetters) + if k.Some? then [Dead(k.value.0, k.value.1)] else []
  {
    hide Apply, Enabled, C.Killed;
    C.KilledIs(th, p, step);
  }

  /** Between deliveries, whatever another service does is to the notifier the arrival of messages. */
  lemma ElsewhereShows(th: Thresholds, p: State, n: N.State, log: multiset<Message>, step: Step)
    returns (arrivals: seq<N.Step>)
    requires Shows(p, n, log) && Enabled(p, step) && !OfNotifier(step)
    ensures (forall x :: x in arrivals ==> x.Arrive?) && N.Legal(n, arrivals)
    ensures Shows(Apply(th, p, step), N.After(n, arrivals), log)
  {
    hide Apply, Enabled, C.Killed, Waiting, Corpses, Grown, Arriving, N.Untouched, OfNotifier, NewNotes;
    var t, k := Apply(th, p, step), C.Killed(th, p, step);
    var notes := NewNotes(p, t, QUEUES);
    var dead := if k.Some? then [N.Note(Letter(k.value.0, k.value.1), N.Absent, N.Absent, 0)] else [];
    ElsewhereFrame(th, p, step);
    forall q | ReadByNotifier(q)
      ensures multiset(t.queues(q)) == Waiting(n.waiting + notes, q) && (k.Some? ==> k.value.0 != q)
    {
      QueuesGrow(th, p, step, q);
      NewNotesWait(p, t, QUEUES, q);
      WaitingConcat(n.waiting, notes, q);
    }
    NewNotesWait(p, t, QUEUES, AlertNotices);
    FreshNote(dead);
    ArrivingRuns(n, notes, dead);
    ArrivalsArrive(notes + dead);
    arrivals := Arriving(notes + dead);
    if k.Some? {
      CorpsesSnoc(n.dead, dead[0]);
    } else {
      assert n.dead + [] == n.dead;
    }
  }
}
