/**
 The notification service: six queues read with a bounded number of attempts, and the dead-letter
 queue that is read once. The bound rests on a broker that counts: it raises `x-delivery-count` by
 one whenever a message is requeued.
 */
module Notifier {
  import opened Broker
  import P = Port

  const MAX_DELIVERY_ATTEMPTS := 3

  /** The header as the client library shows it. */
  datatype Header = Absent | Number(n: int) | Other

  function DeliveryCount(h: Header): int {
    (if h.Number? then h.n else 0) + 1
  }

  /** What the counting broker puts on a requeued message. */
  function Raised(h: Header): Header { Number(DeliveryCount(h)) }

  /** A message: what it says and where, its header, the header it came with, and how often it was
      processed. */
  datatype Note = Note(letter: P.Letter, header: Header, first: Header, runs: nat)

  datatype State = State(waiting: seq<Note>, dead: seq<Note>, acked: seq<Note>, logged: seq<Note>)

  /** On one of the six queues; the dead letters of other services are not. */
  predicate Own(m: Note) { P.ReadByNotifier(m.letter.queue) }

  predicate Untouched(m: Note) { m.header == m.first && m.runs == 0 }

  /** One delivery from one of the six queues, the processing function succeeding or not; one delivery
      from the dead-letter queue; or a message that arrives from elsewhere, on one of the six queues
      or already dead. */
  datatype Step = Deliver(index: nat, succeeds: bool) | LogDead(index: nat) | Arrive(note: Note)

  predicate Enabled(s: State, step: Step) {
    match step
    case Deliver(i, _) => i < |s.waiting|
    case LogDead(i) => i < |s.dead|
    case Arrive(m) => Untouched(m)
  }

  function Apply(s: State, step: Step): State
    requires Enabled(s, step)
  {
    match step
    case Deliver(i, succeeds) =>
      var m := s.waiting[i];
      if DeliveryCount(m.header) >= MAX_DELIVERY_ATTEMPTS then
        s.(waiting := Without(s.waiting, i), dead := s.dead + [m])
      else
        var done := m.(runs := m.runs + 1);
        if succeeds then s.(waiting := Without(s.waiting, i), acked := s.acked + [done])
        else s.(waiting := Without(s.waiting, i) + [done.(header := Raised(m.header))])
    case LogDead(i) => s.(dead := Without(s.dead, i), logged := s.logged + [s.dead[i]])
    case Arrive(m) => if Own(m) then s.(waiting := s.waiting + [m]) else s.(dead := s.dead + [m])
  }

  // ------------------------------------------------------------------------- termination

  /** How many more times a message can be moved. */
  function Weight(m: Note): nat {
    (if DeliveryCount(m.header) < MAX_DELIVERY_ATTEMPTS then MAX_DELIVERY_ATTEMPTS - DeliveryCount(m.header) else 0) + 2
  }

  function Weights(notes: seq<Note>): nat {
    if notes == [] then 0 else Weights(notes[..|notes| - 1]) + Weight(notes[|notes| - 1])
  }

  function Measure(s: State): nat { Weights(s.waiting) + |s.dead| }

  lemma {:induction false} WeightsConcat(a: seq<Note>, b: seq<Note>)
    ensures Weights(a + b) == Weights(a) + Weights(b)
    decreases |b|
  {
    if b == [] {
      assert a + b == a;
    } else {
      assert (a + b)[..|a + b| - 1] == a + b[..|b| - 1];
      WeightsConcat(a, b[..|b| - 1]);
    }
  }

  lemma WeightsOne(m: Note)
    ensures Weights([m]) == Weight(m)
  {
    assert [m][..0] == [];
  }

  lemma WeightsWithout(notes: seq<Note>, i: nat)
    requires i < |notes|
    ensures Weights(notes) == Weights(Without(notes, i)) + Weight(notes[i])
  {
    hide Weight, Weights;
    var a, m, b := notes[..i], [notes[i]], notes[i + 1..];
    assert notes == (a + m) + b;
    WeightsConcat(a + m, b);
    WeightsConcat(a, m);
    WeightsConcat(a, b);
    WeightsOne(notes[i]);
  }

  /** What an arrival adds to the measure. */
  function Cost(step: Step): nat {
    if step.Arrive? then (if Own(step.note) then Weight(step.note) else 1) else 0
  }

  lemma WithoutSize(notes: seq<Note>, i: nat)
    requires i < |notes|
    ensures |Without(notes, i)| == |notes| - 1
    ensures forall m :: m in Without(notes, i) ==> m in notes
  {}

  lemma MeasureDrops(s: State, step: Step)
    requires Enabled(s, step) && !step.Arrive?
    ensures Measure(Apply(s, step)) < Measure(s)
  {
    hide Weights, Without;
    match step
    case Deliver(i, succeeds) =>
      var m := s.waiting[i];
      WeightsWithout(s.waiting, i);
      if DeliveryCount(m.header) < MAX_DELIVERY_ATTEMPTS && !succeeds {
        var again := m.(runs := m.runs + 1, header := Raised(m.header));
        WeightsConcat(Without(s.waiting, i), [again]);
        WeightsOne(again);
      }
    case LogDead(i) => WithoutSize(s.dead, i);
  }

  lemma MeasureRises(s: State, step: Step)
    requires Enabled(s, step) && step.Arrive?
    ensures Measure(Apply(s, step)) == Measure(s) + Cost(step)
  {
    hide Weights, Weight;
    WeightsConcat(s.waiting, [step.note]);
    WeightsOne(step.note);
  }

  predicate Legal(s: State, steps: seq<Step>)
    decreases |steps|
  {
    steps == [] || (Enabled(s, steps[0]) && Legal(Apply(s, steps[0]), steps[1..]))
  }

  function After(s: State, steps: seq<Step>): State
    requires Legal(s, steps)
    decreases |steps|
  {
    if steps == [] then s else After(Apply(s, steps[0]), steps[1..])
  }

  function Arrivals(steps: seq<Step>): seq<Note> {
    if steps == [] then [] else
      (if steps[0].Arrive? then [steps[0].note] else []) + Arrivals(steps[1..])
  }

  function Costs(steps: seq<Step>): nat {
    if steps == [] then 0 else Cost(steps[0]) + Costs(steps[1..])
  }

  /** Between arrivals there is only so much to do: the deliveries of a run are bounded by the measure
      of where it began and of what arrived. */
  lemma {:induction false} RunsEnd(s: State, steps: seq<Step>)
    requires Legal(s, steps)
    ensures |steps| - |Arrivals(steps)| + Measure(After(s, steps)) <= Measure(s) + Costs(steps)
    decreases |steps|
  {
    hide Measure, Apply, Enabled, Cost;
    if steps != [] {
      if steps[0].Arrive? {
        MeasureRises(s, steps[0]);
      } else {
        MeasureDrops(s, steps[0]);
      }
      RunsEnd(Apply(s, steps[0]), steps[1..]);
    }
  }

  // ----------------------------------------------------------------- what becomes of a message

  function Id(m: Note): (P.Letter, Header) { (m.letter, m.first) }

  /** Who is there: messages with the headers they came with. */
  function Ids(notes: seq<Note>): multiset<(P.Letter, Header)> {
    if notes == [] then multiset{} else Ids(notes[..|notes| - 1]) + multiset{Id(notes[|notes| - 1])}
  }

  function AllIds(s: State): multiset<(P.Letter, Header)> {
    Ids(s.waiting) + Ids(s.dead) + Ids(s.acked) + Ids(s.logged)
  }

  lemma {:induction false} IdsConcat(a: seq<Note>, b: seq<Note>)
    ensures Ids(a + b) == Ids(a) + Ids(b)
    decreases |b|
  {
    if b == [] {
      assert a + b == a;
    } else {
      assert (a + b)[..|a + b| - 1] == a + b[..|b| - 1];
      IdsConcat(a, b[..|b| - 1]);
    }
  }

  lemma IdsSnoc(notes: seq<Note>, m: Note)
    ensures Ids(notes + [m]) == Ids(notes) + multiset{Id(m)}
  {
    assert (notes + [m])[..|notes|] == notes;
  }

  lemma IdsWithout(notes: seq<Note>, i: nat)
    requires i < |notes|
    ensures Ids(notes) == Ids(Without(notes, i)) + multiset{Id(notes[i])}
  {
    hide Ids;
    var a, m, b := notes[..i], notes[i], notes[i + 1..];
    assert notes == (a + [m]) + b;
    IdsConcat(a + [m], b);
    IdsSnoc(a, m);
    IdsConcat(a, b);
  }

  lemma IdsDeliver(s: State, i: nat, succeeds: bool)
    requires i < |s.waiting|
    ensures AllIds(Apply(s, Deliver(i, succeeds))) == AllIds(s)
  {
    hide Ids, Without, DeliveryCount;
    var m := s.waiting[i];
    IdsWithout(s.waiting, i);
    if DeliveryCount(m.header) >= MAX_DELIVERY_ATTEMPTS {
      IdsSnoc(s.dead, m);
    } else if succeeds {
      IdsSnoc(s.acked, m.(runs := m.runs + 1));
    } else {
      IdsSnoc(Without(s.waiting, i), m.(runs := m.runs + 1, header := Raised(m.header)));
    }
  }

  lemma IdsLogDead(s: State, i: nat)
    requires i < |s.dead|
    ensures AllIds(Apply(s, LogDead(i))) == AllIds(s)
  {
    hide Ids, Without;
    IdsWithout(s.dead, i);
    IdsSnoc(s.logged, s.dead[i]);
  }

  lemma IdsArrive(s: State, m: Note)
    requires Untouched(m)
    ensures AllIds(Apply(s, Arrive(m))) == AllIds(s) + multiset{Id(m)}
  {
    hide Ids;
    IdsSnoc(s.waiting, m);
    IdsSnoc(s.dead, m);
  }

  lemma IdsStep(s: State, step: Step)
    requires Enabled(s, step)
    ensures AllIds(Apply(s, step)) == if step.Arrive? then AllIds(s) + multiset{Id(step.note)} else AllIds(s)
  {
    hide AllIds, Apply;
    match step
    case Deliver(i, succeeds) => IdsDeliver(s, i, succeeds);
    case LogDead(i) => IdsLogDead(s, i);
    case Arrive(m) => IdsArrive(s, m);
  }

  /** How often the processing function can still run on a message that arrived with this header. */
  function Allowance(h: Header): nat {
    if DeliveryCount(h) < MAX_DELIVERY_ATTEMPTS then MAX_DELIVERY_ATTEMPTS - DeliveryCount(h) else 0
  }

  /** The header tells the runs so far; an acknowledged message had between one run and its
      allowance, a dead one used its allowance up. */
  predicate Counted(s: State) {
    && (forall m :: m in s.waiting ==>
          Own(m) && DeliveryCount(m.header) == DeliveryCount(m.first) + m.runs && m.runs <= Allowance(m.first))
    && (forall m :: m in s.acked ==> Own(m) && 1 <= m.runs <= Allowance(m.first))
    && (forall m :: m in s.dead + s.logged && Own(m) ==>
          DeliveryCount(m.header) == DeliveryCount(m.first) + m.runs && m.runs == Allowance(m.first))
  }

  lemma CountedStep(s: State, step: Step)
    requires Counted(s) && Enabled(s, step)
    ensures Counted(Apply(s, step))
  {
    hide Without, P.ReadByNotifier;
    match step
    case Deliver(i, succeeds) => WithoutSize(s.waiting, i);
    case LogDead(i) => WithoutSize(s.dead, i);
    case Arrive(m) =>
  }

  lemma IdsNone()
    ensures Ids([]) == multiset{}
  {}

  /** Every run, with whatever arrives in it, keeps the counting and the messages. */
  lemma {:induction false} RunsKeep(s: State, steps: seq<Step>)
    requires Counted(s) && Legal(s, steps)
    ensures Counted(After(s, steps)) && AllIds(After(s, steps)) == AllIds(s) + Ids(Arrivals(steps))
    decreases |steps|
  {
    hide Counted, AllIds, Apply, Enabled, Ids;
    IdsNone();
    if steps == [] {
      assert AllIds(s) + multiset{} == AllIds(s);
    } else {
      var rest := Arrivals(steps[1..]);
      CountedStep(s, steps[0]);
      IdsStep(s, steps[0]);
      RunsKeep(Apply(s, steps[0]), steps[1..]);
      if steps[0].Arrive? {
        IdsConcat([steps[0].note], rest);
        IdsSnoc([], steps[0].note);
        assert [] + [steps[0].note] == [steps[0].note];
      } else {
        assert [] + rest == rest;
      }
    }
  }

  predicate Arrived(notes: seq<Note>) { forall m :: m in notes ==> Untouched(m) && Own(m) }

  lemma NotStuck(s: State)
    ensures s.waiting != [] || s.dead != [] ==> exists step: Step :: !step.Arrive? && Enabled(s, step)
  {
    if s.waiting != [] {
      assert Enabled(s, Deliver(0, true));
    } else if s.dead != [] {
      assert Enabled(s, LogDead(0));
    }
  }

  /** A run with nothing left to deliver has emptied both sides; every message, there from the start or
      arrived since, ended acknowledged or logged, in one place, after at most its allowance of runs,
      and the dead of the six queues used theirs up. */
  lemma Drained(notes: seq<Note>, steps: seq<Step>)
    requires Arrived(notes) && Legal(State(notes, [], [], []), steps)
    requires forall step: Step :: !step.Arrive? ==> !Enabled(After(State(notes, [], [], []), steps), step)
    ensures var s := After(State(notes, [], [], []), steps);
      && s.waiting == [] && s.dead == []
      && Ids(notes) + Ids(Arrivals(steps)) == Ids(s.acked) + Ids(s.logged)
      && (forall m :: m in s.acked ==> 1 <= m.runs <= Allowance(m.first))
      && (forall m :: m in s.logged && Own(m) ==>
            m.runs == Allowance(m.first) && DeliveryCount(m.header) == DeliveryCount(m.first) + m.runs)
  {
    hide Legal, After, Ids, Own;
    var s0 := State(notes, [], [], []);
    var s := After(s0, steps);
    RunsKeep(s0, steps);
    NotStuck(s);
    IdsNone();
    assert AllIds(s0) == Ids(notes);
    assert AllIds(s) == Ids(s.acked) + Ids(s.logged);
  }

  lemma {:induction false} IdsOf(notes: seq<Note>, h: (P.Letter, Header))
    ensures h in Ids(notes) <==> exists m :: m in notes && Id(m) == h
  {
    if notes != [] {
      var last := notes[|notes| - 1];
      IdsOf(notes[..|notes| - 1], h);
      if m :| m in notes && Id(m) == h {
        assert m in notes[..|notes| - 1] || m == last;
      }
    }
  }

  /** At any time, whatever has arrived: messages that had never been delivered before run at most
      twice, and exactly twice if they die; the log line that announces the death says three attempts. */
  lemma FreshBound(notes: seq<Note>, steps: seq<Step>, m: Note)
    requires Arrived(notes) && Legal(State(notes, [], [], []), steps)
    requires forall n :: n in notes + Arrivals(steps) ==> DeliveryCount(n.first) == 1
    ensures var s := After(State(notes, [], [], []), steps);
      && (m in s.waiting ==> m.runs <= MAX_DELIVERY_ATTEMPTS - 1)
      && (m in s.acked ==> 1 <= m.runs <= MAX_DELIVERY_ATTEMPTS - 1)
      && (m in s.dead + s.logged && Own(m) ==>
            m.runs == MAX_DELIVERY_ATTEMPTS - 1 && DeliveryCount(m.header) == MAX_DELIVERY_ATTEMPTS)
  {
    hide Legal, After, Ids, Enabled, Own;
    var s0 := State(notes, [], [], []);
    var s := After(s0, steps);
    RunsKeep(s0, steps);
    IdsNone();
    IdsConcat(notes, Arrivals(steps));
    if m in s.waiting || m in s.acked || m in s.dead || m in s.logged {
      IdsOf(s.waiting, Id(m));
      IdsOf(s.acked, Id(m));
      IdsOf(s.dead, Id(m));
      IdsOf(s.logged, Id(m));
      assert Id(m) in AllIds(s);
      IdsOf(notes + Arrivals(steps), Id(m));
    }
  }

  // ------------------------------------------------------------------------------ the service

  class NotificationService {
    var waiting: seq<Note>
    var dead: seq<Note>
    var acked: seq<Note>
    var logged: seq<Note>

    ghost function Snapshot(): State
      reads this
    {
      State(waiting, dead, acked, logged)
    }

    constructor (notes: seq<Note>)
      ensures Snapshot() == State(notes, [], [], [])
    {
      waiting, dead, acked, logged := notes, [], [], [];
    }

    method Receive(message: Note)
      requires Untouched(message)
      modifies this
      ensures Snapshot() == Apply(old(Snapshot()), Arrive(message))
    {
      if Own(message) {
        waiting := waiting + [message];
      } else {
        dead := dead + [message];
      }
    }

    /** One call of the handler with retry. */
    method HandleWithRetry(i: nat, succeeds: bool)
      requires i < |waiting|
      modifies this
      ensures Snapshot() == Apply(old(Snapshot()), Deliver(i, succeeds))
    {
      var message := waiting[i];
      waiting := Without(waiting, i);
      var delivery := DeliveryCount(message.header);
      if delivery >= MAX_DELIVERY_ATTEMPTS {
        dead := dead + [message];
        return;
      }
      message := message.(runs := message.runs + 1);
      if succeeds {
        acked := acked + [message];
      } else {
        waiting := waiting + [message.(header := Raised(message.header))];
      }
    }

    method HandleDlq(i: nat)
      requires i < |dead|
      modifies this
      ensures Snapshot() == Apply(old(Snapshot()), LogDead(i))
    {
      var message := dead[i];
      dead := Without(dead, i);
      logged := logged + [message];
    }
  }
}
