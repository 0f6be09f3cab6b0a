/**
 The vessel service. A request is one transaction on the vessel table with one publish inside it;
 a publish that throws rolls the row back, but a publish that was accepted cannot be recalled if
 the commit then fails. The log keeps every event the broker accepted, with that distinction.
 */
module Fleet {
  import opened Options
  import B = Broker

  type VesselId = nat

  datatype Status = Arriving | Berthed | Docked | Departing | Departed

  datatype Vessel = Vessel(name: string, imo: string, status: Status, berth: Option<string>, eta: Option<string>)

  datatype Event = Event(id: VesselId, name: string, imo: string, status: Status, berth: Option<string>,
                         eta: Option<string>)

  datatype Entry = Entry(event: Event, committed: bool)

  /** `nextId` stands for the generator of identifiers that never repeats itself. */
  datatype Fleet = Fleet(rows: map<VesselId, Vessel>, log: seq<Entry>, nextId: VesselId)

  /** What the outside decides about one transaction: whether the broker takes the event, if there
      is one to publish, and whether the commit succeeds. */
  datatype Fate = Fate(broker: bool, commit: bool)

  datatype Reply = Ok(vessel: Vessel) | NotFound | AlreadyExists | Failed

  /** `routingKeyFor`. */
  function RoutingKey(s: Status): Option<B.Key> {
    match s
    case Arriving => Some(B.ArrivedKey)
    case Docked => Some(B.DockedKey)
    case Departed => Some(B.DepartedKey)
    case Berthed => None
    case Departing => None
  }

  predicate Emits(s: Status) { RoutingKey(s).Some? }

  function EventOf(id: VesselId, v: Vessel): Event {
    Event(id, v.name, v.imo, v.status, v.berth, v.eta)
  }

  /** Save the row, publish, commit. */
  function Transact(f: Fleet, id: VesselId, v: Vessel, fate: Fate): (Fleet, Reply) {
    var sent := Emits(v.status);
    if sent && !fate.broker then (f, Failed) else
      var log := if sent then f.log + [Entry(EventOf(id, v), fate.commit)] else f.log;
      if fate.commit then (f.(rows := f.rows[id := v], log := log), Ok(v))
      else (f.(log := log), Failed)
  }

  datatype Request =
    | RegisterReq(name: string, imo: string, berth: Option<string>, eta: Option<string>)
    | UpdateReq(id: VesselId, status: Status, newBerth: Option<string>)
    | ReserveReq(id: VesselId, atBerth: string)
    | ReleaseReq(id: VesselId)

  /** The row a request is about. */
  function Target(f: Fleet, r: Request): VesselId {
    match r
    case RegisterReq(_, _, _, _) => f.nextId
    case UpdateReq(id, _, _) => id
    case ReserveReq(id, _) => id
    case ReleaseReq(id) => id
  }

  /** A second vessel under one IMO number, or a vessel that is not there. */
  predicate Refused(f: Fleet, r: Request) {
    if r.RegisterReq? then exists a :: a in f.rows && f.rows[a].imo == r.imo else Target(f, r) !in f.rows
  }

  /** The row a request asks for. */
  function Asked(f: Fleet, r: Request): Vessel
    requires !Refused(f, r)
  {
    match r
    case RegisterReq(name, imo, berth, eta) => Vessel(name, imo, Arriving, berth, eta)
    case UpdateReq(id, status, berth) =>
      var v := f.rows[id].(status := status);
      if berth.Some? then v.(berth := berth) else v
    case ReserveReq(id, berth) => f.rows[id].(status := Berthed, berth := Some(berth))
    case ReleaseReq(id) => f.rows[id].(status := Arriving, berth := None)
  }

  function Serve(f: Fleet, r: Request, fate: Fate): (Fleet, Reply) {
    if Refused(f, r) then (f, if r.RegisterReq? then AlreadyExists else NotFound) else
      Transact(if r.RegisterReq? then f.(nextId := f.nextId + 1) else f, Target(f, r), Asked(f, r), fate)
  }

  function Register(f: Fleet, name: string, imo: string, berth: Option<string>, eta: Option<string>, fate: Fate)
    : (Fleet, Reply)
  {
    Serve(f, RegisterReq(name, imo, berth, eta), fate)
  }

  function UpdateStatus(f: Fleet, id: VesselId, status: Status, berth: Option<string>, fate: Fate): (Fleet, Reply) {
    Serve(f, UpdateReq(id, status, berth), fate)
  }

  function Reserve(f: Fleet, id: VesselId, berth: string, fate: Fate): (Fleet, Reply) {
    Serve(f, ReserveReq(id, berth), fate)
  }

  function Release(f: Fleet, id: VesselId, fate: Fate): (Fleet, Reply) {
    Serve(f, ReleaseReq(id), fate)
  }

  /** A request that is not answered well changes no row. One that is changes its own row: to the
      status and berth asked for, the rest of the vessel staying what it was. */
  lemma ServeEffect(f: Fleet, r: Request, fate: Fate)
    ensures var (g, reply) := Serve(f, r, fate);
      var id := Target(f, r);
      && (!reply.Ok? ==> g.rows == f.rows)
      && (reply.AlreadyExists? <==> r.RegisterReq? && exists a :: a in f.rows && f.rows[a].imo == r.imo)
      && (reply.NotFound? <==> !r.RegisterReq? && id !in f.rows)
      && (reply.Ok? ==>
            var v := reply.vessel;
            && g.rows == f.rows[id := v] && fate.commit
            && (!r.RegisterReq? ==>
                  id in f.rows && v.name == f.rows[id].name && v.imo == f.rows[id].imo && v.eta == f.rows[id].eta)
            && (r.RegisterReq? ==> v == Vessel(r.name, r.imo, Arriving, r.berth, r.eta))
            && (r.UpdateReq? ==> v.status == r.status)
            && (r.UpdateReq? ==> v.berth == if r.newBerth.Some? then r.newBerth else f.rows[id].berth)
            && (r.ReserveReq? ==> v.status == Berthed && v.berth == Some(r.atBerth))
            && (r.ReleaseReq? ==> v.status == Arriving && v.berth == None)
            && (Emits(v.status) ==> g.log == f.log + [Entry(EventOf(id, v), true)])
            && (!Emits(v.status) ==> g.log == f.log))
  {}

  // ------------------------------------------------------------------- invariants

  predicate UniqueImo(f: Fleet) {
    forall a, b :: a in f.rows && b in f.rows && f.rows[a].imo == f.rows[b].imo ==> a == b
  }

  /** The last entry about `id`; with `sure`, the last that was committed. */
  function LastEntry(log: seq<Entry>, id: VesselId, sure: bool): (r: Option<Entry>)
    ensures r.Some? ==> r.value in log && r.value.event.id == id && (sure ==> r.value.committed)
    ensures r.None? ==> forall e :: e in log && e.event.id == id ==> sure && !e.committed
  {
    if log == [] then None else
      var e := log[|log| - 1];
      if e.event.id == id && (sure ==> e.committed) then Some(e) else LastEntry(log[..|log| - 1], id, sure)
  }

  lemma LastEntrySnoc(log: seq<Entry>, e: Entry, id: VesselId, sure: bool)
    ensures LastEntry(log + [e], id, sure)
         == if e.event.id == id && (sure ==> e.committed) then Some(e) else LastEntry(log, id, sure)
  {
    assert (log + [e])[..|log|] == log;
  }

  /** A row whose status is announced agrees with the last committed announcement; identifiers not
      yet handed out occur nowhere. */
  predicate Announced(f: Fleet) {
    && (forall id :: id in f.rows && Emits(f.rows[id].status) ==>
          LastEntry(f.log, id, true) == Some(Entry(EventOf(id, f.rows[id]), true)))
    && (forall id :: id in f.rows ==> id < f.nextId)
    && (forall e :: e in f.log ==> e.event.id < f.nextId)
  }

  lemma TransactAnnounces(f: Fleet, id: VesselId, v: Vessel, fate: Fate)
    requires Announced(f) && id < f.nextId
    ensures Announced(Transact(f, id, v, fate).0)
  {
    hide LastEntry;
    var f' := Transact(f, id, v, fate).0;
    if f'.log != f.log {
      var e := Entry(EventOf(id, v), fate.commit);
      assert f'.log == f.log + [e];
      forall a | a in f'.rows && Emits(f'.rows[a].status)
        ensures LastEntry(f'.log, a, true) == Some(Entry(EventOf(a, f'.rows[a]), true))
      {
        LastEntrySnoc(f.log, e, a, true);
      }
    }
  }

  lemma AnnouncedGrows(f: Fleet)
    requires Announced(f)
    ensures Announced(f.(nextId := f.nextId + 1))
  {}

  lemma KnownId(f: Fleet, id: VesselId)
    requires Announced(f) && id in f.rows
    ensures id < f.nextId
  {}

  lemma TransactRows(f: Fleet, id: VesselId, v: Vessel, fate: Fate)
    ensures Transact(f, id, v, fate).0.rows in {f.rows, f.rows[id := v]}
  {}

  /** What every request keeps. */
  lemma ServeKeeps(f: Fleet, r: Request, fate: Fate)
    requires UniqueImo(f) && Announced(f)
    ensures UniqueImo(Serve(f, r, fate).0) && Announced(Serve(f, r, fate).0)
  {
    hide LastEntry, Transact, Announced, Emits;
    if !Refused(f, r) {
      var g := if r.RegisterReq? then f.(nextId := f.nextId + 1) else f;
      AnnouncedGrows(f);
      if !r.RegisterReq? {
        KnownId(f, Target(f, r));
      }
      TransactAnnounces(g, Target(f, r), Asked(f, r), fate);
      TransactRows(g, Target(f, r), Asked(f, r), fate);
    }
  }

  /** Any sequence of requests, each with its own fate. */
  function ServeAll(f: Fleet, rs: seq<(Request, Fate)>): Fleet
    decreases |rs|
  {
    if rs == [] then f else ServeAll(Serve(f, rs[0].0, rs[0].1).0, rs[1..])
  }

  const NO_VESSELS := Fleet(map[], [], 0)

  lemma {:induction false} ServeAllKeeps(f: Fleet, rs: seq<(Request, Fate)>)
    requires UniqueImo(f) && Announced(f)
    ensures UniqueImo(ServeAll(f, rs)) && Announced(ServeAll(f, rs))
    decreases |rs|
  {
    hide UniqueImo, Announced, Serve;
    if rs != [] {
      ServeKeeps(f, rs[0].0, rs[0].1);
      ServeAllKeeps(Serve(f, rs[0].0, rs[0].1).0, rs[1..]);
    }
  }

  // --------------------------------------------------------------- what a listener has heard

  /** A vessel whose status is announced was last heard of as what it is. */
  predicate Heard(f: Fleet, id: VesselId) {
    id in f.rows && Emits(f.rows[id].status) ==>
      var last := LastEntry(f.log, id, false);
      last.Some? && last.value.event == EventOf(id, f.rows[id])
  }

  /** A request misleads when its event goes out, its commit fails, and the row that stays is an
      announced one different from the row that was asked for. */
  predicate Misleads(f: Fleet, r: Request, fate: Fate) {
    && !r.RegisterReq? && Target(f, r) in f.rows
    && Emits(f.rows[Target(f, r)].status) && Emits(Asked(f, r).status)
    && fate.broker && !fate.commit
    && Asked(f, r) != f.rows[Target(f, r)]
  }

  /** A request decides what is heard of `id` when its event about it goes out, or when it silently
      moves it to a status without announcement. */
  predicate Decides(f: Fleet, r: Request, fate: Fate, id: VesselId) {
    && id == Target(f, r) && !Refused(f, r)
    && if Emits(Asked(f, r).status) then fate.broker else fate.commit
  }

  /** After a request, what was last heard of a vessel is true if and only if the request did not
      mislead, where it decides; and is as true as before where it does not. */
  lemma HeardStep(f: Fleet, r: Request, fate: Fate, id: VesselId)
    requires Announced(f)
    ensures Heard(Serve(f, r, fate).0, id) <==> if Decides(f, r, fate, id) then !Misleads(f, r, fate) else Heard(f, id)
  {
    hide LastEntry, Asked;
    if !Refused(f, r) {
      var e := Entry(EventOf(Target(f, r), Asked(f, r)), fate.commit);
      LastEntrySnoc(f.log, e, id, false);
    }
  }

  lemma {:induction false} ServeAllConcat(f: Fleet, a: seq<(Request, Fate)>, b: seq<(Request, Fate)>)
    ensures ServeAll(f, a + b) == ServeAll(ServeAll(f, a), b)
    decreases |a|
  {
    hide Serve;
    if a == [] {
      assert a + b == b;
    } else {
      assert (a + b)[0] == a[0] && (a + b)[1..] == a[1..] + b;
      ServeAllConcat(Serve(f, a[0].0, a[0].1).0, a[1..], b);
    }
  }

  predicate MisleadsAt(f: Fleet, rs: seq<(Request, Fate)>, id: VesselId, k: nat)
    requires k < |rs|
  {
    var g := ServeAll(f, rs[..k]);
    id == Target(g, rs[k].0) && Misleads(g, rs[k].0, rs[k].1)
  }

  predicate DecidesAt(f: Fleet, rs: seq<(Request, Fate)>, id: VesselId, k: nat)
    requires k < |rs|
  {
    Decides(ServeAll(f, rs[..k]), rs[k].0, rs[k].1, id)
  }

  /** The `k`-th request misled about `id`, and none after it set that right. */
  predicate MisledBy(f: Fleet, rs: seq<(Request, Fate)>, id: VesselId, k: nat)
    requires k < |rs|
  {
    MisleadsAt(f, rs, id, k) && forall j :: k < j < |rs| ==> !DecidesAt(f, rs, id, j)
  }

  lemma Prefixes(f: Fleet, rs: seq<(Request, Fate)>, id: VesselId, n: nat, k: nat)
    requires k < n <= |rs|
    ensures MisleadsAt(f, rs[..n], id, k) == MisleadsAt(f, rs, id, k)
    ensures DecidesAt(f, rs[..n], id, k) == DecidesAt(f, rs, id, k)
  {
    hide Misleads, Decides, Target, ServeAll;
    assert rs[..n][..k] == rs[..k];
  }

  lemma MisleadingDecides(f: Fleet, rs: seq<(Request, Fate)>, id: VesselId, k: nat)
    requires k < |rs|
    ensures MisleadsAt(f, rs, id, k) ==> DecidesAt(f, rs, id, k)
  {
    hide ServeAll;
  }

  lemma MisledBefore(f: Fleet, rs: seq<(Request, Fate)>, id: VesselId, k: nat)
    requires k < |rs| - 1 && !DecidesAt(f, rs, id, |rs| - 1)
    ensures MisledBy(f, rs, id, k) == MisledBy(f, rs[..|rs| - 1], id, k)
  {
    hide MisleadsAt, DecidesAt;
    var n := |rs| - 1;
    var before := rs[..n];
    Prefixes(f, rs, id, n, k);
    forall j | 0 <= j < n ensures DecidesAt(f, before, id, j) == DecidesAt(f, rs, id, j) {
      Prefixes(f, rs, id, n, j);
    }
    if MisledBy(f, before, id, k) {
      forall j | k < j < |rs| ensures !DecidesAt(f, rs, id, j) {
        assert j < n ==> !DecidesAt(f, before, id, j);
      }
    }
    if MisledBy(f, rs, id, k) {
      assert forall j :: k < j < n ==> !DecidesAt(f, rs, id, j);
    }
  }

  lemma ServeOne(f: Fleet, x: (Request, Fate))
    ensures ServeAll(f, [x]) == Serve(f, x.0, x.1).0
  {
    hide Serve;
    assert [x][1..] == [];
  }

  /** The last request of a run. */
  lemma HeardLast(f: Fleet, rs: seq<(Request, Fate)>, id: VesselId)
    requires rs != [] && Announced(ServeAll(f, rs[..|rs| - 1]))
    ensures var n := |rs| - 1;
      Heard(ServeAll(f, rs), id) <==>
      if DecidesAt(f, rs, id, n) then !MisleadsAt(f, rs, id, n) else Heard(ServeAll(f, rs[..n]), id)
  {
    hide Announced, Heard, Misleads, Serve, Refused, Asked, Target, ServeAll;
    var n := |rs| - 1;
    var g := ServeAll(f, rs[..n]);
    assert rs == rs[..n] + [rs[n]];
    ServeAllConcat(f, rs[..n], [rs[n]]);
    ServeOne(g, rs[n]);
    HeardStep(g, rs[n].0, rs[n].1, id);
  }

  /** Over any run of requests: a vessel was last heard of as what it is if and only if no request
      misled about it, or a later one set it right. */
  lemma {:induction false} HeardIff(f: Fleet, rs: seq<(Request, Fate)>, id: VesselId)
    requires UniqueImo(f) && Announced(f) && Heard(f, id)
    ensures Heard(ServeAll(f, rs), id) <==> !exists k :: 0 <= k < |rs| && MisledBy(f, rs, id, k)
    decreases |rs|
  {
    hide UniqueImo, Announced, Heard, Misleads, Decides, Serve, Target, MisleadsAt, DecidesAt;
    if rs != [] {
      var n := |rs| - 1;
      var before := rs[..n];
      HeardIff(f, before, id);
      ServeAllKeeps(f, before);
      HeardLast(f, rs, id);
      if DecidesAt(f, rs, id, n) {
        assert MisledBy(f, rs, id, n) <==> MisleadsAt(f, rs, id, n);
      } else {
        MisleadingDecides(f, rs, id, n);
        forall k | 0 <= k < n ensures MisledBy(f, rs, id, k) == MisledBy(f, before, id, k) {
          MisledBefore(f, rs, id, k);
        }
      }
    }
  }

  /** When no commit fails after an accepted publish, the log never misleads. */
  lemma LogIsTrue(rs: seq<(Request, Fate)>, id: VesselId)
    requires forall x :: x in rs && x.1.broker ==> x.1.commit
    ensures Heard(ServeAll(NO_VESSELS, rs), id)
  {
    hide LastEntry, ServeAll, Asked, Target;
    HeardIff(NO_VESSELS, rs, id);
    forall k | 0 <= k < |rs| ensures !MisledBy(NO_VESSELS, rs, id, k) {
      assert rs[k] in rs;
    }
  }

  /** One commit that fails after its event was accepted is enough to mislead. */
  lemma LogMisleads(name: string, imo: string)
    ensures var good, bad := Fate(true, true), Fate(true, false);
      var f := Serve(Serve(NO_VESSELS, RegisterReq(name, imo, None, None), good).0, UpdateReq(0, Docked, None), bad).0;
      !Heard(f, 0)
  {
    hide LastEntry;
    var f := Serve(NO_VESSELS, RegisterReq(name, imo, None, None), Fate(true, true)).0;
    ServeKeeps(NO_VESSELS, RegisterReq(name, imo, None, None), Fate(true, true));
    HeardStep(f, UpdateReq(0, Docked, None), Fate(true, false), 0);
  }
}
