/** The vessel service as the object it is: a table, a broker it publishes to, and four writers. */
module Vessels {
  import opened Options
  import opened Fleet
  import Spec = Fleet

  /** A list answer: the rows of the asked status, each once, in whatever order the table gives. */
  predicate IsListing(list: seq<(VesselId, Vessel)>, rows: map<VesselId, Vessel>, status: Status) {
    && (forall i, j :: 0 <= i < j < |list| ==> list[i].0 != list[j].0)
    && (forall p :: p in list ==> p.0 in rows && rows[p.0] == p.1 && p.1.status == status)
    && (forall id :: id in rows && rows[id].status == status ==> (id, rows[id]) in list)
  }

  class VesselService {
    var rows: map<VesselId, Vessel>
    var log: seq<Entry>
    var nextId: VesselId

    ghost function State(): Fleet
      reads this
    {
      Fleet(rows, log, nextId)
    }

    constructor ()
      ensures State() == NO_VESSELS
    {
      rows, log, nextId := map[], [], 0;
    }

    /** The lifecycle producer: silent for two statuses, otherwise an event or an exception. */
    method Publish(id: VesselId, vessel: Vessel, fate: Fate) returns (thrown: bool)
      modifies this`log
      ensures thrown == (Emits(vessel.status) && !fate.broker)
      ensures log == if Emits(vessel.status) && fate.broker
                     then old(log) + [Entry(EventOf(id, vessel), fate.commit)] else old(log)
    {
      if !Emits(vessel.status) {
        return false;
      }
      if !fate.broker {
        return true;
      }
      log := log + [Entry(EventOf(id, vessel), fate.commit)];
      return false;
    }

    /** The common end of the four writers: save, publish, commit or roll back. */
    method SaveAndPublish(id: VesselId, vessel: Vessel, fate: Fate) returns (reply: Reply)
      modifies this`rows, this`log
      ensures (State(), reply) == Transact(old(State()), id, vessel, fate)
    {
      var before := rows;
      rows := rows[id := vessel];
      var thrown := Publish(id, vessel, fate);
      if thrown || !fate.commit {
        rows := before;
        return Failed;
      }
      return Ok(vessel);
    }

    method Register(name: string, imo: string, berth: Option<string>, eta: Option<string>, fate: Fate)
      returns (reply: Reply)
      modifies this
      ensures (State(), reply) == Spec.Register(old(State()), name, imo, berth, eta, fate)
    {
      if exists id :: id in rows && rows[id].imo == imo {
        return AlreadyExists;
      }
      var id := nextId;
      nextId := nextId + 1;
      reply := SaveAndPublish(id, Vessel(name, imo, Arriving, berth, eta), fate);
    }

    method UpdateStatus(id: VesselId, status: Status, berth: Option<string>, fate: Fate) returns (reply: Reply)
      modifies this
      ensures (State(), reply) == Spec.UpdateStatus(old(State()), id, status, berth, fate)
    {
      if id !in rows {
        return NotFound;
      }
      var vessel := rows[id];
      vessel := vessel.(status := status);
      if berth.Some? {
        vessel := vessel.(berth := berth);
      }
      reply := SaveAndPublish(id, vessel, fate);
    }

    method ReserveBerth(id: VesselId, berth: string, fate: Fate) returns (reply: Reply)
      modifies this
      ensures (State(), reply) == Reserve(old(State()), id, berth, fate)
    {
      if id !in rows {
        return NotFound;
      }
      var vessel := rows[id];
      vessel := vessel.(status := Berthed);
      vessel := vessel.(berth := Some(berth));
      reply := SaveAndPublish(id, vessel, fate);
    }

    method ReleaseBerth(id: VesselId, fate: Fate) returns (reply: Reply)
      modifies this
      ensures (State(), reply) == Release(old(State()), id, fate)
    {
      if id !in rows {
        return NotFound;
      }
      var vessel := rows[id];
      vessel := vessel.(status := Arriving);
      vessel := vessel.(berth := None);
      reply := SaveAndPublish(id, vessel, fate);
    }

    method ListByStatus(status: Status) returns (list: seq<(VesselId, Vessel)>)
      ensures IsListing(list, rows, status)
    {
      list := [];
      var rest := rows.Keys;
      while rest != {}
        invariant rest <= rows.Keys
        invariant forall i, j :: 0 <= i < j < |list| ==> list[i].0 != list[j].0
        invariant forall p :: p in list ==> p.0 in rows && p.0 !in rest && rows[p.0] == p.1 && p.1.status == status
        invariant forall id :: id in rows && id !in rest && rows[id].status == status ==> (id, rows[id]) in list
        decreases rest
      {
        var id :| id in rest;
        if rows[id].status == status {
          list := list + [(id, rows[id])];
        }
        rest := rest - {id};
      }
    }
  }
}
