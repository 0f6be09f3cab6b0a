/**
 The two services before the task service, as objects: telemetry comes in over HTTP and goes out as
 a message, a message comes in and goes out as an alert. Each runs the machine in a ghost field.
 */
module Intake {
  import opened Options
  import opened Text
  import opened Blank
  import opened Broker
  import opened Telemetry
  import opened Rules
  import opened Port

  datatype Response = BadRequest(reason: string) | BadGateway | Accepted(correlationId: string, event: Reading)

  class TelemetryService {
    var published: seq<Message>
    ghost var port: State

    ghost predicate Valid() reads this { port.h.accepted == published }

    constructor (ghost port: State)
      requires port.h.accepted == []
      ensures Valid() && this.port == port
    {
      published, this.port := [], port;
    }

    static method ValidateTelemetry(p: Payload) returns (error: Option<string>)
      ensures error == Refusal(p)
      ensures error.None? <==>
        && GoHasText(p.droneId) && GoHasText(p.sector) && GoHasText(p.timestamp)
        && 0 <= p.count <= p.capacity && p.capacity > 0
    {
      if !GoHasText(p.droneId) { return Some("droneId must not be blank"); }
      if !GoHasText(p.sector) { return Some("sector must not be blank"); }
      if p.count < 0 { return Some("containerCount must be >= 0"); }
      if p.capacity <= 0 { return Some("capacity must be > 0"); }
      if p.count > p.capacity { return Some("containerCount must not exceed capacity"); }
      if !GoHasText(p.timestamp) { return Some("timestamp must not be blank"); }
      return None;
    }

    method Publish(event: Reading, up: bool) returns (failed: bool)
      modifies `published
      ensures failed == !up
      ensures published == if up then old(published) + [Measured(event)] else old(published)
    {
      if up {
        published := published + [Measured(event)];
      }
      return !up;
    }

    method HandleIngest(p: Payload, header: string, newId: string, up: bool) returns (r: Response)
      requires Valid()
      modifies this
      ensures Valid() && port == DoIngest(old(port), p, header, newId, up)
      ensures r.Accepted? <==> published != old(published)
      ensures r.Accepted? ==>
        && published == old(published) + [Measured(r.event)] && r.event.correlationId == r.correlationId
        && 0.0 <= r.event.fill <= 1.0 && r.event.sector == p.sector
        && (newId != "" ==> r.correlationId != "")
      ensures r.BadRequest? <==> Refusal(p).Some?
    {
      hide GoHasText, Trim, Refusal;
      var error := ValidateTelemetry(p);
      if error.Some? {
        port := DoIngest(port, p, header, newId, up);
        return BadRequest(error.value);
      }
      var correlationId := Trim(header, IsGoSpace);
      if correlationId == "" {
        correlationId := newId;
      }
      var event := Reading(correlationId, p.sector, p.count as real / p.capacity as real, p.blockage,
                           p.droneId, p.vesselEta, p.timestamp);
      assert event == Event(p, header, newId);
      FillInRange(p, header, newId);
      var failed := Publish(event, up);
      port := DoIngest(port, p, header, newId, up);
      if failed {
        return BadGateway;
      }
      return Accepted(correlationId, event);
    }
  }

  class CongestionService {
    const thresholds: Thresholds
    var inbox: seq<Message>
    var published: seq<Message>
    ghost var port: State

    ghost predicate Valid() reads this {
      port.queues(TelemetryProcessed) == inbox && port.h.published == published
    }

    constructor (thresholds: Thresholds, ghost port: State, inbox: seq<Message>)
      requires port.queues(TelemetryProcessed) == inbox && port.h.published == []
      ensures Valid() && this.thresholds == thresholds && this.port == port
    {
      this.thresholds, this.inbox, published, this.port := thresholds, inbox, [], port;
    }

    method Publish(alert: Alert, up: bool) returns (thrown: bool)
      modifies `published
      ensures thrown == !up
      ensures published == if up then old(published) + [Alerted(alert)] else old(published)
    {
      if up {
        published := published + [Alerted(alert)];
      }
      return !up;
    }

    /** The listener takes the first reading; an exception rejects it, and the broker then
        dead-letters it. */
    method OnTelemetryReceived(up: bool) returns (thrown: bool)
      requires Valid() && inbox != [] && inbox[0].Measured?
      modifies this
      ensures Valid() && inbox == old(inbox)[1..] && port == DoAnalyse(thresholds, old(port), up)
      ensures thrown <==> Evaluate(thresholds, old(inbox)[0].reading).Some? && !up
      ensures thrown <==> port.h.dead == old(port.h.dead) + [Dead(TelemetryProcessed, old(inbox)[0])]
      ensures published == old(published)
        + if Evaluate(thresholds, old(inbox)[0].reading).Some? && up
          then [Alerted(Evaluate(thresholds, old(inbox)[0].reading).value)] else []
    {
      hide Evaluate;
      var event := inbox[0].reading;
      inbox := inbox[1..];
      var alert := Evaluate(thresholds, event);
      thrown := false;
      if alert.Some? {
        thrown := Publish(alert.value, up);
      }
      port := DoAnalyse(thresholds, port, up);
    }
  }
}
