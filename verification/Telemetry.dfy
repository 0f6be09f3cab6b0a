/** The telemetry service: which readings are accepted, and the event an accepted one becomes. */
module Telemetry {
  import opened Options
  import opened Text
  import opened Blank

  datatype Payload = Payload(droneId: string, sector: string, count: int, capacity: int,
                             blockage: bool, timestamp: string, vesselEta: Option<string>)

  datatype Reading = Reading(correlationId: string, sector: string, fill: real, blockage: bool,
                             droneId: string, vesselEta: Option<string>, timestamp: string)

  /** The message of the first check that fails. */
  function Refusal(p: Payload): Option<string> {
    if !GoHasText(p.droneId) then Some("droneId must not be blank")
    else if !GoHasText(p.sector) then Some("sector must not be blank")
    else if p.count < 0 then Some("containerCount must be >= 0")
    else if p.capacity <= 0 then Some("capacity must be > 0")
    else if p.count > p.capacity then Some("containerCount must not exceed capacity")
    else if !GoHasText(p.timestamp) then Some("timestamp must not be blank")
    else None
  }

  /** The event of an accepted payload; a blank header is replaced by a fresh identifier. */
  function Event(p: Payload, header: string, newId: string): Reading
    requires p.capacity != 0
  {
    var id := Trim(header, IsGoSpace);
    Reading(if id == "" then newId else id, p.sector, p.count as real / p.capacity as real, p.blockage,
            p.droneId, p.vesselEta, p.timestamp)
  }

  /** The payloads that are accepted, said without an order of checks. */
  lemma RefusalIff(p: Payload)
    ensures Refusal(p) == None <==>
      GoHasText(p.droneId) && GoHasText(p.sector) && GoHasText(p.timestamp)
      && 0 <= p.count <= p.capacity && p.capacity > 0
  {}

  lemma QuotientMonotone(a: real, b: real, x: real, y: real)
    requires 0.0 <= a <= x && 0.0 < y <= b
    ensures a / b <= x / y
  {
    var p, q := a / b, x / y;
    assert p * b == a && q * y == x;
    assert q >= 0.0;
    assert q * (b - y) >= 0.0;
    assert p * b <= q * b;
    assert (p - q) * b <= 0.0;
  }

  lemma FillMonotone(c1: int, k1: int, c2: int, k2: int)
    requires 0 <= c1 <= c2 && 0 < k2 <= k1
    ensures c1 as real / k1 as real <= c2 as real / k2 as real
  {
    QuotientMonotone(c1 as real, k1 as real, c2 as real, k2 as real);
  }

  /** The fill rate of an accepted payload is a rate. */
  lemma FillInRange(p: Payload, header: string, newId: string)
    requires Refusal(p) == None
    ensures 0.0 <= Event(p, header, newId).fill <= 1.0
  {
    hide Trim, GoHasText;
    FillMonotone(0, p.capacity, p.count, p.capacity);
    FillMonotone(p.count, p.capacity, p.capacity, p.capacity);
    var k := p.capacity as real;
    assert 0.0 / k == 0.0 && k / k == 1.0;
  }
}
