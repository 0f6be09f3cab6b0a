/**
 From reading to alert to unit: the congestion rules, and the two string tests by which the task
 service turns an alert into a unit and a priority.
 */
module Rules {
  import opened Options
  import opened Blank
  import opened Telemetry

  datatype Thresholds = Thresholds(critical: real, warning: real)

  datatype Alert = Alert(correlationId: string, alertType: string, sector: string, severity: string,
                         fill: real, action: string)

  function BuildAlert(e: Reading, alertType: string, severity: string, action: string): Alert {
    Alert(e.correlationId, alertType, e.sector, severity, e.fill, action)
  }

  function Evaluate(th: Thresholds, e: Reading): Option<Alert> {
    if e.blockage && HasText(e.vesselEta) then Some(BuildAlert(e, "IMMEDIATE_ACTION", "HIGH", "HOLD_VESSEL"))
    else if e.fill > th.critical then Some(BuildAlert(e, "SECTOR_CRITICAL", "HIGH", "REDIRECT_CRANE"))
    else if e.fill > th.warning then Some(BuildAlert(e, "SECTOR_WARNING", "MEDIUM", "MONITOR_SECTOR"))
    else None
  }

  // ---------------------------------------------------------------- the task service

  predicate ValidAlert(a: Alert) { HasText(Some(a.sector)) && HasText(Some(a.alertType)) }

  /** `Character.toUpperCase`, as far as it yields ASCII letters. */
  function UpperChar(c: char): char {
    if 'a' <= c <= 'z' then (c as int - 32) as char
    else if c == '\U{131}' then 'I'
    else if c == '\U{17F}' then 'S'
    else c
  }

  function Upper(s: string): (r: string)
    ensures |r| == |s| && forall i :: 0 <= i < |s| ==> r[i] == UpperChar(s[i])
  {
    if s == "" then "" else [UpperChar(s[0])] + Upper(s[1..])
  }

  /** `String.equalsIgnoreCase`: equal in upper case, or in lower case of the upper case. */
  predicate SameLetter(c: char, d: char) {
    || UpperChar(c) == UpperChar(d)
    || (c == '\U{130}' && UpperChar(d) == 'I')
    || (UpperChar(c) == 'I' && d == '\U{130}')
  }

  predicate EqualsIgnoreCase(s: string, t: string) {
    |s| == |t| && forall i :: 0 <= i < |s| ==> SameLetter(s[i], t[i])
  }

  datatype Unit = Team | Crane | Emergency

  function UnitOf(a: Alert): Unit {
    if Upper(a.alertType) == "IMMEDIATE_ACTION" then Emergency
    else if Upper(a.alertType) == "SECTOR_CRITICAL" || EqualsIgnoreCase("HIGH", a.severity) then Crane
    else Team
  }

  function UnitName(u: Unit): string {
    match u case Emergency => "Emergency-Team-" case Crane => "Crane-" case Team => "Team-"
  }

  /** The first berth with text in it. */
  function FirstBerth(berths: seq<Option<string>>): (r: Option<string>)
    ensures r.Some? ==> r in berths && HasText(r)
    ensures r.None? ==> forall b :: b in berths ==> !HasText(b)
  {
    if berths == [] then None
    else if HasText(berths[0]) then berths[0]
    else FirstBerth(berths[1..])
  }

  function AssignedUnit(a: Alert, berths: seq<Option<string>>): string {
    UnitName(UnitOf(a)) + match FirstBerth(berths) case None => "1" case Some(b) => b
  }

  function Priority(severity: string): string {
    if !HasText(Some(severity)) then "LOW" else
      var s := Upper(severity);
      if s == "HIGH" || s == "MEDIUM" || s == "LOW" then s else "LOW"
  }

  // ------------------------------------------------------------------------ what holds

  /** The alert a reading yields carries the reading's identity and its fill. */
  lemma AlertOf(th: Thresholds, e: Reading)
    ensures Evaluate(th, e).Some? ==>
      var a := Evaluate(th, e).value;
      && a.correlationId == e.correlationId && a.sector == e.sector && a.fill == e.fill
      && (a.action == "HOLD_VESSEL" <==> e.blockage && HasText(e.vesselEta))
      && (a.severity == "MEDIUM" <==> a.action == "MONITOR_SECTOR")
      && (a.severity == "HIGH" <==> a.action != "MONITOR_SECTOR")
    ensures Evaluate(th, e).None? <==>
      !(e.blockage && HasText(e.vesselEta)) && e.fill <= th.critical && e.fill <= th.warning
  {
    assert "HIGH"[0] == 'H' && "MEDIUM"[0] == 'M';
    assert "HOLD_VESSEL"[0] == 'H' && "REDIRECT_CRANE"[0] == 'R' && "MONITOR_SECTOR"[0] == 'M';
  }

  lemma TypeHasText()
    ensures HasText(Some("IMMEDIATE_ACTION")) && HasText(Some("SECTOR_CRITICAL")) && HasText(Some("SECTOR_WARNING"))
  {
    assert "IMMEDIATE_ACTION"[0] == 'I' && "SECTOR_CRITICAL"[0] == 'S' && "SECTOR_WARNING"[0] == 'S';
    assert 'I' in "IMMEDIATE_ACTION" && 'S' in "SECTOR_CRITICAL" && 'S' in "SECTOR_WARNING";
  }

  lemma ValidIff(th: Thresholds, e: Reading)
    requires Evaluate(th, e).Some?
    ensures ValidAlert(Evaluate(th, e).value) <==> HasText(Some(e.sector))
  {
    hide HasText;
    TypeHasText();
  }

  /** An alert from an accepted reading is refused downstream exactly when its sector is white space
      that the telemetry service let through for an information separator in it. */
  lemma AcceptedAlertRefusedIff(th: Thresholds, p: Payload, header: string, newId: string)
    requires Refusal(p) == None && Evaluate(th, Event(p, header, newId)).Some?
    ensures !ValidAlert(Evaluate(th, Event(p, header, newId)).value) <==>
      (forall c :: c in p.sector ==> IsGoSpace(c) || IsSeparator(c))
      && (forall c :: c in p.sector ==> c != '\U{85}' && c != '\U{A0}' && c != '\U{2007}' && c != '\U{202F}')
      && exists c :: c in p.sector && IsSeparator(c)
  {
    hide HasText, GoHasText, IsGoSpace, IsSeparator, Evaluate, ValidAlert, Refusal;
    RefusalIff(p);
    ValidIff(th, Event(p, header, newId));
    BlankGap(p.sector);
  }

  /** The case is not empty. */
  lemma AcceptedAlertRefused(th: Thresholds)
    returns (p: Payload)
    requires th.critical < 1.0
    ensures Refusal(p) == None && Evaluate(th, Event(p, "", "id")).Some?
    ensures !ValidAlert(Evaluate(th, Event(p, "", "id")).value)
  {
    p := Payload("d", "\U{1F}", 1, 1, false, "t", None);
    assert 'd' in p.droneId && '\U{1F}' in p.sector && 't' in p.timestamp;
    assert 1.0 / 1.0 == 1.0;
    AcceptedAlertRefusedIff(th, p, "", "id");
  }

  // ------------------------------------------------------------------------- urgency

  function UnitRank(a: Option<Alert>): nat {
    if a.None? then 0 else match UnitOf(a.value) case Team => 1 case Crane => 2 case Emergency => 3
  }

  function PriorityRank(a: Option<Alert>): nat {
    if a.None? then 0 else
      var p := Priority(a.value.severity);
      if p == "HIGH" then 3 else if p == "MEDIUM" then 2 else 1
  }

  lemma UpperFixed(s: string)
    requires forall i :: 0 <= i < |s| ==> 'A' <= s[i] <= 'Z' || s[i] == '_'
    ensures Upper(s) == s
  {
    hide Upper;
    assert |Upper(s)| == |s| && forall i :: 0 <= i < |s| ==> Upper(s)[i] == s[i];
  }

  lemma HighText()
    ensures Priority("HIGH") == "HIGH"
  {
    hide Upper;
    assert "HIGH"[0] == 'H' && 'H' in "HIGH";
    UpperFixed("HIGH");
  }

  lemma MediumText()
    ensures Priority("MEDIUM") == "MEDIUM" && !EqualsIgnoreCase("HIGH", "MEDIUM")
  {
    hide Upper;
    assert "MEDIUM"[0] == 'M' && 'M' in "MEDIUM";
    UpperFixed("MEDIUM");
  }

  lemma EmergencyRank(a: Alert)
    requires a.alertType == "IMMEDIATE_ACTION"
    ensures UnitOf(a) == Emergency
  {
    hide EqualsIgnoreCase, Upper;
    UpperFixed("IMMEDIATE_ACTION");
  }

  lemma CriticalRank(a: Alert)
    requires a.alertType == "SECTOR_CRITICAL"
    ensures UnitOf(a) == Crane
  {
    hide EqualsIgnoreCase, Upper;
    UpperFixed("SECTOR_CRITICAL");
    assert Upper(a.alertType)[0] == 'S' && "IMMEDIATE_ACTION"[0] == 'I';
  }

  lemma WarningRank(a: Alert)
    requires a.alertType == "SECTOR_WARNING" && a.severity == "MEDIUM"
    ensures UnitOf(a) == Team
  {
    hide EqualsIgnoreCase, Upper, Priority;
    MediumText();
    var t := Upper(a.alertType);
    assert t[0] == 'S' && "IMMEDIATE_ACTION"[0] == 'I';
    assert t[7] == 'W' && "SECTOR_CRITICAL"[7] == 'C';
  }

  /** What a reading leads to, in one line per quantity. */
  lemma Ranks(th: Thresholds, e: Reading)
    ensures var a := Evaluate(th, e);
      var blocked := e.blockage && HasText(e.vesselEta);
      && UnitRank(a) ==
           (if blocked then 3 else if e.fill > th.critical then 2 else if e.fill > th.warning then 1 else 0)
      && PriorityRank(a) == (if blocked || e.fill > th.critical then 3 else if e.fill > th.warning then 2 else 0)
  {
    hide Priority, UnitOf, HasText;
    HighText();
    MediumText();
    if Evaluate(th, e).Some? {
      var a := Evaluate(th, e).value;
      if e.blockage && HasText(e.vesselEta) {
        EmergencyRank(a);
      } else if e.fill > th.critical {
        CriticalRank(a);
      } else {
        WarningRank(a);
      }
    }
  }

  /** More containers or less room never makes the answer less urgent, whatever the thresholds. */
  lemma UrgencyMonotone(th: Thresholds, p: Payload, q: Payload, h1: string, f1: string, h2: string, f2: string)
    requires Refusal(p) == None && Refusal(q) == None
    requires p.blockage == q.blockage && p.vesselEta == q.vesselEta
    requires p.count <= q.count && q.capacity <= p.capacity
    ensures UnitRank(Evaluate(th, Event(p, h1, f1))) <= UnitRank(Evaluate(th, Event(q, h2, f2)))
    ensures PriorityRank(Evaluate(th, Event(p, h1, f1))) <= PriorityRank(Evaluate(th, Event(q, h2, f2)))
  {
    hide Evaluate, UnitRank, PriorityRank, HasText;
    FillMonotone(p.count, p.capacity, q.count, q.capacity);
    Ranks(th, Event(p, h1, f1));
    Ranks(th, Event(q, h2, f2));
  }

  // --------------------------------------------------------------- two tests of one severity

  /** `HIGH` with a capital I that has a dot, and the other letters in either case. */
  predicate IsDottedHigh(s: string) {
    |s| == 4 && UpperChar(s[0]) == 'H' && s[1] == '\U{130}' && UpperChar(s[2]) == 'G' && UpperChar(s[3]) == 'H'
  }

  lemma UpperIsHigh(s: string)
    ensures Upper(s) == "HIGH" <==>
      |s| == 4 && UpperChar(s[0]) == 'H' && UpperChar(s[1]) == 'I' && UpperChar(s[2]) == 'G' && UpperChar(s[3]) == 'H'
  {
    hide Upper, UpperChar;
    if |s| == 4 {
      var u := Upper(s);
      assert u == [u[0], u[1], u[2], u[3]];
      assert "HIGH" == ['H', 'I', 'G', 'H'];
    }
  }

  lemma SameAsHigh(s: string)
    ensures EqualsIgnoreCase("HIGH", s) <==>
      && |s| == 4 && UpperChar(s[0]) == 'H' && (UpperChar(s[1]) == 'I' || s[1] == '\U{130}')
      && UpperChar(s[2]) == 'G' && UpperChar(s[3]) == 'H'
  {
    var h := "HIGH";
    assert h[0] == 'H' && h[1] == 'I' && h[2] == 'G' && h[3] == 'H';
    if |s| == 4 {
      assert EqualsIgnoreCase(h, s) <==>
        SameLetter(h[0], s[0]) && SameLetter(h[1], s[1]) && SameLetter(h[2], s[2]) && SameLetter(h[3], s[3]);
    }
  }

  lemma HighHasText(s: string)
    requires |s| == 4 && UpperChar(s[0]) == 'H'
    ensures HasText(Some(s))
  {
    assert s[0] in s;
  }

  lemma DottedIsNotPlain(s: string)
    ensures IsDottedHigh(s) ==> UpperChar(s[1]) != 'I'
  {}

  /** The unit test and the priority test of one severity disagree on one word only: the severity
      that earns a crane has high priority, unless its I is dotted. */
  lemma SeverityTestsAgree(severity: string)
    ensures Priority(severity) in {"HIGH", "MEDIUM", "LOW"}
    ensures Priority(severity) == "HIGH" ==> EqualsIgnoreCase("HIGH", severity)
    ensures EqualsIgnoreCase("HIGH", severity) && Priority(severity) != "HIGH" <==> IsDottedHigh(severity)
  {
    hide Upper, EqualsIgnoreCase, UpperChar;
    UpperIsHigh(severity);
    SameAsHigh(severity);
    assert "HIGH"[0] == 'H' && "MEDIUM"[0] == 'M' && "LOW"[0] == 'L';
    if Upper(severity) == "HIGH" {
      HighHasText(severity);
    }
    DottedIsNotPlain(severity);
  }
}
