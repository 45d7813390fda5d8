/** The rows of the operational store and their own rules (internal/domain). Times are whole
    seconds, durations are seconds, and a row is keyed by its identifier. */
module Domain {
  import opened Basics

  type Id = string

  const HOUR := 3600
  const DAY := 24 * HOUR
  const GRACE := 15 * 60

  /** The zero time of Go, 1 January of the year 1. */
  const ZERO_TIME := -62135596800

  // ---- text ----

  /** The ASCII white space that strings.TrimSpace removes. */
  predicate IsSpace(c: char) { c == ' ' || '\t' <= c <= '\r' }

  function TrimSpace(s: string): string {
    if s != "" && IsSpace(s[0]) then TrimSpace(s[1..])
    else if s != "" && IsSpace(s[|s| - 1]) then TrimSpace(s[..|s| - 1])
    else s
  }

  predicate Blank(s: string) { TrimSpace(s) == "" }

  predicate IsHex(c: char) { '0' <= c <= '9' || 'a' <= c <= 'f' }

  predicate IsPrefix(s: string) {
    s != "" && 'a' <= s[0] <= 'z' && forall i | 0 <= i < |s| :: 'a' <= s[i] <= 'z' || s[i] == '_'
  }

  /** identity.New: a prefix of lower-case words, an underscore and 24 hexadecimal digits. */
  predicate Generated(id: Id) {
    var n := |id| - 25;
    n > 0 && IsPrefix(id[..n]) && id[n] == '_' && forall i | n < i < |id| :: IsHex(id[i])
  }

  function ToUpper(s: string): string {
    if s == "" then ""
    else [if 'a' <= s[0] <= 'z' then s[0] - 32 as char else s[0]] + ToUpper(s[1..])
  }

  function NormalizeCode(s: string): string { ToUpper(TrimSpace(s)) }

  predicate IsCodeStart(c: char) { 'A' <= c <= 'Z' || '0' <= c <= '9' }

  predicate ValidBusinessCode(s: string) {
    var code := NormalizeCode(s);
    2 <= |code| <= 64 && IsCodeStart(code[0])
    && forall i | 0 < i < |code| :: IsCodeStart(code[i]) || code[i] in {'.', '_', '-'}
  }

  predicate ValidIdempotencyKey(key: string) {
    var trimmed := TrimSpace(key);
    8 <= |trimmed| <= 128 && '\r' !in trimmed && '\n' !in trimmed
  }

  // ---- people ----

  datatype Role = Coordinator | Captain | Officer | Auditor

  datatype User = User(role: Role, active: bool)

  datatype Principal = Principal(userId: Id, role: Role)

  // ---- permits and ports ----

  datatype PermitStatus = Draft | Active | Archived

  /** `zoneLoads` says whether the zone database knows the permit's time-zone name. */
  datatype FishingPermit = FishingPermit(code: string, name: string, zoneLoads: bool, status: PermitStatus,
                                         minimum: int, maximum: int, maxVoyageDuration: int, reviewDeadline: int,
                                         version: int)
  {
    predicate Contains(variance: int) { minimum <= variance <= maximum }

    predicate Valid() {
      !Blank(code) && !Blank(name) && minimum < maximum && 0 < maxVoyageDuration <= 14 * DAY
        && 0 < reviewDeadline <= 7 * DAY && zoneLoads
    }
  }

  /** A port facility: whether its time-zone name loads, and the zone's fixed offset from UTC. */
  datatype PortFacility = PortFacility(code: string, name: string, zoneLoads: bool, offset: int, active: bool,
                                       dailyLimit: int, cutoffHour: int, version: int)
  {
    predicate Valid() {
      !Blank(code) && !Blank(name) && zoneLoads && 1 <= dailyLimit <= 10000 && 0 <= cutoffHour <= 23
    }

    /** The operating day holding `at`: it runs from cutoff hour to cutoff hour, local time. */
    function OperatingDayWindow(at: int): (window: (int, int)) {
      var local := at + offset;
      var hour := local % DAY / HOUR;
      var day := if hour < cutoffHour then local / DAY - 1 else local / DAY;
      var start := day * DAY + cutoffHour * HOUR - offset;
      (start, start + DAY)
    }

    predicate Within(at: int, moment: int) {
      OperatingDayWindow(at).0 <= moment < OperatingDayWindow(at).1
    }
  }

  // ---- vessels ----

  datatype VesselState = Berthed | SeaReady | Assigned | AtSea | Landed | Quarantined | Reinspected | Retired

  predicate VesselEdge(from: VesselState, to: VesselState) {
    match from
    case Berthed => to in {SeaReady, VesselState.Retired}
    case SeaReady => to in {VesselState.Assigned, VesselState.Retired}
    case Assigned => to in {SeaReady, AtSea}
    case AtSea => to in {VesselState.Landed, Quarantined}
    case Landed => to in {Reinspected, Quarantined}
    case Quarantined => to in {Reinspected, VesselState.Retired}
    case _ => false
  }

  function QuarantineNote(anomaly: Id): string { "catch anomaly " + anomaly }

  datatype FishingVessel = FishingVessel(permitId: Id, portId: Id, registry: string, vesselClass: string,
                                         voyageCount: int,
                                         hold: int, state: VesselState, expiresAt: int, voyageId: Id, note: string,
                                           version: int, updatedAt: int)
  {
    predicate Valid() {
      && !Blank(permitId) && !Blank(portId) && !Blank(registry) && !Blank(vesselClass)
      && voyageCount >= 1 && hold >= 1 && expiresAt != ZERO_TIME
    }

    predicate UsableAt(at: int) { expiresAt > at && state != VesselState.Retired }

    function Transition(to: VesselState, now: int): Result<FishingVessel> {
      if !VesselEdge(state, to) then Failure(InvalidTransition)
      else if !UsableAt(now) && to != VesselState.Retired && to != Quarantined then Failure(Conflict)
      else Success(this.(state := to, updatedAt := now))
    }

    predicate IsQuarantinedFor(anomaly: Id) {
      state == Quarantined && anomaly != "" && note == "catch anomaly " + TrimSpace(anomaly)
    }
  }

  // ---- voyages ----

  datatype VoyageState = Planned | Cleared | Departed | Landed | Closed | Cancelled

  predicate VoyageEdge(from: VoyageState, to: VoyageState) {
    match from
    case Planned => to in {VoyageState.Cleared, Cancelled}
    case Cleared => to in {Departed, Cancelled}
    case Departed => to == VoyageState.Landed
    case Landed => to == Closed
    case _ => false
  }

  /** Voyages that hold their vessels and their fleet. */
  predicate Underway(s: VoyageState) { s in {Planned, VoyageState.Cleared, Departed, VoyageState.Landed} }

  datatype FishingVoyage = FishingVoyage(permitId: Id, departurePortId: Id, landingPortId: Id, fleetId: Id,
                                         code: string,
                                         state: VoyageState, opensAt: int, deadlineAt: int, departedAt: Option<int>,
                                         landedAt: Option<int>, closedAt: Option<int>, hold: int,
                                         createdAt: int, updatedAt: int, version: int)
  {
    predicate Valid() {
      && !Blank(permitId) && !Blank(departurePortId) && !Blank(landingPortId) && departurePortId != landingPortId
      && !Blank(code) && !Blank(fleetId) && opensAt < deadlineAt && hold >= 1
    }

    function Transition(to: VoyageState, now: int): Result<FishingVoyage> {
      if !VoyageEdge(state, to) then Failure(InvalidTransition)
      else Success(this.(state := to, updatedAt := now,
                         departedAt := if to == Departed then Some(now) else departedAt,
                         landedAt := if to == VoyageState.Landed then Some(now) else landedAt,
                         closedAt := if to == Closed then Some(now) else closedAt))
    }
  }

  // ---- support fleets ----

  datatype FleetState = Standby | Assigned | Deployed | Maintenance | Retired

  datatype FleetChange = StartMaintenance | CompleteMaintenance | Retire(reason: string)

  datatype SupportFleet = SupportFleet(code: string, state: FleetState, cargo: int, certifiedUntil: int,
                                       inspectedAt: int,
                                       voyageId: Id, version: int, updatedAt: int)
  {
    predicate Valid() {
      !Blank(code) && 100 <= cargo <= 1_000_000 && certifiedUntil != ZERO_TIME && inspectedAt != ZERO_TIME
    }

    predicate CertifiedAt(at: int) { certifiedUntil > at && inspectedAt <= at }

    function EligibleFor(start: int, volume: int): Option<Error> {
      if state != Standby then Some(Conflict)
      else if !CertifiedAt(start) then Some(Conflict)
      else if cargo < volume then Some(CapacityExceeded)
      else None
    }

    function Change(change: FleetChange, now: int): Result<SupportFleet> {
      match change
      case StartMaintenance =>
        if state != Standby then Failure(InvalidTransition) else Success(this.(state := Maintenance, updatedAt := now))
      case CompleteMaintenance =>
        if state != Maintenance then Failure(InvalidTransition)
        else Success(this.(state := Standby, inspectedAt := now, updatedAt := now))
      case Retire(_) =>
        if state != Standby && state != Maintenance then Failure(Conflict)
        else Success(this.(state := FleetState.Retired, voyageId := "", updatedAt := now))
    }
  }

  // ---- declarations, anomalies, reviews ----

  datatype CatchDeclaration = CatchDeclaration(voyageId: Id, species: string, sequence: int, variance: int,
                                               recordedAt: int, receivedAt: int)
  {
    predicate Valid() { !Blank(voyageId) && !Blank(species) && sequence >= 1 && recordedAt != ZERO_TIME }
  }

  datatype AnomalyStatus = Open | Reviewing | Cleared | Rejected

  datatype CatchAnomaly = CatchAnomaly(voyageId: Id, status: AnomalyStatus, firstAt: int, lastAt: int, minimum: int,
                                       maximum: int,
                                       count: int, reviewDueAt: int, version: int, updatedAt: int)
  {
    predicate IsActive() { status == Open || status == Reviewing }

    function Include(d: CatchDeclaration, now: int): CatchAnomaly {
      this.(firstAt := if count == 0 || d.recordedAt < firstAt then d.recordedAt else firstAt,
            lastAt := if count == 0 || d.recordedAt > lastAt then d.recordedAt else lastAt,
            minimum := if count == 0 || d.variance < minimum then d.variance else minimum,
            maximum := if count == 0 || d.variance > maximum then d.variance else maximum,
            count := count + 1, updatedAt := now)
    }

    function StartReview(now: int): Result<CatchAnomaly> {
      if status != Open then Failure(InvalidTransition) else Success(this.(status := Reviewing, updatedAt := now))
    }

    function Decide(decision: AnomalyStatus, now: int): Result<CatchAnomaly> {
      if !IsActive() then Failure(InvalidTransition)
      else if decision != AnomalyStatus.Cleared && decision != Rejected then Failure(Validation)
      else Success(this.(status := decision, updatedAt := now))
    }
  }

  datatype AnomalyDisposition = AnomalyDisposition(anomalyId: Id, reviewer: Id, decision: AnomalyStatus,
      rationale: string, createdAt: int)

  // ---- catch landing tasks ----

  datatype TaskStatus = Pending | Approved | Denied | Expired

  datatype CatchLandingTask = CatchLandingTask(voyageId: Id, coordinatorId: Id, officerId: Id, station: string,
                                               status: TaskStatus,
                                               expiresAt: int, resolvedAt: Option<int>, note: string, version: int,
                                                 updatedAt: int)
  {
    predicate Valid() {
      && !Blank(voyageId) && !Blank(coordinatorId) && !Blank(officerId) && coordinatorId != officerId
      && !Blank(station) && expiresAt != ZERO_TIME
    }

    function Resolve(to: TaskStatus, text: string, now: int): Result<CatchLandingTask> {
      if status != Pending then Failure(InvalidTransition)
      else if now > expiresAt && to != TaskStatus.Expired then Failure(Error.Expired)
      else if to == Pending then Failure(Validation)
      else Success(this.(status := to, note := TrimSpace(text), resolvedAt := Some(now), updatedAt := now))
    }
  }

  // ---- facts about single rows ----

  lemma TrimFixed(s: string)
    requires s != "" && !IsSpace(s[0]) && !IsSpace(s[|s| - 1])
    ensures TrimSpace(s) == s && !Blank(s)
  {
  }

  lemma TrimGenerated(id: Id)
    requires Generated(id)
    ensures TrimSpace(id) == id && !Blank(id)
  {
    assert id[0] == id[..|id| - 25][0] && IsHex(id[|id| - 1]);
    TrimFixed(id);
  }

  /** A note names the anomaly it was written for and no other. */
  lemma NoteNamesOne(vessel: FishingVessel, a: Id, b: Id)
    requires Generated(a) && Generated(b) && vessel.state == Quarantined && vessel.note == QuarantineNote(a)
    ensures vessel.IsQuarantinedFor(b) <==> a == b
  {
    TrimGenerated(b);
    assert QuarantineNote(a)[|"catch anomaly "|..] == a && QuarantineNote(b)[|"catch anomaly "|..] == b;
  }

  lemma MultipleBound(e: int, m: int)
    requires m > 0
    ensures (e >= 1 ==> e * m >= m) && (e <= -1 ==> e * m <= -m)
  {
  }

  lemma FloorDiv(a: int, q: int, m: int)
    requires m > 0 && q * m <= a < q * m + m
    ensures a / m == q && a % m == a - q * m
  {
    var e := a / m - q;
    assert e * m == a - q * m - a % m;
    MultipleBound(e, m);
  }

  /** The operating-day windows of a port partition the timeline: every moment lies in its own
      window, and a window answers the same for every moment in it. */
  lemma WindowsPartition(port: PortFacility, s: int, t: int)
    requires 0 <= port.cutoffHour <= 23
    ensures port.Within(t, t)
    ensures port.OperatingDayWindow(t).1 - port.OperatingDayWindow(t).0 == 86400
    ensures (port.OperatingDayWindow(t).0 + port.offset) % 86400 == port.cutoffHour * 3600
    ensures port.Within(s, t) <==> port.OperatingDayWindow(s) == port.OperatingDayWindow(t)
  {
    WindowStart(port, s);
    WindowStart(port, t);
    WindowOpens(port, t);
    var c := port.cutoffHour * HOUR - port.offset;
    var j, k := (s - c) / DAY, (t - c) / DAY;
    if port.Within(s, t) {
      FloorDiv(t - c, j, DAY);
    }
  }

  /** Every window opens at the cutoff hour, local time. */
  lemma WindowOpens(port: PortFacility, t: int)
    requires 0 <= port.cutoffHour <= 23
    ensures (port.OperatingDayWindow(t).0 + port.offset) % 86400 == port.cutoffHour * 3600
  {
    WindowStart(port, t);
    var c := port.cutoffHour * HOUR - port.offset;
    FloorDiv(port.OperatingDayWindow(t).0 + port.offset, (t - c) / DAY, DAY);
  }

  lemma WindowStart(port: PortFacility, at: int)
    requires 0 <= port.cutoffHour <= 23
    ensures var c := port.cutoffHour * HOUR - port.offset;
            port.OperatingDayWindow(at).0 == (at - c) / DAY * DAY + c && port.Within(at, at)
  {
    var local, c := at + port.offset, port.cutoffHour * HOUR;
    var day, second := local / DAY, local % DAY;
    FloorDiv(second, second / HOUR, HOUR);
    if second / HOUR < port.cutoffHour {
      FloorDiv(local - c, day - 1, DAY);
    } else {
      FloorDiv(local - c, day, DAY);
    }
  }
}
