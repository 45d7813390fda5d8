/** The operational store as a value, and what each service command does to it
    (internal/service, internal/worker, internal/storage/sqlite). A refused command leaves the
    store as it was. */
module Commands {
  import opened Basics
  import opened Domain

  datatype PlanInput = PlanInput(permitId: Id, departurePortId: Id, landingPortId: Id, fleetId: Id, code: string,
                                 vesselIds: seq<Id>, opensAt: int, deadlineAt: int, key: string)

  datatype KeyRecord = KeyRecord(request: PlanInput, response: (Id, FishingVoyage), expiresAt: int, createdAt: int)

  datatype JobKind = VoyagePlanned | AnomalyReview | OtherKind(text: string)

  /** A planning job carries the voyage as a JSON object, a review job the bare anomaly ID. */
  datatype Payload = Empty | VoyageBody(voyage: FishingVoyage) | BareId(id: Id)

  datatype JobStatus = Pending | Running | Succeeded | Failed | Dead

  /** `claimedAt` is history: the times of the job's attempts. No command reads it. */
  datatype OutboxJob = OutboxJob(kind: JobKind, aggregateId: Id, payload: Payload, status: JobStatus, attempts: int,
                                 maxAttempts: int, availableAt: int, lockedAt: Option<int>, createdAt: int,
                                   claimedAt: seq<int>)

  /** The tables, by primary key. `links` maps a vessel to its voyage, which is what the UNIQUE
      vessel column of fishing_voyage_vessels says. The last two components are history, read by
      no command: the anomaly each out-of-envelope declaration was included in, and the
      idempotency key each voyage was planned under. */
  datatype World = World(users: map<Id, User>, permits: map<Id, FishingPermit>, ports: map<Id, PortFacility>,
                         vessels: map<Id, FishingVessel>, fleets: map<Id, SupportFleet>,
                           voyages: map<Id, FishingVoyage>,
                         links: map<Id, Id>, tasks: map<Id, CatchLandingTask>, declarations: map<Id, CatchDeclaration>,
                         anomalies: map<Id, CatchAnomaly>, dispositions: map<Id, AnomalyDisposition>,
                         keys: map<string, KeyRecord>, jobs: map<Id, OutboxJob>,
                         includedIn: map<Id, Id>, plannedUnder: map<Id, string>)

  datatype Outcome<+T> = Commit(world: World, value: T) | Refuse(reason: Error)
  {
    function After(w: World): World {
      match this case Commit(world, _) => world case Refuse(_) => w
    }
  }

  /** A guard that lets a command go on or ends it with an error. */
  datatype Check = Pass | Fail(reason: Error)

  function RequireRole(p: Principal, roles: set<Role>): Check {
    if p.userId == "" then Fail(Validation) else if p.role !in roles then Fail(Conflict) else Pass
  }

  // ---- lookups ----

  function Crew(links: map<Id, Id>, voyage: Id): set<Id> {
    set x | x in links && links[x] == voyage
  }

  function OpeningsIn(voyages: map<Id, FishingVoyage>, port: Id, start: int, end: int): set<Id> {
    set y | y in voyages && voyages[y].departurePortId == port && start <= voyages[y].opensAt < end
      && voyages[y].state != Cancelled
  }

  function PendingTasks(tasks: map<Id, CatchLandingTask>, voyage: Id): set<Id> {
    set t | t in tasks && tasks[t].voyageId == voyage && tasks[t].status == TaskStatus.Pending
  }

  function ActiveAnomalies(anomalies: map<Id, CatchAnomaly>, voyage: Id): set<Id> {
    set a | a in anomalies && anomalies[a].voyageId == voyage && anomalies[a].IsActive()
  }

  // ---- planning ----

  function Members(ids: seq<Id>): set<Id> { set x | x in ids }

  function NewVoyage(input: PlanInput, hold: int, now: int): FishingVoyage {
    FishingVoyage(input.permitId, input.departurePortId, input.landingPortId, input.fleetId, TrimSpace(input.code),
                  Planned, input.opensAt, input.deadlineAt, None, None, None, hold, now, now, 1)
  }

  /** The hold capacity of the first n requested vessels. */
  function Volume(w: World, ids: seq<Id>, n: nat): int
    requires n <= |ids|
  {
    if n == 0 then 0 else Volume(w, ids, n - 1) + if ids[n - 1] in w.vessels then w.vessels[ids[n - 1]].hold else 0
  }

  /** The first objection to the requested vessels from position i on. */
  function VesselObjection(w: World, input: PlanInput, i: nat, now: int): Option<Error>
    requires i <= |input.vesselIds|
    decreases |input.vesselIds| - i
  {
    var ids := input.vesselIds;
    if i == |ids| then None
    else if ids[i] in ids[..i] then Some(Conflict)
    else if ids[i] !in w.vessels then Some(NotFound)
    else
      var vessel := w.vessels[ids[i]];
      if vessel.permitId != input.permitId || vessel.portId != input.departurePortId then Some(Conflict)
      else match vessel.Transition(VesselState.Assigned, now)
           case Failure(e) => Some(e)
           case Success(_) => VesselObjection(w, input, i + 1, now)
  }

  function RouteObjection(w: World, input: PlanInput): Option<Error> {
    if input.permitId !in w.permits then Some(NotFound)
    else if w.permits[input.permitId].status != PermitStatus.Active then Some(Conflict)
    else if input.departurePortId !in w.ports || input.landingPortId !in w.ports then Some(NotFound)
    else
      var source := w.ports[input.departurePortId];
      if !source.active || !w.ports[input.landingPortId].active then Some(Conflict)
      else if Blank(input.departurePortId) || Blank(input.landingPortId)
        || input.departurePortId == input.landingPortId then Some(Validation)
      else
        var day := source.OperatingDayWindow(input.opensAt);
        if |OpeningsIn(w.voyages, input.departurePortId, day.0, day.1)| >= source.dailyLimit then Some(Conflict)
          else None
  }

  function WindowObjection(w: World, input: PlanInput, now: int): Option<Error>
    requires input.permitId in w.permits
  {
    if input.opensAt == ZERO_TIME || input.deadlineAt == ZERO_TIME then Some(Validation)
    else if input.deadlineAt <= input.opensAt then Some(Validation)
    else if input.deadlineAt - input.opensAt > w.permits[input.permitId].maxVoyageDuration then Some(Conflict)
    else if input.opensAt < now - GRACE then Some(Conflict)
    else if exists i :: 0 <= i < |input.vesselIds| && input.vesselIds[i] in w.vessels
                     && w.vessels[input.vesselIds[i]].expiresAt <= input.deadlineAt then Some(Conflict)
    else None
  }

  function PlanObjection(w: World, input: PlanInput, now: int): Option<Error> {
    var ids := input.vesselIds;
    if RouteObjection(w, input).Some? then RouteObjection(w, input)
    else if input.fleetId !in w.fleets then Some(NotFound)
    else
      var fleet := w.fleets[input.fleetId];
      if fleet.EligibleFor(input.opensAt, 1).Some? then fleet.EligibleFor(input.opensAt, 1)
      else if VesselObjection(w, input, 0, now).Some? then VesselObjection(w, input, 0, now)
      else if WindowObjection(w, input, now).Some? then WindowObjection(w, input, now)
      else if fleet.EligibleFor(input.opensAt, Volume(w, ids, |ids|)).Some?
        then fleet.EligibleFor(input.opensAt, Volume(w, ids, |ids|))
      else if !NewVoyage(input, Volume(w, ids, |ids|), now).Valid() then Some(Validation)
      else None
  }

  /** Primary key and UNIQUE constraints met while the plan is written. */
  predicate PlanClashes(w: World, input: PlanInput, voyageId: Id, jobId: Id) {
    || voyageId in w.voyages
    || (exists y :: y in w.voyages && w.voyages[y].code == TrimSpace(input.code))
    || (exists i :: 0 <= i < |input.vesselIds| && input.vesselIds[i] in w.links)
    || jobId in w.jobs
  }

  function Booked(vessel: FishingVessel, voyageId: Id, now: int): FishingVessel {
    vessel.(state := VesselState.Assigned, voyageId := voyageId, updatedAt := now, version := vessel.version + 1)
  }

  function NewJob(kind: JobKind, aggregateId: Id, payload: Payload, now: int): OutboxJob {
    OutboxJob(kind, aggregateId, payload, JobStatus.Pending, 0, 5, now, None, now, [])
  }

  /** PutIdempotency: insert, or overwrite a record that has expired by the new one's creation. */
  function PutKey(keys: map<string, KeyRecord>, key: string, record: KeyRecord): map<string, KeyRecord> {
    if key in keys && keys[key].expiresAt > record.createdAt then keys else keys[key := record]
  }

  function PlannedWorld(w: World, input: PlanInput, now: int, voyageId: Id, jobId: Id): World
    requires input.fleetId in w.fleets
  {
    var ids := input.vesselIds;
    var voyage := NewVoyage(input, Volume(w, ids, |ids|), now);
    var fleet := w.fleets[input.fleetId];
    w.(voyages := w.voyages[voyageId := voyage],
       vessels := map x | x in w.vessels :: if x in ids then Booked(w.vessels[x], voyageId, now) else w.vessels[x],
       links := map x | x in w.links.Keys + Members(ids) :: if x in ids then voyageId else w.links[x],
       fleets := w.fleets[input.fleetId := fleet.(state := FleetState.Assigned, voyageId := voyageId,
         updatedAt := now, version := fleet.version + 1)],
       keys := PutKey(w.keys, input.key, KeyRecord(input, (voyageId, voyage), now + DAY, now)),
       jobs := w.jobs[jobId := NewJob(VoyagePlanned, voyageId, VoyageBody(voyage), now)],
       plannedUnder := w.plannedUnder[voyageId := input.key])
  }

  predicate KeyHeld(w: World, key: string, now: int) { key in w.keys && w.keys[key].expiresAt > now }

  function Plan(w: World, p: Principal, input: PlanInput, now: int, voyageId: Id, jobId: Id)
      : Outcome<(Id, FishingVoyage)>
  {
    var role := RequireRole(p, {Coordinator});
    if role.Fail? then Refuse(role.reason)
    else if input.vesselIds == [] || !ValidIdempotencyKey(input.key) then Refuse(Validation)
    else if KeyHeld(w, input.key, now) then
      if w.keys[input.key].request != input then Refuse(Conflict) else Commit(w, w.keys[input.key].response)
    else if PlanObjection(w, input, now).Some? then Refuse(PlanObjection(w, input, now).value)
    else if PlanClashes(w, input, voyageId, jobId) then Refuse(Conflict)
    else Commit(PlannedWorld(w, input, now, voyageId, jobId),
      (voyageId, NewVoyage(input, Volume(w, input.vesselIds, |input.vesselIds|), now)))
  }

  // ---- clearing, departing, landing, closing ----

  function RolesFor(target: VoyageState): set<Role> {
    if target in {Departed, VoyageState.Landed} then {Captain, Coordinator} else {Coordinator}
  }

  /** The loop body of transitionAny: what a target asks of one vessel. */
  function Carried(vessel: FishingVessel, target: VoyageState, now: int): Result<FishingVessel> {
    match target
    case Departed => vessel.Transition(AtSea, now)
    case Landed =>
      if vessel.state in {Quarantined, VesselState.Retired, Reinspected} then Success(vessel)
      else vessel.Transition(VesselState.Landed, now)
    case Closed =>
      if vessel.state in {Reinspected, VesselState.Retired, VesselState.Landed} then Success(vessel)
        else Failure(Conflict)
    case _ => Success(vessel)
  }

  function Written(vessel: FishingVessel, target: VoyageState, now: int): FishingVessel {
    match Carried(vessel, target, now)
    case Failure(_) => vessel
    case Success(v) => if target in {Departed, VoyageState.Landed} then v.(version := v.version + 1) else v
  }

  function Rebooked(fleet: SupportFleet, target: VoyageState, now: int): SupportFleet {
    var f := fleet.(updatedAt := now, version := fleet.version + 1);
    match target
    case Departed => f.(state := Deployed)
    case Closed => f.(state := Standby, voyageId := "")
    case Cancelled => f.(state := Standby, voyageId := "")
    case _ => f
  }

  /** The vessels of the voyage that refuse to be carried along. */
  function CrewRefusals(w: World, voyage: Id, target: VoyageState, now: int): set<Id> {
    set x | x in Crew(w.links, voyage) && x in w.vessels && Carried(w.vessels[x], target, now).Failure?
  }

  /** The rows come in identifier order, so the first refusal in that order is reported. */
  ghost function CrewObjection(w: World, voyage: Id, target: VoyageState, now: int): Error
    requires CrewRefusals(w, voyage, target, now) != {}
  {
    Carried(w.vessels[FirstOf(CrewRefusals(w, voyage, target, now))], target, now).error
  }

  function CarriedVessels(w: World, voyage: Id, target: VoyageState, now: int): map<Id, FishingVessel> {
    map x | x in w.vessels :: if x in w.links && w.links[x] == voyage then Written(w.vessels[x], target, now)
      else w.vessels[x]
  }

  ghost function Advance(w: World, p: Principal, voyage: Id, target: VoyageState, now: int): Outcome<FishingVoyage> {
    var role := RequireRole(p, RolesFor(target));
    if role.Fail? then Refuse(role.reason)
    else if voyage !in w.voyages then Refuse(NotFound)
    else if target == Closed && (PendingTasks(w.tasks, voyage) != {} || ActiveAnomalies(w.anomalies, voyage) != {})
      then Refuse(Conflict)
    else match w.voyages[voyage].Transition(target, now)
         case Failure(e) => Refuse(e)
         case Success(run) =>
           if CrewRefusals(w, voyage, target, now) != {} then Refuse(CrewObjection(w, voyage, target, now))
           else if run.fleetId !in w.fleets then Refuse(NotFound)
           else Commit(w.(voyages := w.voyages[voyage := run.(version := run.version + 1)],
                          vessels := CarriedVessels(w, voyage, target, now),
                          fleets := w.fleets[run.fleetId := Rebooked(w.fleets[run.fleetId], target, now)]), run)
  }

  // ---- cancelling ----

  /** The vessels of the voyage that cannot go back to sea_ready. */
  function ReleaseRefusals(w: World, voyage: Id, now: int): set<Id> {
    set x | x in Crew(w.links, voyage) && x in w.vessels && w.vessels[x].Transition(SeaReady, now).Failure?
  }

  ghost function ReleaseObjection(w: World, voyage: Id, now: int): Error
    requires ReleaseRefusals(w, voyage, now) != {}
  {
    w.vessels[FirstOf(ReleaseRefusals(w, voyage, now))].Transition(SeaReady, now).error
  }

  function Released(vessel: FishingVessel, now: int): FishingVessel {
    vessel.(state := SeaReady, voyageId := "", updatedAt := now, version := vessel.version + 1)
  }

  function ReleasedVessels(w: World, voyage: Id, now: int): map<Id, FishingVessel> {
    map x | x in w.vessels ::
      if x in w.links && w.links[x] == voyage then Released(w.vessels[x], now) else w.vessels[x]
  }

  ghost function Cancel(w: World, p: Principal, voyage: Id, now: int): Outcome<FishingVoyage> {
    var role := RequireRole(p, {Coordinator});
    if role.Fail? then Refuse(role.reason)
    else if voyage !in w.voyages then Refuse(NotFound)
    else match w.voyages[voyage].Transition(Cancelled, now)
         case Failure(e) => Refuse(e)
         case Success(run) =>
           if ReleaseRefusals(w, voyage, now) != {} then Refuse(ReleaseObjection(w, voyage, now))
           else if run.fleetId !in w.fleets then Refuse(NotFound)
           else Commit(w.(voyages := w.voyages[voyage := run.(version := run.version + 1)],
                          vessels := ReleasedVessels(w, voyage, now),
                          fleets := w.fleets[run.fleetId := Rebooked(w.fleets[run.fleetId], Cancelled, now)]), run)
  }

  // ---- catch declarations ----

  function Impounded(vessel: FishingVessel, anomaly: Id, now: int): FishingVessel {
    if vessel.state in {AtSea, VesselState.Landed}
    then vessel.(state := Quarantined, note := QuarantineNote(anomaly), updatedAt := now, version := vessel.version + 1)
    else vessel
  }

  function ImpoundedVessels(w: World, voyage: Id, anomaly: Id, now: int): map<Id, FishingVessel> {
    map x | x in w.vessels :: if x in w.links && w.links[x] == voyage then Impounded(w.vessels[x], anomaly, now)
      else w.vessels[x]
  }

  function OpenedAnomaly(d: CatchDeclaration, reviewDeadline: int, now: int): CatchAnomaly {
    CatchAnomaly(d.voyageId, Open, 0, 0, 0, 0, 0, now + reviewDeadline, 1, now).Include(d, now)
  }

  function ExtendedAnomaly(a: CatchAnomaly, d: CatchDeclaration, now: int): CatchAnomaly {
    var included := a.Include(d, now);
    included.(version := included.version + 1)
  }

  /** The row an out-of-envelope declaration is included in: the active anomaly, or a new one. */
  ghost function TargetAnomaly(w: World, voyage: Id, freshId: Id): Id {
    if ActiveAnomalies(w.anomalies, voyage) == {} then freshId
    else var a :| a in ActiveAnomalies(w.anomalies, voyage); a
  }

  ghost function FlaggedWorld(w: World, d: CatchDeclaration, reviewDeadline: int, now: int, declarationId: Id, a: Id,
                              jobId: Id): World
  {
    w.(declarations := w.declarations[declarationId := d],
       anomalies := w.anomalies[a := if a in w.anomalies then ExtendedAnomaly(w.anomalies[a], d, now)
         else OpenedAnomaly(d, reviewDeadline, now)],
       vessels := ImpoundedVessels(w, d.voyageId, a, now),
       jobs := w.jobs[jobId := NewJob(AnomalyReview, a, BareId(a), now)],
       includedIn := w.includedIn[declarationId := a])
  }

  predicate Recorded(w: World, d: CatchDeclaration, declarationId: Id) {
    || declarationId in w.declarations
    || exists e :: e in w.declarations && w.declarations[e].voyageId == d.voyageId
               && w.declarations[e].species == d.species && w.declarations[e].sequence == d.sequence
  }

  /** The declaration as it is stored: received when the command runs. */
  function Received(d: CatchDeclaration, now: int): CatchDeclaration { d.(receivedAt := now) }

  /** The anomaly as the submitter gets it back, before the update raises its version. */
  function Flagged(w: World, d: CatchDeclaration, reviewDeadline: int, now: int, a: Id): CatchAnomaly {
    if a in w.anomalies then w.anomalies[a].Include(d, now) else OpenedAnomaly(d, reviewDeadline, now)
  }

  ghost function Submit(w: World, p: Principal, d: CatchDeclaration, now: int, declarationId: Id, anomalyId: Id,
                        jobId: Id)
    : Outcome<(CatchDeclaration, Option<(Id, CatchAnomaly)>)>
  {
    var role := RequireRole(p, {Captain, Coordinator});
    if role.Fail? then Refuse(role.reason)
    else if !d.Valid() then Refuse(Validation)
    else if d.voyageId !in w.voyages then Refuse(NotFound)
    else
      var run := w.voyages[d.voyageId];
      if run.permitId !in w.permits then Refuse(NotFound)
      else if run.state != Departed && run.state != VoyageState.Landed then Refuse(Conflict)
      else if Recorded(w, d, declarationId) then Refuse(Conflict)
      else if w.permits[run.permitId].Contains(d.variance)
        then Commit(w.(declarations := w.declarations[declarationId := d]), (d, None))
      else
        var a := TargetAnomaly(w, d.voyageId, anomalyId);
        if (ActiveAnomalies(w.anomalies, d.voyageId) == {} && anomalyId in w.anomalies) || jobId in w.jobs
          then Refuse(Conflict)
        else Commit(FlaggedWorld(w, d, w.permits[run.permitId].reviewDeadline, now, declarationId, a, jobId),
                    (d, Some((a, Flagged(w, d, w.permits[run.permitId].reviewDeadline, now, a)))))
  }

  // ---- anomaly review ----

  function StartReview(w: World, p: Principal, anomaly: Id, now: int): Outcome<CatchAnomaly> {
    var role := RequireRole(p, {Officer});
    if role.Fail? then Refuse(role.reason)
    else if anomaly !in w.anomalies then Refuse(NotFound)
    else match w.anomalies[anomaly].StartReview(now)
         case Failure(e) => Refuse(e)
         case Success(a) => Commit(w.(anomalies := w.anomalies[anomaly := a.(version := a.version + 1)]), a)
  }

  /** The loop body of Decide: only vessels the anomaly itself quarantined are touched. */
  function Judged(vessel: FishingVessel, anomaly: Id, decision: AnomalyStatus, rationale: string, now: int)
      : FishingVessel
  {
    if !vessel.IsQuarantinedFor(anomaly) then vessel
    else if decision == AnomalyStatus.Cleared then
      vessel.(state := Reinspected, note := "", updatedAt := now, version := vessel.version + 1)
    else
      vessel.(state := VesselState.Retired, note := TrimSpace(rationale), updatedAt := now,
        version := vessel.version + 1)
  }

  function JudgedVessels(w: World, voyage: Id, anomaly: Id, decision: AnomalyStatus, rationale: string, now: int)
      : map<Id, FishingVessel>
  {
    map x | x in w.vessels ::
      if x in w.links && w.links[x] == voyage then Judged(w.vessels[x], anomaly, decision, rationale, now)
        else w.vessels[x]
  }

  function Decide(w: World, p: Principal, anomaly: Id, decision: AnomalyStatus, rationale: string, now: int,
                  dispositionId: Id): Outcome<CatchAnomaly>
  {
    var role := RequireRole(p, {Officer});
    if role.Fail? then Refuse(role.reason)
    else if Blank(rationale) then Refuse(Validation)
    else if anomaly !in w.anomalies then Refuse(NotFound)
    else match w.anomalies[anomaly].Decide(decision, now)
         case Failure(e) => Refuse(e)
         case Success(a) =>
           if a.voyageId !in w.voyages then Refuse(NotFound)
           else if dispositionId in w.dispositions then Refuse(Conflict)
           else Commit(w.(anomalies := w.anomalies[anomaly := a.(version := a.version + 1)],
                          vessels := JudgedVessels(w, a.voyageId, anomaly, decision, rationale, now),
                          dispositions := w.dispositions[dispositionId :=
                            AnomalyDisposition(anomaly, p.userId, decision, TrimSpace(rationale), now)]), a)
  }

  // ---- catch landing tasks ----

  datatype TaskInput = TaskInput(voyageId: Id, coordinatorId: Id, officerId: Id, station: string)

  function NewTask(p: Principal, input: TaskInput, ttl: int, now: int): CatchLandingTask {
    var coordinator := if Blank(input.coordinatorId) then p.userId else input.coordinatorId;
    CatchLandingTask(input.voyageId, TrimSpace(coordinator), TrimSpace(input.officerId), TrimSpace(input.station),
                     TaskStatus.Pending, now + ttl, None, "", 1, now)
  }

  function CreateTask(w: World, p: Principal, input: TaskInput, ttl: int, now: int, taskId: Id)
      : Outcome<CatchLandingTask>
  {
    var role := RequireRole(p, {Captain, Coordinator});
    if role.Fail? then Refuse(role.reason)
    else if input.voyageId !in w.voyages then Refuse(NotFound)
    else if w.voyages[input.voyageId].state != Departed && w.voyages[input.voyageId].state != VoyageState.Landed
      then Refuse(Conflict)
    else if TrimSpace(input.officerId) !in w.users then Refuse(NotFound)
    else if !(w.users[TrimSpace(input.officerId)].active && w.users[TrimSpace(input.officerId)].role == Officer)
      then Refuse(Conflict)
    else if PendingTasks(w.tasks, input.voyageId) != {} then Refuse(Conflict)
    else if !NewTask(p, input, ttl, now).Valid() then Refuse(Validation)
    else if taskId in w.tasks then Refuse(Conflict)
    else Commit(w.(tasks := w.tasks[taskId := NewTask(p, input, ttl, now)]), NewTask(p, input, ttl, now))
  }

  function ResolveTask(w: World, p: Principal, task: Id, accepted: bool, note: string, now: int)
      : Outcome<CatchLandingTask>
  {
    var role := RequireRole(p, {Officer, Coordinator});
    if role.Fail? then Refuse(role.reason)
    else if task !in w.tasks then Refuse(NotFound)
    else if w.tasks[task].officerId != p.userId && p.role != Coordinator then Refuse(Conflict)
    else match w.tasks[task].Resolve(if accepted then Approved else TaskStatus.Denied, note, now)
         case Failure(e) => Refuse(e)
         case Success(t) => Commit(w.(tasks := w.tasks[task := t.(version := t.version + 1)]), t)
  }

  // ---- fleets and the catalog ----

  function ChangeFleet(w: World, p: Principal, fleet: Id, change: FleetChange, now: int): Outcome<SupportFleet> {
    var role := RequireRole(p, {Coordinator});
    if change.Retire? && Blank(change.reason) then Refuse(Validation)
    else if role.Fail? then Refuse(role.reason)
    else if fleet !in w.fleets then Refuse(NotFound)
    else match w.fleets[fleet].Change(change, now)
         case Failure(e) => Refuse(e)
         case Success(f) => Commit(w.(fleets := w.fleets[fleet := f.(version := f.version + 1)]), f)
  }

  function CreatePermit(w: World, p: Principal, id: Id, permit: FishingPermit): Outcome<FishingPermit> {
    var row := permit.(code := NormalizeCode(permit.code), status := Draft, version := 1);
    var role := RequireRole(p, {Coordinator});
    if role.Fail? then Refuse(role.reason)
    else if !ValidBusinessCode(row.code) || !row.Valid() then Refuse(Validation)
    else if id in w.permits || exists k :: k in w.permits && w.permits[k].code == row.code then Refuse(Conflict)
    else Commit(w.(permits := w.permits[id := row]), row)
  }

  function ActivatePermit(w: World, p: Principal, id: Id): Outcome<FishingPermit> {
    var role := RequireRole(p, {Coordinator});
    if role.Fail? then Refuse(role.reason)
    else if id !in w.permits then Refuse(NotFound)
    else if w.permits[id].status != Draft then Refuse(InvalidTransition)
    else
      var row := w.permits[id].(status := PermitStatus.Active);
      Commit(w.(permits := w.permits[id := row.(version := row.version + 1)]), row)
  }

  function CreatePort(w: World, p: Principal, id: Id, port: PortFacility): Outcome<PortFacility> {
    var row := port.(code := NormalizeCode(port.code), active := true, version := 1);
    var role := RequireRole(p, {Coordinator});
    if role.Fail? then Refuse(role.reason)
    else if !ValidBusinessCode(row.code) || !row.Valid() then Refuse(Validation)
    else if id in w.ports || exists k :: k in w.ports && w.ports[k].code == row.code then Refuse(Conflict)
    else Commit(w.(ports := w.ports[id := row]), row)
  }

  function CreateFleet(w: World, p: Principal, id: Id, fleet: SupportFleet, now: int): Outcome<SupportFleet> {
    var row := fleet.(code := NormalizeCode(fleet.code), state := Standby, version := 1, updatedAt := now);
    var role := RequireRole(p, {Coordinator});
    if role.Fail? then Refuse(role.reason)
    else if !ValidBusinessCode(row.code) || !row.Valid() then Refuse(Validation)
    else if id in w.fleets || exists k :: k in w.fleets && w.fleets[k].code == row.code then Refuse(Conflict)
    else Commit(w.(fleets := w.fleets[id := row]), row)
  }

  function RegisterVessel(w: World, p: Principal, id: Id, vessel: FishingVessel, now: int): Outcome<FishingVessel> {
    var row := vessel.(state := Berthed, version := 1, updatedAt := now);
    var role := RequireRole(p, {Coordinator});
    if role.Fail? then Refuse(role.reason)
    else if !row.Valid() then Refuse(Validation)
    else if row.permitId !in w.permits || row.portId !in w.ports || id in w.vessels
         || exists k ::
              k in w.vessels && w.vessels[k].permitId == row.permitId
              && w.vessels[k].registry == row.registry then Refuse(Conflict)
    else Commit(w.(vessels := w.vessels[id := row]), row)
  }

  function VerifyVessel(w: World, p: Principal, id: Id, now: int): Outcome<FishingVessel> {
    var role := RequireRole(p, {Coordinator});
    if role.Fail? then Refuse(role.reason)
    else if id !in w.vessels then Refuse(NotFound)
    else match w.vessels[id].Transition(SeaReady, now)
         case Failure(e) => Refuse(e)
         case Success(v) => Commit(w.(vessels := w.vessels[id := v.(version := v.version + 1)]), v)
  }

  // ---- the worker's pass ----

  function Overdue(tasks: map<Id, CatchLandingTask>, now: int): map<Id, int> {
    map t | t in tasks && tasks[t].status == TaskStatus.Pending && tasks[t].expiresAt < now :: tasks[t].expiresAt
  }

  function Ready(jobs: map<Id, OutboxJob>, now: int): map<Id, int> {
    map j | j in jobs && (jobs[j].status == JobStatus.Pending || jobs[j].status == Failed)
      && jobs[j].availableAt <= now :: jobs[j].createdAt
  }

  const EXPIRY_NOTE := "catch_landing_task expired before acceptance"

  function ExpiredAs(task: CatchLandingTask, note: string, now: int): CatchLandingTask {
    task.(status := TaskStatus.Expired, resolvedAt := Some(now), note := note, version := task.version + 1,
      updatedAt := now)
  }

  function Lapsed(task: CatchLandingTask, now: int): CatchLandingTask { ExpiredAs(task, EXPIRY_NOTE, now) }

  /** What may stand between the quotes of a JSON string (section 7 of RFC 8259). */
  predicate JsonCharacters(s: string) {
    if s == "" then true
    else if s[0] == '\\' then
      |s| >= 2 && if s[1] == 'u' then |s| >= 6 && (forall i | 2 <= i < 6 :: IsHexDigit(s[i])) && JsonCharacters(s[6..])
                  else s[1] in {'"', '\\', '/', 'b', 'f', 'n', 'r', 't'} && JsonCharacters(s[2..])
    else s[0] != '"' && s[0] >= ' ' && JsonCharacters(s[1..])
  }

  predicate IsHexDigit(c: char) { IsHex(c) || 'A' <= c <= 'F' }

  function TrimJson(s: string): string {
    if s != "" && s[0] in {' ', '\t', '\n', '\r'} then TrimJson(s[1..])
    else if s != "" && s[|s| - 1] in {' ', '\t', '\n', '\r'} then TrimJson(s[..|s| - 1])
    else s
  }

  /** The texts json.Unmarshal accepts for a Go string: a JSON string, or null. */
  predicate DecodesAsString(text: string) {
    var s := TrimJson(text);
    s == "null" || (|s| >= 2 && s[0] == '"' && s[|s| - 1] == '"' && JsonCharacters(s[1..|s| - 1]))
  }

  /** A generated identifier is no JSON string. */
  lemma GeneratedNeverDecodes(id: Id)
    requires Generated(id)
    ensures id != "" && !DecodesAsString(id)
  {
    assert id[0] == id[..|id| - 25][0] && IsHex(id[|id| - 1]);
    assert TrimJson(id) == id;
  }

  /** Whether the worker gets past the payload: an empty one is not decoded, an identifier is
      decoded as it stands, and a voyage is a JSON object, not a string. */
  predicate Readable(payload: Payload) {
    match payload
    case Empty => true
    case BareId(id) => id == "" || DecodesAsString(id)
    case VoyageBody(_) => false
  }

  /** processJob: a planning job succeeds whatever its payload, a review job if its payload can be
      read, any other job never. */
  predicate Deliverable(kind: JobKind, payload: Payload) {
    kind == VoyagePlanned || (kind == AnomalyReview && Readable(payload))
  }

  function Claimed(job: OutboxJob, now: int): OutboxJob {
    job.(status := Running, attempts := job.attempts + 1, lockedAt := Some(now), claimedAt := job.claimedAt + [now])
  }

  function Processed(job: OutboxJob, now: int): OutboxJob {
    var c := Claimed(job, now);
    if Deliverable(c.kind, c.payload) then c.(status := Succeeded, lockedAt := None)
    else c.(status := if c.attempts >= c.maxAttempts then Dead else Failed,
            availableAt := now + c.attempts * c.attempts, lockedAt := None)
  }

  function SweptTasks(tasks: map<Id, CatchLandingTask>, sweep: set<Id>, now: int): map<Id, CatchLandingTask> {
    map t | t in tasks :: if t in sweep then Lapsed(tasks[t], now) else tasks[t]
  }

  function ProcessedJobs(jobs: map<Id, OutboxJob>, claim: set<Id>, now: int): map<Id, OutboxJob> {
    map j | j in jobs :: if j in claim then Processed(jobs[j], now) else jobs[j]
  }

  function WorkerPass(w: World, sweep: set<Id>, claim: set<Id>, now: int): World {
    w.(tasks := SweptTasks(w.tasks, sweep, now), jobs := ProcessedJobs(w.jobs, claim, now))
  }
}
