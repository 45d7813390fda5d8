/** What ties the tables together between commands. Each predicate takes just the tables it
    speaks of, so a command that leaves them alone keeps it by definition. */
module Invariants {
  import opened Basics
  import opened Domain
  import opened Commands

  type Vessels = map<Id, FishingVessel>
  type Fleets = map<Id, SupportFleet>
  type Voyages = map<Id, FishingVoyage>
  type Anomalies = map<Id, CatchAnomaly>

  // ---- vessels move in lockstep with their voyage ----

  predicate Idle(v: FishingVessel) { v.state in {Berthed, SeaReady} && v.voyageId == "" }

  /** What holds of a linked vessel in every run. Before departure it may be sea_ready, because
      verifying an assigned vessel moves it back; `Lockstep` below rules that out. */
  predicate InStep(v: FishingVessel, y: Id, run: FishingVoyage) {
    && v.expiresAt > run.deadlineAt && v.permitId == run.permitId && v.portId == run.departurePortId
    && match run.state
       case Planned => v.state in {VesselState.Assigned, SeaReady} && v.voyageId == y
       case Cleared => v.state in {VesselState.Assigned, SeaReady} && v.voyageId == y
       case Departed => v.state in {AtSea, Quarantined, Reinspected, VesselState.Retired} && v.voyageId == y
       case Landed => v.state in {VesselState.Landed, Quarantined, Reinspected, VesselState.Retired} && v.voyageId == y
       case Closed => v.state in {VesselState.Landed, Reinspected, VesselState.Retired} && v.voyageId == y
       case Cancelled => v.state == SeaReady && v.voyageId == ""
  }

  ghost predicate Moored(vessels: Vessels, voyages: Voyages, links: map<Id, Id>) {
    && (forall x | x in links :: x in vessels && links[x] in voyages && InStep(vessels[x], links[x], voyages[links[x]]))
    && (forall x | x in vessels && x !in links :: Idle(vessels[x]))
  }

  predicate BeforeDeparture(s: VoyageState) { s in {Planned, VoyageState.Cleared} }

  /** Every vessel of a planned or cleared voyage is assigned. */
  ghost predicate Lockstep(vessels: Vessels, voyages: Voyages, links: map<Id, Id>) {
    && Moored(vessels, voyages, links)
    && forall x | x in links && BeforeDeparture(voyages[links[x]].state) :: vessels[x].state == VesselState.Assigned
  }

  // ---- fleets and underway voyages point at each other ----

  predicate OnDuty(f: SupportFleet, y: Id, s: VoyageState) {
    f.voyageId == y && f.state == if s in {Planned, VoyageState.Cleared} then FleetState.Assigned else Deployed
  }

  predicate Busy(f: SupportFleet) { f.state in {FleetState.Assigned, Deployed} }

  ghost predicate Escorted(voyages: Voyages, fleets: Fleets) {
    && (forall y | y in voyages :: voyages[y].fleetId in fleets)
    && (forall y | y in voyages
      && Underway(voyages[y].state) :: OnDuty(fleets[voyages[y].fleetId], y, voyages[y].state))
    && (forall f | f in fleets && Busy(fleets[f]) ::
          fleets[f].voyageId in voyages && Underway(voyages[fleets[f].voyageId].state)
            && voyages[fleets[f].voyageId].fleetId == f)
    && (forall f | f in fleets && !Busy(fleets[f]) :: fleets[f].voyageId == "")
  }

  // ---- capacity ----

  ghost function Holds(vessels: Vessels, crew: set<Id>): map<Id, int> {
    map x | x in crew && x in vessels :: vessels[x].hold
  }

  ghost predicate Loaded(voyages: Voyages, vessels: Vessels, links: map<Id, Id>, fleets: Fleets) {
    forall y | y in voyages ::
      && Crew(links, y) != {} && voyages[y].Valid()
      && voyages[y].hold == Sum(Holds(vessels, Crew(links, y)))
      && voyages[y].fleetId in fleets && voyages[y].hold <= fleets[voyages[y].fleetId].cargo
  }

  // ---- quarantine and active anomalies ----

  predicate AtReview(s: VoyageState) { s == Departed || s == VoyageState.Landed }

  ghost predicate AnomaliesFit(anomalies: Anomalies, voyages: Voyages) {
    && (forall a | a in anomalies :: Generated(a) && anomalies[a].voyageId in voyages)
    && (forall a | a in anomalies && anomalies[a].IsActive() :: AtReview(voyages[anomalies[a].voyageId].state))
    && (forall a, b | a in anomalies && b in anomalies && anomalies[a].IsActive() && anomalies[b].IsActive()
                      && anomalies[a].voyageId == anomalies[b].voyageId :: a == b)
  }

  /** A quarantined vessel names the active anomaly of its voyage; a voyage with an active
      anomaly has no vessel left at sea or landed. */
  ghost predicate Quarantines(vessels: Vessels, links: map<Id, Id>, anomalies: Anomalies) {
    && (forall x | x in vessels && vessels[x].state == Quarantined ::
          x in links && exists a :: a in ActiveAnomalies(anomalies, links[x]) && vessels[x].note == QuarantineNote(a))
    && (forall x | x in links && x in vessels && ActiveAnomalies(anomalies, links[x]) != {} ::
          vessels[x].state != AtSea && vessels[x].state != VesselState.Landed)
  }

  // ---- daily limits ----

  ghost predicate WithinLimit(voyages: Voyages, id: Id, port: PortFacility) {
    forall t: int :: var day := port.OperatingDayWindow(t); |OpeningsIn(voyages, id, day.0, day.1)| <= port.dailyLimit
  }

  ghost predicate Limits(voyages: Voyages, ports: map<Id, PortFacility>) {
    && (forall y | y in voyages :: voyages[y].departurePortId in ports)
    && (forall p | p in ports :: ports[p].Valid() && WithinLimit(voyages, p, ports[p]))
  }

  // ---- declarations ----

  /** An anomaly's counters are the aggregates of the declarations included in it. */
  ghost predicate Summarises(a: CatchAnomaly, declarations: map<Id, CatchDeclaration>, part: set<Id>) {
    && a.count == |part| && part != {} && part <= declarations.Keys
    && (forall d | d in part ::
         a.minimum <= declarations[d].variance <= a.maximum && a.firstAt <= declarations[d].recordedAt <= a.lastAt)
    && (exists d :: d in part && declarations[d].variance == a.minimum)
    && (exists d :: d in part && declarations[d].variance == a.maximum)
    && (exists d :: d in part && declarations[d].recordedAt == a.firstAt)
    && (exists d :: d in part && declarations[d].recordedAt == a.lastAt)
  }

  predicate OutOfEnvelope(d: CatchDeclaration, voyages: Voyages, permits: map<Id, FishingPermit>) {
    && d.voyageId in voyages && voyages[d.voyageId].permitId in permits
    && (d.variance < permits[voyages[d.voyageId].permitId].minimum
        || d.variance > permits[voyages[d.voyageId].permitId].maximum)
  }

  /** The out-of-envelope declarations are partitioned among the anomalies of their voyages. */
  ghost predicate Partitioned(declarations: map<Id, CatchDeclaration>, includedIn: map<Id, Id>, anomalies: Anomalies,
                              voyages: Voyages, permits: map<Id, FishingPermit>)
  {
    && (forall y | y in voyages :: voyages[y].permitId in permits)
    && (forall d | d in declarations :: declarations[d].voyageId in voyages)
    && (forall d :: d in includedIn <==> d in declarations && OutOfEnvelope(declarations[d], voyages, permits))
    && (forall d | d in includedIn ::
         includedIn[d] in anomalies && anomalies[includedIn[d]].voyageId == declarations[d].voyageId)
  }

  ghost predicate Summed(declarations: map<Id, CatchDeclaration>, includedIn: map<Id, Id>, anomalies: Anomalies) {
    forall a | a in anomalies :: Summarises(anomalies[a], declarations, Fibre(includedIn, a))
  }

  // ---- dispositions ----

  function DispositionsOf(dispositions: map<Id, AnomalyDisposition>, a: Id): set<Id> {
    set k | k in dispositions && dispositions[k].anomalyId == a
  }

  ghost predicate Reviewed(anomalies: Anomalies, dispositions: map<Id, AnomalyDisposition>) {
    && (forall k | k in dispositions :: dispositions[k].anomalyId in anomalies)
    && (forall a | a in anomalies && anomalies[a].IsActive() :: DispositionsOf(dispositions, a) == {})
    && (forall a | a in anomalies && !anomalies[a].IsActive() ::
          exists k :: DispositionsOf(dispositions, a) == {k} && dispositions[k].decision == anomalies[a].status)
  }

  // ---- outbox jobs ----

  function JobsFor(jobs: map<Id, OutboxJob>, kind: JobKind, aggregate: Id): set<Id> {
    set j | j in jobs && jobs[j].kind == kind && jobs[j].aggregateId == aggregate
  }

  ghost predicate Queued(jobs: map<Id, OutboxJob>, voyages: Voyages, anomalies: Anomalies) {
    && (forall j | j in jobs && jobs[j].kind == VoyagePlanned :: jobs[j].aggregateId in voyages)
    && (forall j | j in jobs && jobs[j].kind == AnomalyReview :: jobs[j].aggregateId in anomalies)
    && (forall y | y in voyages :: |JobsFor(jobs, VoyagePlanned, y)| == 1)
    && (forall a | a in anomalies :: |JobsFor(jobs, AnomalyReview, a)| == anomalies[a].count)
  }

  /** A job between passes: settled, within its attempts, and spaced by the square backoff. */
  ghost predicate JobFits(job: OutboxJob) {
    && job.status != Running && job.lockedAt.None? && job.maxAttempts == 5
    && job.attempts == |job.claimedAt| <= job.maxAttempts
    && (job.status == JobStatus.Pending <==> job.attempts == 0)
    && (job.status == Failed ==>
          (job.attempts < job.maxAttempts
            && job.availableAt == job.claimedAt[job.attempts - 1] + job.attempts * job.attempts))
    && (job.status == Dead ==> job.attempts == job.maxAttempts)
    && (forall k | 0 < k < |job.claimedAt| :: job.claimedAt[k - 1] + k * k <= job.claimedAt[k])
    && (Deliverable(job.kind, job.payload) ==> job.status in {JobStatus.Pending, Succeeded} && job.attempts <= 1)
    && (!Deliverable(job.kind, job.payload) ==> job.status != Succeeded)
    && (job.kind == AnomalyReview ==> job.payload == BareId(job.aggregateId))
  }

  ghost predicate JobsFit(jobs: map<Id, OutboxJob>) { forall j | j in jobs :: JobFits(jobs[j]) }

  // ---- catch landing tasks ----

  predicate TaskFits(t: CatchLandingTask) {
    match t.status
    case Pending => t.resolvedAt.None?
    case Expired => t.resolvedAt.Some? && t.resolvedAt.value > t.expiresAt
    case _ => t.resolvedAt.Some? && t.resolvedAt.value <= t.expiresAt
  }

  ghost predicate TasksFit(tasks: map<Id, CatchLandingTask>, voyages: Voyages) {
    && (forall t | t in tasks :: TaskFits(tasks[t]) && tasks[t].voyageId in voyages)
    && (forall t | t in tasks && tasks[t].status == TaskStatus.Pending :: AtReview(voyages[tasks[t].voyageId].state))
    && (forall s, t | s in tasks && t in tasks && tasks[s].voyageId == tasks[t].voyageId
                      && tasks[s].status == tasks[t].status == TaskStatus.Pending :: s == t)
  }

  // ---- idempotency keys ----

  ghost predicate Keyed(keys: map<string, KeyRecord>, plannedUnder: map<Id, string>, voyages: Voyages) {
    && plannedUnder.Keys == voyages.Keys
    && (forall y | y in voyages ::
         plannedUnder[y] in keys && voyages[y].createdAt + DAY <= keys[plannedUnder[y]].expiresAt)
    && (forall y, z | y in voyages && z in voyages && y != z && plannedUnder[y] == plannedUnder[z] ::
          voyages[y].createdAt + DAY <= voyages[z].createdAt || voyages[z].createdAt + DAY <= voyages[y].createdAt)
  }

  ghost predicate InLockstep(w: World) { Lockstep(w.vessels, w.voyages, w.links) }

  ghost predicate Inv(w: World) {
    && Moored(w.vessels, w.voyages, w.links)
    && Escorted(w.voyages, w.fleets)
    && Loaded(w.voyages, w.vessels, w.links, w.fleets)
    && AnomaliesFit(w.anomalies, w.voyages)
    && Quarantines(w.vessels, w.links, w.anomalies)
    && Limits(w.voyages, w.ports)
    && Partitioned(w.declarations, w.includedIn, w.anomalies, w.voyages, w.permits)
    && Summed(w.declarations, w.includedIn, w.anomalies)
    && Reviewed(w.anomalies, w.dispositions)
    && Queued(w.jobs, w.voyages, w.anomalies)
    && JobsFit(w.jobs)
    && TasksFit(w.tasks, w.voyages)
    && Keyed(w.keys, w.plannedUnder, w.voyages)
  }

  /** The invariant, opened only where a proof names it. */
  ghost predicate Sound(w: World) { forall v {:trigger Inv(v)} | v == w :: Inv(v) }

  // ---- tables that change in harmless ways ----

  /** The columns no command ever rewrites. */
  predicate SameHull(v: FishingVessel, u: FishingVessel) {
    v.hold == u.hold && v.expiresAt == u.expiresAt && v.permitId == u.permitId && v.portId == u.portId
  }

  predicate SameHulls(vessels: Vessels, vessels': Vessels) {
    vessels.Keys == vessels'.Keys && forall x | x in vessels :: SameHull(vessels[x], vessels'[x])
  }

  predicate SamePlan(v: FishingVoyage, u: FishingVoyage) {
    && v.permitId == u.permitId && v.departurePortId == u.departurePortId && v.landingPortId == u.landingPortId
    && v.fleetId == u.fleetId && v.code == u.code && v.opensAt == u.opensAt && v.deadlineAt == u.deadlineAt
    && v.hold == u.hold && v.createdAt == u.createdAt
  }

  /** One voyage row changed its state along an edge of the voyage table; its plan stands. */
  ghost predicate Progressed(voyages: Voyages, voyages': Voyages, y: Id) {
    && y in voyages && voyages'.Keys == voyages.Keys
    && (forall z | z in voyages && z != y :: voyages'[z] == voyages[z])
    && SamePlan(voyages[y], voyages'[y]) && VoyageEdge(voyages[y].state, voyages'[y].state)
  }

  predicate SamePlans(voyages: Voyages, voyages': Voyages) {
    voyages'.Keys == voyages.Keys && forall y | y in voyages :: SamePlan(voyages[y], voyages'[y])
  }

  predicate SameCargo(fleets: Fleets, fleets': Fleets) {
    forall f | f in fleets :: f in fleets' && fleets[f].cargo == fleets'[f].cargo
  }

  predicate SameEnvelopes(permits: map<Id, FishingPermit>, permits': map<Id, FishingPermit>) {
    forall k | k in permits :: k in permits' && permits'[k].minimum == permits[k].minimum
      && permits'[k].maximum == permits[k].maximum
  }

  /** Every linked vessel is on file and keeps its hold. */
  predicate SameHolds(links: map<Id, Id>, vessels: Vessels, vessels': Vessels) {
    forall x | x in links :: x in vessels && x in vessels' && vessels[x].hold == vessels'[x].hold
  }
}
