/** What each committed command leaves in the store and hands back, row by row and column by column. */
module Deeds {
  import opened Basics
  import opened Domain
  import opened Commands
  import opened Invariants
  import opened Planning
  import opened Answers

  // ---- planning ----

  predicate NewRun(run: FishingVoyage, input: PlanInput, hold: int, now: int) {
    && run.permitId == input.permitId && run.departurePortId == input.departurePortId
    && run.landingPortId == input.landingPortId && run.fleetId == input.fleetId && run.code == TrimSpace(input.code)
    && run.state == Planned && run.opensAt == input.opensAt && run.deadlineAt == input.deadlineAt && run.hold == hold
    && run.departedAt == run.landedAt == run.closedAt == None && run.createdAt == run.updatedAt == now
      && run.version == 1
  }

  predicate NewlyQueued(job: OutboxJob, kind: JobKind, aggregate: Id, payload: Payload, now: int) {
    && job.kind == kind && job.aggregateId == aggregate && job.payload == payload
    && job.status == JobStatus.Pending && job.attempts == 0 && job.maxAttempts == 5
    && job.availableAt == job.createdAt == now && job.lockedAt.None? && job.claimedAt == []
  }

  ghost predicate VesselsBooked(w: World, n: World, ids: seq<Id>, y: Id, now: int) {
    && n.vessels.Keys == w.vessels.Keys
    && (forall x :: x in n.links <==> x in w.links || x in ids)
    && (forall x | x in ids :: n.links[x] == y) && (forall x | x in w.links && x !in ids :: n.links[x] == w.links[x])
    && forall x | x in w.vessels ::
         var v := w.vessels[x];
         n.vessels[x] == if x in ids
           then v.(state := VesselState.Assigned, voyageId := y, updatedAt := now, version := v.version + 1)
                         else v
  }

  /** A plan carried out: the voyage, its vessels and their links, its escort, its key and its job. */
  ghost predicate PlanDone(w: World, n: World, input: PlanInput, now: int, y: Id, job: Id,
                           answer: (Id, FishingVoyage)) {
    var f := input.fleetId;
    && answer.0 == y && NewRun(answer.1, input, Sum(Holds(w.vessels, set x | x in input.vesselIds)), now)
    && VesselsBooked(w, n, input.vesselIds, y, now)
    && f in w.fleets && job in n.jobs && NewlyQueued(n.jobs[job], VoyagePlanned, y, VoyageBody(answer.1), now)
    && n == w.(voyages := w.voyages[y := answer.1], vessels := n.vessels, links := n.links,
               fleets := w.fleets[f := w.fleets[f].(state := FleetState.Assigned, voyageId := y, updatedAt := now,
                                                    version := w.fleets[f].version + 1)],
               keys := w.keys[input.key := KeyRecord(input, answer, now + 86400, now)],
               jobs := w.jobs[job := n.jobs[job]], plannedUnder := w.plannedUnder[y := input.key])
  }

  lemma BookedRows(w: World, input: PlanInput, now: int, y: Id, job: Id)
    requires input.fleetId in w.fleets
    ensures VesselsBooked(w, PlannedWorld(w, input, now, y, job), input.vesselIds, y, now)
  {
    assert forall x | x in input.vesselIds :: x in Members(input.vesselIds);
  }

  lemma PlannedRows(w: World, input: PlanInput, now: int, y: Id, job: Id, hold: int)
    requires input.fleetId in w.fleets && !KeyHeld(w, input.key, now)
    requires hold == Volume(w, input.vesselIds, |input.vesselIds|)
             == Sum(Holds(w.vessels, set x | x in input.vesselIds))
    ensures PlanDone(w, PlannedWorld(w, input, now, y, job), input, now, y, job, (y, NewVoyage(input, hold, now)))
  {
    BookedRows(w, input, now, y, job);
  }

  /** A commit under a key that is held is a replay: the stored answer, and nothing done. */
  lemma PlanDoes(w: World, p: Principal, input: PlanInput, now: int, y: Id, job: Id)
    requires Plan(w, p, input, now, y, job).Commit?
    ensures var o := Plan(w, p, input, now, y, job);
            if input.key in w.keys && w.keys[input.key].expiresAt > now
            then o.world == w && o.value == w.keys[input.key].response
            else PlanDone(w, o.world, input, now, y, job, o.value)
  {
    if !KeyHeld(w, input.key, now) {
      PlanCommits(w, p, input, now, y, job);
      assert Members(input.vesselIds) == set x | x in input.vesselIds;
      PlannedRows(w, input, now, y, job, Volume(w, input.vesselIds, |input.vesselIds|));
    }
  }

  // ---- transitions and cancellation ----

  /** Departing and landing move every vessel that still goes along; clearing and closing move none. */
  function VesselMoved(v: FishingVessel, target: VoyageState, now: int): FishingVessel {
    if target == Departed then v.(state := AtSea, updatedAt := now, version := v.version + 1)
    else if target == VoyageState.Landed && v.state == AtSea then
      v.(state := VesselState.Landed, updatedAt := now, version := v.version + 1)
    else if target == VoyageState.Landed then v.(version := v.version + 1)
    else v
  }

  predicate VesselsMoved(w: World, n: World, y: Id, target: VoyageState, now: int) {
    && n.vessels.Keys == w.vessels.Keys
    && forall x | x in w.vessels ::
         n.vessels[x] == if OnBoard(w, y, x) then VesselMoved(w.vessels[x], target, now) else w.vessels[x]
  }

  predicate FleetMoved(f: SupportFleet, g: SupportFleet, target: VoyageState, now: int) {
    && g.version == f.version + 1 && g.updatedAt == now && g.code == f.code && g.cargo == f.cargo
    && g.certifiedUntil == f.certifiedUntil && g.inspectedAt == f.inspectedAt
    && g.state == (if target == Departed then Deployed else if target in {Closed, Cancelled} then Standby else f.state)
    && g.voyageId == if target in {Closed, Cancelled} then "" else f.voyageId
  }

  predicate RunMoved(run: FishingVoyage, r: FishingVoyage, target: VoyageState, now: int) {
    r == run.(state := target, updatedAt := now, departedAt := r.departedAt, landedAt := r.landedAt,
      closedAt := r.closedAt)
    && r.departedAt == (if target == Departed then Some(now) else run.departedAt)
    && r.landedAt == (if target == VoyageState.Landed then Some(now) else run.landedAt)
    && r.closedAt == if target == Closed then Some(now) else run.closedAt
  }

  /** The voyage, its escort and its vessels move together, and the caller gets the voyage. */
  predicate MoveDone(w: World, n: World, y: Id, target: VoyageState, now: int, answer: FishingVoyage) {
    && y in w.voyages && RunMoved(w.voyages[y], answer, target, now)
    && var f := w.voyages[y].fleetId;
       && f in w.fleets && f in n.fleets && FleetMoved(w.fleets[f], n.fleets[f], target, now)
       && n == w.(voyages := w.voyages[y := answer.(version := answer.version + 1)], vessels := n.vessels,
                  fleets := w.fleets[f := n.fleets[f]])
  }

  lemma CarriedRow(v: FishingVessel, target: VoyageState, now: int)
    requires CarryVerdict(v, target, now).None?
    ensures Written(v, target, now) == VesselMoved(v, target, now)
  {
  }

  lemma CarriedRows(w: World, y: Id, target: VoyageState, now: int)
    requires CrewRefusals(w, y, target, now) == {}
    ensures VesselsMoved(w, w.(vessels := CarriedVessels(w, y, target, now)), y, target, now)
  {
    forall x | OnBoard(w, y, x) ensures Written(w.vessels[x], target, now) == VesselMoved(w.vessels[x], target, now) {
      assert x !in CrewRefusals(w, y, target, now);
      CarryAnswers(w.vessels[x], target, now);
      CarriedRow(w.vessels[x], target, now);
    }
  }

  lemma AdvanceDoes(w: World, p: Principal, y: Id, target: VoyageState, now: int)
    requires target in {VoyageState.Cleared, Departed, VoyageState.Landed, Closed}
    requires Advance(w, p, y, target, now).Commit?
    ensures var o := Advance(w, p, y, target, now);
            MoveDone(w, o.world, y, target, now, o.value) && VesselsMoved(w, o.world, y, target, now)
  {
    CarriedRows(w, y, target, now);
  }

  predicate VesselsReleased(w: World, n: World, y: Id, now: int) {
    && n.vessels.Keys == w.vessels.Keys
    && forall x | x in w.vessels ::
         var v := w.vessels[x];
         n.vessels[x] ==
         if OnBoard(w, y, x) then v.(state := SeaReady, voyageId := "", updatedAt := now, version := v.version + 1)
           else v
  }

  lemma CancelDoes(w: World, p: Principal, y: Id, now: int)
    requires Cancel(w, p, y, now).Commit?
    ensures var o := Cancel(w, p, y, now);
            MoveDone(w, o.world, y, Cancelled, now, o.value) && VesselsReleased(w, o.world, y, now)
  {
  }

  // ---- declarations and their review ----

  predicate VesselsImpounded(w: World, n: World, y: Id, a: Id, now: int) {
    && n.vessels.Keys == w.vessels.Keys
    && forall x | x in w.vessels ::
         var v := w.vessels[x];
         n.vessels[x] ==
         if OnBoard(w, y, x) && v.state in {AtSea, VesselState.Landed} then
           v.(state := Quarantined, note := "catch anomaly " + a, updatedAt := now, version := v.version + 1)
         else v
  }

  /** The anomaly with one more declaration: its extremes, its counter and its clock. */
  predicate Included(r: CatchAnomaly, s: CatchAnomaly, d: CatchDeclaration, now: int) {
    && s == r.(firstAt := s.firstAt, lastAt := s.lastAt, minimum := s.minimum, maximum := s.maximum,
      count := r.count + 1,
               updatedAt := now)
    && (r.count != 0 ==>
          && s.firstAt == (if d.recordedAt < r.firstAt then d.recordedAt else r.firstAt)
          && s.lastAt == (if d.recordedAt > r.lastAt then d.recordedAt else r.lastAt)
          && s.minimum == (if d.variance < r.minimum then d.variance else r.minimum)
          && s.maximum == (if d.variance > r.maximum then d.variance else r.maximum))
    && (r.count == 0 ==> s.firstAt == s.lastAt == d.recordedAt && s.minimum == s.maximum == d.variance)
  }

  predicate Opened(r: CatchAnomaly, d: CatchDeclaration, reviewDeadline: int, now: int) {
    && r.voyageId == d.voyageId && r.status == Open && r.firstAt == r.lastAt == d.recordedAt
    && r.minimum == r.maximum == d.variance && r.count == 1 && r.version == 1 && r.updatedAt == now
    && r.reviewDueAt == now + reviewDeadline
  }

  predicate ActiveFor(w: World, y: Id, a: Id) {
    a in w.anomalies && w.anomalies[a].voyageId == y && w.anomalies[a].status in {Open, Reviewing}
  }

  /** The declaration joins the active anomaly of its voyage, or opens the offered one. */
  predicate FlagDone(w: World, n: World, d: CatchDeclaration, now: int, id: Id, offered: Id, job: Id, a: Id,
                     row: CatchAnomaly) {
    && (ActiveFor(w, d.voyageId, a) || (a == offered && a !in w.anomalies && NothingActive(w, d.voyageId)))
    && (a in w.anomalies ==> Included(w.anomalies[a], row, d, now))
    && (a !in w.anomalies ==>
          d.voyageId in w.voyages && w.voyages[d.voyageId].permitId in w.permits
          && Opened(row, d, w.permits[w.voyages[d.voyageId].permitId].reviewDeadline, now))
    && VesselsImpounded(w, n, d.voyageId, a, now)
    && job in n.jobs && NewlyQueued(n.jobs[job], AnomalyReview, a, BareId(a), now)
    && n == w.(declarations := w.declarations[id := d],
               anomalies := w.anomalies[a := if a in w.anomalies then row.(version := row.version + 1) else row],
               vessels := n.vessels, jobs := w.jobs[job := n.jobs[job]], includedIn := w.includedIn[id := a])
  }

  /** A committed declaration is on file; it is answered with an anomaly, and joins it, if and only if its
      variance lies outside the two bounds of the permit. */
  lemma SubmitDoes(w: World, p: Principal, d: CatchDeclaration, now: int, id: Id, a: Id, job: Id)
    requires Submit(w, p, d, now, id, a, job).Commit?
    ensures var o := Submit(w, p, d, now, id, a, job);
            && d.voyageId in w.voyages && w.voyages[d.voyageId].permitId in w.permits && o.value.0 == d
            && (o.value.1.Some? <==>
                  var permit := w.permits[w.voyages[d.voyageId].permitId];
                  d.variance < permit.minimum || permit.maximum < d.variance)
            && match o.value.1
               case None => o.world == w.(declarations := w.declarations[id := d])
               case Some(flag) => FlagDone(w, o.world, d, now, id, a, job, flag.0, flag.1)
  {
    NothingOpen(w, d.voyageId);
    var permit := w.permits[w.voyages[d.voyageId].permitId];
    if !permit.Contains(d.variance) {
      FlaggedRows(w, d, permit.reviewDeadline, now, id, TargetAnomaly(w, d.voyageId, a), job);
    }
  }

  lemma FlaggedRows(w: World, d: CatchDeclaration, due: int, now: int, id: Id, a: Id, job: Id)
    ensures var n, row := FlaggedWorld(w, d, due, now, id, a, job), Flagged(w, d, due, now, a);
            && (a in w.anomalies ==> Included(w.anomalies[a], row, d, now))
            && (a !in w.anomalies ==> Opened(row, d, due, now))
            && VesselsImpounded(w, n, d.voyageId, a, now)
            && job in n.jobs && NewlyQueued(n.jobs[job], AnomalyReview, a, BareId(a), now)
            && n == w.(declarations := w.declarations[id := d],
                       anomalies := w.anomalies[a := if a in w.anomalies then row.(version := row.version + 1)
                         else row],
                       vessels := n.vessels, jobs := w.jobs[job := n.jobs[job]], includedIn := w.includedIn[id := a])
  {
  }

  lemma ReviewDoes(w: World, p: Principal, a: Id, now: int)
    requires StartReview(w, p, a, now).Commit?
    ensures var o := StartReview(w, p, a, now);
            && a in w.anomalies && o.value == w.anomalies[a].(status := Reviewing, updatedAt := now)
            && o.world == w.(anomalies := w.anomalies[a := o.value.(version := o.value.version + 1)])
  {
  }

  /** The vessels the anomaly quarantined are released with an empty note, or retired with the reasons
      given; every other row stays. */
  predicate VesselsJudged(w: World, n: World, y: Id, a: Id, decision: AnomalyStatus, rationale: string, now: int) {
    && n.vessels.Keys == w.vessels.Keys
    && forall x | x in w.vessels ::
         var v := w.vessels[x];
         n.vessels[x] ==
         if !OnBoard(w, y, x) || v.state != Quarantined || a == "" || v.note != "catch anomaly " + TrimSpace(a) then v
         else if decision == AnomalyStatus.Cleared then
           v.(state := Reinspected, note := "", updatedAt := now, version := v.version + 1)
         else v.(state := VesselState.Retired, note := TrimSpace(rationale), updatedAt := now, version := v.version + 1)
  }

  lemma DecideDoes(w: World, p: Principal, a: Id, decision: AnomalyStatus, rationale: string, now: int, k: Id)
    requires Decide(w, p, a, decision, rationale, now, k).Commit?
    ensures var o := Decide(w, p, a, decision, rationale, now, k);
            && a in w.anomalies && o.value == w.anomalies[a].(status := decision, updatedAt := now)
            && VesselsJudged(w, o.world, w.anomalies[a].voyageId, a, decision, rationale, now)
            && k in o.world.dispositions
            && (var r := o.world.dispositions[k];
                r.anomalyId == a && r.reviewer == p.userId && r.decision == decision && r.createdAt == now
                && r.rationale == TrimSpace(rationale))
            && o.world == w.(anomalies := w.anomalies[a := o.value.(version := o.value.version + 1)],
                             vessels := o.world.vessels,
                             dispositions := w.dispositions[k := o.world.dispositions[k]])
  {
  }

  // ---- catch landing tasks ----

  /** The task names its coordinator, by default the caller, and its officer, and runs for `ttl`. */
  lemma TaskDoes(w: World, p: Principal, input: TaskInput, ttl: int, now: int, id: Id)
    requires CreateTask(w, p, input, ttl, now, id).Commit?
    ensures var o := CreateTask(w, p, input, ttl, now, id); var t := o.value;
            && t.voyageId == input.voyageId && t.officerId == TrimSpace(input.officerId)
            && t.coordinatorId == TrimSpace(if Blank(input.coordinatorId) then p.userId else input.coordinatorId)
            && t.station == TrimSpace(input.station) && t.status == TaskStatus.Pending && t.expiresAt == now + ttl
            && t.resolvedAt.None? && t.note == "" && t.version == 1 && t.updatedAt == now
            && o.world == w.(tasks := w.tasks[id := t])
  {
  }

  lemma ResolveDoes(w: World, p: Principal, t: Id, accepted: bool, note: string, now: int)
    requires ResolveTask(w, p, t, accepted, note, now).Commit?
    ensures var o := ResolveTask(w, p, t, accepted, note, now);
            && t in w.tasks
            && o.value == w.tasks[t].(status := if accepted then Approved else TaskStatus.Denied,
              note := TrimSpace(note),
                                      resolvedAt := Some(now), updatedAt := now)
            && o.world == w.(tasks := w.tasks[t := o.value.(version := o.value.version + 1)])
  {
  }

  // ---- fleets and the catalog ----

  lemma ChangeDoes(w: World, p: Principal, f: Id, change: FleetChange, now: int)
    requires ChangeFleet(w, p, f, change, now).Commit?
    ensures var o := ChangeFleet(w, p, f, change, now);
            && f in w.fleets
            && o.value == (match change
                           case StartMaintenance => w.fleets[f].(state := Maintenance, updatedAt := now)
                           case CompleteMaintenance =>
                             w.fleets[f].(state := Standby, inspectedAt := now, updatedAt := now)
                           case Retire(_) =>
                             w.fleets[f].(state := FleetState.Retired, voyageId := "", updatedAt := now))
            && o.world == w.(fleets := w.fleets[f := o.value.(version := o.value.version + 1)])
  {
  }

  lemma PermitDoes(w: World, p: Principal, id: Id, permit: FishingPermit)
    requires CreatePermit(w, p, id, permit).Commit?
    ensures var o := CreatePermit(w, p, id, permit);
            && o.value == permit.(code := NormalizeCode(permit.code), status := Draft, version := 1)
            && o.world == w.(permits := w.permits[id := o.value])
  {
  }

  lemma ActivateDoes(w: World, p: Principal, id: Id)
    requires ActivatePermit(w, p, id).Commit?
    ensures var o := ActivatePermit(w, p, id);
            && id in w.permits && o.value == w.permits[id].(status := PermitStatus.Active)
            && o.world == w.(permits := w.permits[id := o.value.(version := o.value.version + 1)])
  {
  }

  lemma PortDoes(w: World, p: Principal, id: Id, port: PortFacility)
    requires CreatePort(w, p, id, port).Commit?
    ensures var o := CreatePort(w, p, id, port);
            && o.value == port.(code := NormalizeCode(port.code), active := true, version := 1)
            && o.world == w.(ports := w.ports[id := o.value])
  {
  }

  lemma FleetDoes(w: World, p: Principal, id: Id, fleet: SupportFleet, now: int)
    requires CreateFleet(w, p, id, fleet, now).Commit?
    ensures var o := CreateFleet(w, p, id, fleet, now);
            && o.value == fleet.(code := NormalizeCode(fleet.code), state := Standby, version := 1, updatedAt := now)
            && o.world == w.(fleets := w.fleets[id := o.value])
  {
  }

  lemma RegisterDoes(w: World, p: Principal, id: Id, v: FishingVessel, now: int)
    requires RegisterVessel(w, p, id, v, now).Commit?
    ensures var o := RegisterVessel(w, p, id, v, now);
            && o.value == v.(state := Berthed, version := 1, updatedAt := now)
            && o.world == w.(vessels := w.vessels[id := o.value])
  {
  }

  lemma VerifyDoes(w: World, p: Principal, id: Id, now: int)
    requires VerifyVessel(w, p, id, now).Commit?
    ensures var o := VerifyVessel(w, p, id, now);
            && id in w.vessels && o.value == w.vessels[id].(state := SeaReady, updatedAt := now)
            && o.world == w.(vessels := w.vessels[id := o.value.(version := o.value.version + 1)])
  {
  }
}
