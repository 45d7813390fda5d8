/** What each command answers its caller, on the columns of the store: the demands of the command in
    the order in which the first one not met decides the error, and a commit when all are met. */
module Answers {
  import opened Basics
  import opened Domain
  import opened Commands
  import opened Invariants
  import opened Planning

  /** A demand, and the demands after it. */
  function Need(met: bool, error: Error, rest: Option<Error>): Option<Error> { if met then rest else Some(error) }

  function Ask(p: Principal, roles: set<Role>, rest: Option<Error>): Option<Error> {
    Need(p.userId != "", Validation, Need(p.role in roles, Conflict, rest))
  }

  ghost predicate Answered<T(!new)>(o: Outcome<T>, verdict: Option<Error>) {
    match verdict case Some(e) => o == Refuse(e) case None => o.Commit?
  }

  // ---- planning ----

  /** What is demanded of the vessel at position i. */
  function VesselVerdict(w: World, input: PlanInput, i: nat, now: int): Option<Error>
    requires i < |input.vesselIds|
  {
    var x := input.vesselIds[i];
    Need(forall j | 0 <= j < i :: input.vesselIds[j] != x, Conflict,
    Need(x in w.vessels, NotFound,
    Need(x in w.vessels && w.vessels[x].permitId == input.permitId && w.vessels[x].portId == input.departurePortId,
      Conflict,
    Need(x in w.vessels && w.vessels[x].state == SeaReady, InvalidTransition,
    Need(x in w.vessels && w.vessels[x].expiresAt > now, Conflict, None)))))
  }

  /** The first vessel from position i on to fall short decides. */
  ghost predicate FirstVessel(w: World, input: PlanInput, i: nat, now: int, verdict: Option<Error>) {
    match verdict
    case None => forall k | i <= k < |input.vesselIds| :: VesselVerdict(w, input, k, now).None?
    case Some(e) =>
      exists k :: i <= k < |input.vesselIds| && VesselVerdict(w, input, k, now) == Some(e)
                  && forall j | i <= j < k :: VesselVerdict(w, input, j, now).None?
  }

  lemma {:induction false} CrewAnswers(w: World, input: PlanInput, i: nat, now: int)
    requires i <= |input.vesselIds|
    ensures FirstVessel(w, input, i, now, VesselObjection(w, input, i, now))
    decreases |input.vesselIds| - i
  {
    if i < |input.vesselIds| {
      OneVesselAnswers(w, input, i, now);
      CrewAnswers(w, input, i + 1, now);
    }
  }

  lemma OneVesselAnswers(w: World, input: PlanInput, i: nat, now: int)
    requires i < |input.vesselIds|
    ensures VesselObjection(w, input, i, now) ==
            if VesselVerdict(w, input, i, now).Some? then VesselVerdict(w, input, i, now)
            else VesselObjection(w, input, i + 1, now)
  {
    assert input.vesselIds[i] in input.vesselIds[..i] <==>
           exists j :: 0 <= j < i && input.vesselIds[j] == input.vesselIds[i];
  }

  /** The ports and the permit. */
  function RouteVerdict(w: World, input: PlanInput): Option<Error> {
    var from, to := input.departurePortId, input.landingPortId;
    Need(input.permitId in w.permits, NotFound,
    Need(input.permitId in w.permits && w.permits[input.permitId].status == PermitStatus.Active, Conflict,
    Need(from in w.ports && to in w.ports, NotFound,
    Need(from in w.ports && to in w.ports && w.ports[from].active && w.ports[to].active, Conflict,
    Need(!Blank(from) && !Blank(to) && from != to, Validation,
    Need(from in w.ports && (var day := w.ports[from].OperatingDayWindow(input.opensAt);
         |set y | y in w.voyages && w.voyages[y].departurePortId == from && w.voyages[y].state != Cancelled
                  && day.0 <= w.voyages[y].opensAt && w.voyages[y].opensAt < day.1| < w.ports[from].dailyLimit),
         Conflict, None))))))
  }

  function EscortVerdict(w: World, input: PlanInput): Option<Error> {
    var f := input.fleetId;
    Need(f in w.fleets, NotFound,
    Need(f in w.fleets && w.fleets[f].state == Standby, Conflict,
    Need(f in w.fleets && w.fleets[f].certifiedUntil > input.opensAt && w.fleets[f].inspectedAt <= input.opensAt,
      Conflict,
    Need(f in w.fleets && w.fleets[f].cargo >= 1, CapacityExceeded, None))))
  }

  /** Not before a quarter of an hour ago, not too long, and with every certificate past the deadline. */
  function WindowVerdict(w: World, input: PlanInput, now: int): Option<Error>
    requires input.permitId in w.permits
  {
    Need(input.opensAt != ZERO_TIME && input.deadlineAt != ZERO_TIME && input.opensAt < input.deadlineAt, Validation,
    Need(input.deadlineAt - input.opensAt <= w.permits[input.permitId].maxVoyageDuration, Conflict,
    Need(now - input.opensAt <= 900, Conflict,
    Need(forall x | x in input.vesselIds && x in w.vessels :: w.vessels[x].expiresAt > input.deadlineAt, Conflict,
      None))))
  }

  function Then(first: Option<Error>, rest: Option<Error>): Option<Error> { if first.Some? then first else rest }

  /** What is demanded of a request that is no replay. */
  ghost function FreshVerdict(w: World, input: PlanInput, now: int, crew: Option<Error>): Option<Error> {
    var hold := Sum(Holds(w.vessels, set x | x in input.vesselIds));
    Then(RouteVerdict(w, input),
    Then(EscortVerdict(w, input),
    Then(crew,
    Then(if input.permitId in w.permits then WindowVerdict(w, input, now) else None,
    Need(input.fleetId in w.fleets && hold <= w.fleets[input.fleetId].cargo, CapacityExceeded,
    Need(!Blank(input.permitId) && !Blank(input.code) && !Blank(input.fleetId) && hold >= 1, Validation, None))))))
  }

  /** Identifiers and voyage codes are new, and no vessel has ever sailed. */
  function ClashVerdict(w: World, input: PlanInput, y: Id, job: Id): Option<Error> {
    Need(y !in w.voyages && job !in w.jobs, Conflict,
    Need(forall z | z in w.voyages :: w.voyages[z].code != TrimSpace(input.code), Conflict,
    Need(forall x | x in input.vesselIds :: x !in w.links, Conflict, None)))
  }

  ghost function PlanVerdict(w: World, p: Principal, input: PlanInput, now: int, y: Id, job: Id, crew: Option<Error>)
    : Option<Error>
  {
    Ask(p, {Coordinator},
    Need(input.vesselIds != [], Validation,
    Need(var key := TrimSpace(input.key); 8 <= |key| <= 128 && '\r' !in key && '\n' !in key, Validation,
    if input.key in w.keys && w.keys[input.key].expiresAt > now then
      Need(w.keys[input.key].request == input, Conflict, None)
    else
      Then(FreshVerdict(w, input, now, crew), ClashVerdict(w, input, y, job)))))
  }

  lemma RouteAnswers(w: World, input: PlanInput)
    ensures RouteObjection(w, input) == RouteVerdict(w, input)
  {
    if input.departurePortId in w.ports {
      var day := w.ports[input.departurePortId].OperatingDayWindow(input.opensAt);
      assert OpeningsIn(w.voyages, input.departurePortId, day.0, day.1) ==
        set y | y in w.voyages && w.voyages[y].departurePortId == input.departurePortId
          && w.voyages[y].state != Cancelled
                && day.0 <= w.voyages[y].opensAt && w.voyages[y].opensAt < day.1;
    }
  }

  lemma WindowAnswers(w: World, input: PlanInput, now: int)
    requires input.permitId in w.permits
    ensures WindowObjection(w, input, now) == WindowVerdict(w, input, now)
  {
  }

  lemma TrimIsIdle(s: string)
    ensures Blank(TrimSpace(s)) == Blank(s)
  {
    TrimTwice(s);
  }

  lemma {:induction false} TrimTwice(s: string)
    ensures TrimSpace(TrimSpace(s)) == TrimSpace(s)
    decreases |s|
  {
    if s != "" && IsSpace(s[0]) { TrimTwice(s[1..]); }
    else if s != "" && IsSpace(s[|s| - 1]) { TrimTwice(s[..|s| - 1]); }
  }

  lemma FreshAnswers(w: World, input: PlanInput, now: int)
    ensures PlanObjection(w, input, now) == FreshVerdict(w, input, now, VesselObjection(w, input, 0, now))
  {
    RouteAnswers(w, input);
    if input.permitId in w.permits { WindowAnswers(w, input, now); }
    CrewUnobjectionable(w, input, now);
    TrimIsIdle(input.code);
    assert Members(input.vesselIds) == set x | x in input.vesselIds;
  }

  lemma ClashAnswers(w: World, input: PlanInput, y: Id, job: Id)
    ensures PlanClashes(w, input, y, job) <==> ClashVerdict(w, input, y, job) == Some(Conflict)
    ensures !PlanClashes(w, input, y, job) <==> ClashVerdict(w, input, y, job).None?
  {
  }

  lemma FreshPlanAnswers(w: World, p: Principal, input: PlanInput, now: int, y: Id, job: Id, crew: Option<Error>)
    requires PlanObjection(w, input, now) == FreshVerdict(w, input, now, crew)
    requires PlanClashes(w, input, y, job) <==> ClashVerdict(w, input, y, job) == Some(Conflict)
    requires !PlanClashes(w, input, y, job) <==> ClashVerdict(w, input, y, job).None?
    ensures Answered(Plan(w, p, input, now, y, job), PlanVerdict(w, p, input, now, y, job, crew))
  {
  }

  /** Planning: replayed, refused for the first demand not met, or carried out. */
  lemma PlanAnswers(w: World, p: Principal, input: PlanInput, now: int, y: Id, job: Id)
    ensures var crew := VesselObjection(w, input, 0, now);
            FirstVessel(w, input, 0, now, crew)
            && Answered(Plan(w, p, input, now, y, job), PlanVerdict(w, p, input, now, y, job, crew))
  {
    CrewAnswers(w, input, 0, now);
    FreshAnswers(w, input, now);
    ClashAnswers(w, input, y, job);
    FreshPlanAnswers(w, p, input, now, y, job, VesselObjection(w, input, 0, now));
  }

  // ---- transitions and cancellation ----

  predicate OnBoard(w: World, y: Id, x: Id) { x in w.links && w.links[x] == y && x in w.vessels }

  /** What a move demands of one vessel of the voyage. */
  function CarryVerdict(v: FishingVessel, target: VoyageState, now: int): Option<Error> {
    match target
    case Departed => Need(v.state == VesselState.Assigned, InvalidTransition, Need(v.expiresAt > now, Conflict, None))
    case Landed =>
      if v.state in {Quarantined, Reinspected, VesselState.Retired} then None
      else Need(v.state == AtSea, InvalidTransition, Need(v.expiresAt > now, Conflict, None))
    case Closed => Need(v.state in {VesselState.Landed, Reinspected, VesselState.Retired}, Conflict, None)
    case _ => None
  }

  /** The first vessel in identifier order to fall short decides. */
  ghost predicate FirstCarried(w: World, y: Id, target: VoyageState, now: int, verdict: Option<Error>) {
    match verdict
    case None => forall x | OnBoard(w, y, x) :: CarryVerdict(w.vessels[x], target, now).None?
    case Some(e) =>
      exists x :: OnBoard(w, y, x) && CarryVerdict(w.vessels[x], target, now) == Some(e)
                  && forall z | OnBoard(w, y, z) && Before(z, x) :: CarryVerdict(w.vessels[z], target, now).None?
  }

  lemma CarryAnswers(v: FishingVessel, target: VoyageState, now: int)
    ensures match CarryVerdict(v, target, now)
            case None => Carried(v, target, now).Success?
            case Some(e) => Carried(v, target, now) == Failure(e)
  {
  }

  ghost function CarryRefusal(w: World, y: Id, target: VoyageState, now: int): Option<Error> {
    if CrewRefusals(w, y, target, now) == {} then None else Some(CrewObjection(w, y, target, now))
  }

  lemma CarriedAnswers(w: World, y: Id, target: VoyageState, now: int)
    ensures FirstCarried(w, y, target, now, CarryRefusal(w, y, target, now))
  {
    var refusals := CrewRefusals(w, y, target, now);
    forall x | OnBoard(w, y, x) ensures x in refusals <==> CarryVerdict(w.vessels[x], target, now).Some? {
      CarryAnswers(w.vessels[x], target, now);
    }
    if refusals != {} {
      var x := FirstOf(refusals);
      CarryAnswers(w.vessels[x], target, now);
      assert OnBoard(w, y, x);
      forall z | OnBoard(w, y, z) && Before(z, x) ensures z !in refusals { BeforeTotal(x, z); }
    }
  }

  /** The state a voyage must be in. */
  function Stage(target: VoyageState): VoyageState {
    match target
    case Cleared => Planned
    case Departed => VoyageState.Cleared
    case Landed => Departed
    case _ => VoyageState.Landed
  }

  function AdvanceVerdict(w: World, p: Principal, y: Id, target: VoyageState, now: int, crew: Option<Error>)
    : Option<Error>
  {
    Ask(p, if target == Departed || target == VoyageState.Landed then {Captain, Coordinator} else {Coordinator},
    Need(y in w.voyages, NotFound,
    Need(target == Closed ==> forall t | t in w.tasks
      && w.tasks[t].voyageId == y :: w.tasks[t].status != TaskStatus.Pending,
         Conflict,
    Need(target == Closed ==> forall a | a in w.anomalies && w.anomalies[a].voyageId == y ::
                                w.anomalies[a].status != Open && w.anomalies[a].status != Reviewing, Conflict,
    Need(y in w.voyages && w.voyages[y].state == Stage(target), InvalidTransition,
    Then(crew,
    Need(y in w.voyages && w.voyages[y].fleetId in w.fleets, NotFound, None)))))))
  }

  lemma NothingOpen(w: World, y: Id)
    ensures PendingTasks(w.tasks, y) == {} <==>
              forall t | t in w.tasks && w.tasks[t].voyageId == y :: w.tasks[t].status != TaskStatus.Pending
    ensures ActiveAnomalies(w.anomalies, y) == {} <==>
              forall a | a in w.anomalies && w.anomalies[a].voyageId == y ::
                w.anomalies[a].status != Open && w.anomalies[a].status != Reviewing
  {
    if t :| t in w.tasks && w.tasks[t].voyageId == y && w.tasks[t].status == TaskStatus.Pending {
      assert t in PendingTasks(w.tasks, y);
    }
    if a :| a in w.anomalies && w.anomalies[a].voyageId == y
            && (w.anomalies[a].status == Open || w.anomalies[a].status == Reviewing) {
      assert a in ActiveAnomalies(w.anomalies, y);
    }
  }

  /** Clearing, departing, landing and closing. */
  lemma AdvanceAnswers(w: World, p: Principal, y: Id, target: VoyageState, now: int)
    requires target in {VoyageState.Cleared, Departed, VoyageState.Landed, Closed}
    ensures var crew := CarryRefusal(w, y, target, now);
            FirstCarried(w, y, target, now, crew)
            && Answered(Advance(w, p, y, target, now), AdvanceVerdict(w, p, y, target, now, crew))
  {
    CarriedAnswers(w, y, target, now);
    NothingOpen(w, y);
  }

  function ReleaseVerdict(v: FishingVessel, now: int): Option<Error> {
    Need(v.state in {Berthed, VesselState.Assigned}, InvalidTransition, Need(v.expiresAt > now, Conflict, None))
  }

  ghost predicate FirstReleased(w: World, y: Id, now: int, verdict: Option<Error>) {
    match verdict
    case None => forall x | OnBoard(w, y, x) :: ReleaseVerdict(w.vessels[x], now).None?
    case Some(e) =>
      exists x :: OnBoard(w, y, x) && ReleaseVerdict(w.vessels[x], now) == Some(e)
                  && forall z | OnBoard(w, y, z) && Before(z, x) :: ReleaseVerdict(w.vessels[z], now).None?
  }

  lemma SeaReadyAnswers(v: FishingVessel, now: int)
    ensures match ReleaseVerdict(v, now)
            case None => v.Transition(SeaReady, now).Success?
            case Some(e) => v.Transition(SeaReady, now) == Failure(e)
  {
  }

  ghost function ReleaseRefusal(w: World, y: Id, now: int): Option<Error> {
    if ReleaseRefusals(w, y, now) == {} then None else Some(ReleaseObjection(w, y, now))
  }

  lemma ReleasedAnswers(w: World, y: Id, now: int)
    ensures FirstReleased(w, y, now, ReleaseRefusal(w, y, now))
  {
    var refusals := ReleaseRefusals(w, y, now);
    forall x | OnBoard(w, y, x) ensures x in refusals <==> ReleaseVerdict(w.vessels[x], now).Some? {
      SeaReadyAnswers(w.vessels[x], now);
    }
    if refusals != {} {
      var x := FirstOf(refusals);
      SeaReadyAnswers(w.vessels[x], now);
      assert OnBoard(w, y, x);
      forall z | OnBoard(w, y, z) && Before(z, x) ensures z !in refusals { BeforeTotal(x, z); }
    }
  }

  function CancelVerdict(w: World, p: Principal, y: Id, crew: Option<Error>): Option<Error> {
    Ask(p, {Coordinator},
    Need(y in w.voyages, NotFound,
    Need(y in w.voyages && w.voyages[y].state in {Planned, VoyageState.Cleared}, InvalidTransition,
    Then(crew,
    Need(y in w.voyages && w.voyages[y].fleetId in w.fleets, NotFound, None)))))
  }

  lemma CancelAnswers(w: World, p: Principal, y: Id, now: int)
    ensures var crew := ReleaseRefusal(w, y, now);
            FirstReleased(w, y, now, crew) && Answered(Cancel(w, p, y, now), CancelVerdict(w, p, y, crew))
  {
    ReleasedAnswers(w, y, now);
  }

  // ---- declarations and their review ----

  predicate NothingActive(w: World, y: Id) {
    forall a | a in w.anomalies && w.anomalies[a].voyageId == y ::
      w.anomalies[a].status != Open && w.anomalies[a].status != Reviewing
  }

  function SubmitVerdict(w: World, p: Principal, d: CatchDeclaration, id: Id, a: Id, job: Id): Option<Error> {
    var y := d.voyageId;
    Ask(p, {Captain, Coordinator},
    Need(!Blank(y) && !Blank(d.species) && d.sequence >= 1 && d.recordedAt != ZERO_TIME, Validation,
    Need(y in w.voyages && w.voyages[y].permitId in w.permits, NotFound,
    Need(y in w.voyages && w.voyages[y].state in {Departed, VoyageState.Landed}, Conflict,
    Need(id !in w.declarations, Conflict,
    Need(forall e | e in w.declarations ::
           !(w.declarations[e].voyageId == y && w.declarations[e].species == d.species
             && w.declarations[e].sequence == d.sequence), Conflict,
    Need(OutOfEnvelope(d, w.voyages, w.permits) ==> (NothingActive(w, y) ==> a !in w.anomalies) && job !in w.jobs,
         Conflict, None)))))))
  }

  /** A declaration is taken once per voyage, species and sequence. */
  lemma SubmitAnswers(w: World, p: Principal, d: CatchDeclaration, now: int, id: Id, a: Id, job: Id)
    ensures Answered(Submit(w, p, d, now, id, a, job), SubmitVerdict(w, p, d, id, a, job))
  {
    NothingOpen(w, d.voyageId);
  }

  function ReviewVerdict(w: World, p: Principal, a: Id): Option<Error> {
    Ask(p, {Officer},
    Need(a in w.anomalies, NotFound,
    Need(a in w.anomalies && w.anomalies[a].status == Open, InvalidTransition, None)))
  }

  lemma ReviewAnswers(w: World, p: Principal, a: Id, now: int)
    ensures Answered(StartReview(w, p, a, now), ReviewVerdict(w, p, a))
  {
  }

  function DecideVerdict(w: World, p: Principal, a: Id, decision: AnomalyStatus, rationale: string, k: Id)
    : Option<Error>
  {
    Ask(p, {Officer},
    Need(!Blank(rationale), Validation,
    Need(a in w.anomalies, NotFound,
    Need(a in w.anomalies && w.anomalies[a].status in {Open, Reviewing}, InvalidTransition,
    Need(decision in {AnomalyStatus.Cleared, Rejected}, Validation,
    Need(a in w.anomalies && w.anomalies[a].voyageId in w.voyages, NotFound,
    Need(k !in w.dispositions, Conflict, None)))))))
  }

  lemma DecideAnswers(w: World, p: Principal, a: Id, decision: AnomalyStatus, rationale: string, now: int, k: Id)
    ensures Answered(Decide(w, p, a, decision, rationale, now, k), DecideVerdict(w, p, a, decision, rationale, k))
  {
  }

  // ---- catch landing tasks ----

  function TaskVerdict(w: World, p: Principal, input: TaskInput, ttl: int, now: int, id: Id): Option<Error> {
    var coordinator := if Blank(input.coordinatorId) then p.userId else input.coordinatorId;
    var officer := TrimSpace(input.officerId);
    Ask(p, {Captain, Coordinator},
    Need(input.voyageId in w.voyages, NotFound,
    Need(input.voyageId in w.voyages && w.voyages[input.voyageId].state in {Departed, VoyageState.Landed}, Conflict,
    Need(officer in w.users, NotFound,
    Need(officer in w.users && w.users[officer].active && w.users[officer].role == Officer, Conflict,
    Need(forall t | t in w.tasks && w.tasks[t].voyageId == input.voyageId :: w.tasks[t].status != TaskStatus.Pending,
         Conflict,
    Need(!Blank(input.voyageId) && !Blank(coordinator) && !Blank(officer) && !Blank(input.station)
         && TrimSpace(coordinator) != officer && now + ttl != ZERO_TIME, Validation,
    Need(id !in w.tasks, Conflict, None))))))))
  }

  /** A task is given to an active officer, and nobody hands over to himself. */
  lemma TaskAnswers(w: World, p: Principal, input: TaskInput, ttl: int, now: int, id: Id)
    ensures Answered(CreateTask(w, p, input, ttl, now, id), TaskVerdict(w, p, input, ttl, now, id))
  {
    NothingOpen(w, input.voyageId);
    TrimIsIdle(if Blank(input.coordinatorId) then p.userId else input.coordinatorId);
    TrimIsIdle(input.officerId);
    TrimIsIdle(input.station);
  }

  function ResolveVerdict(w: World, p: Principal, t: Id, now: int): Option<Error> {
    Ask(p, {Officer, Coordinator},
    Need(t in w.tasks, NotFound,
    Need(t in w.tasks && (p.role == Coordinator || p.userId == w.tasks[t].officerId), Conflict,
    Need(t in w.tasks && w.tasks[t].status == TaskStatus.Pending, InvalidTransition,
    Need(t in w.tasks && now <= w.tasks[t].expiresAt, Error.Expired, None)))))
  }

  /** Only the assigned officer or a coordinator answers a task, and in time. */
  lemma ResolveAnswers(w: World, p: Principal, t: Id, accepted: bool, note: string, now: int)
    ensures Answered(ResolveTask(w, p, t, accepted, note, now), ResolveVerdict(w, p, t, now))
  {
  }

  // ---- fleets and the catalog ----

  function ChangeVerdict(w: World, p: Principal, f: Id, change: FleetChange): Option<Error> {
    Need(change.Retire? ==> !Blank(change.reason), Validation,
    Ask(p, {Coordinator},
    Need(f in w.fleets, NotFound,
    if f !in w.fleets then None
    else match change
         case StartMaintenance => Need(w.fleets[f].state == Standby, InvalidTransition, None)
         case CompleteMaintenance => Need(w.fleets[f].state == Maintenance, InvalidTransition, None)
         case Retire(_) => Need(w.fleets[f].state in {Standby, Maintenance}, Conflict, None))))
  }

  lemma ChangeAnswers(w: World, p: Principal, f: Id, change: FleetChange, now: int)
    ensures Answered(ChangeFleet(w, p, f, change, now), ChangeVerdict(w, p, f, change))
  {
  }

  function PermitVerdict(w: World, p: Principal, id: Id, permit: FishingPermit): Option<Error> {
    var code := NormalizeCode(permit.code);
    Ask(p, {Coordinator},
    Need(ValidBusinessCode(code) && !Blank(code) && !Blank(permit.name) && permit.minimum < permit.maximum
         && 0 < permit.maxVoyageDuration <= 14 * 86400 && 0 < permit.reviewDeadline <= 7 * 86400 && permit.zoneLoads,
         Validation,
    Need(id !in w.permits && forall k | k in w.permits :: w.permits[k].code != code, Conflict, None)))
  }

  lemma PermitAnswers(w: World, p: Principal, id: Id, permit: FishingPermit)
    ensures Answered(CreatePermit(w, p, id, permit), PermitVerdict(w, p, id, permit))
  {
  }

  function ActivateVerdict(w: World, p: Principal, id: Id): Option<Error> {
    Ask(p, {Coordinator},
    Need(id in w.permits, NotFound,
    Need(id in w.permits && w.permits[id].status == Draft, InvalidTransition, None)))
  }

  lemma ActivateAnswers(w: World, p: Principal, id: Id)
    ensures Answered(ActivatePermit(w, p, id), ActivateVerdict(w, p, id))
  {
  }

  function PortVerdict(w: World, p: Principal, id: Id, port: PortFacility): Option<Error> {
    var code := NormalizeCode(port.code);
    Ask(p, {Coordinator},
    Need(ValidBusinessCode(code) && !Blank(code) && !Blank(port.name) && port.zoneLoads
         && 1 <= port.dailyLimit <= 10000 && 0 <= port.cutoffHour <= 23, Validation,
    Need(id !in w.ports && forall k | k in w.ports :: w.ports[k].code != code, Conflict, None)))
  }

  lemma PortAnswers(w: World, p: Principal, id: Id, port: PortFacility)
    ensures Answered(CreatePort(w, p, id, port), PortVerdict(w, p, id, port))
  {
  }

  function FleetVerdict(w: World, p: Principal, id: Id, fleet: SupportFleet): Option<Error> {
    var code := NormalizeCode(fleet.code);
    Ask(p, {Coordinator},
    Need(ValidBusinessCode(code) && !Blank(code) && 100 <= fleet.cargo <= 1000000
         && fleet.certifiedUntil != ZERO_TIME && fleet.inspectedAt != ZERO_TIME, Validation,
    Need(id !in w.fleets && forall k | k in w.fleets :: w.fleets[k].code != code, Conflict, None)))
  }

  lemma FleetAnswers(w: World, p: Principal, id: Id, fleet: SupportFleet, now: int)
    ensures Answered(CreateFleet(w, p, id, fleet, now), FleetVerdict(w, p, id, fleet))
  {
  }

  function RegisterVerdict(w: World, p: Principal, id: Id, v: FishingVessel): Option<Error> {
    Ask(p, {Coordinator},
    Need(!Blank(v.permitId) && !Blank(v.portId) && !Blank(v.registry) && !Blank(v.vesselClass)
         && v.voyageCount >= 1 && v.hold >= 1 && v.expiresAt != ZERO_TIME, Validation,
    Need(v.permitId in w.permits && v.portId in w.ports && id !in w.vessels
         && forall k | k in w.vessels :: !(w.vessels[k].permitId == v.permitId && w.vessels[k].registry == v.registry),
         Conflict, None)))
  }

  lemma RegisterAnswers(w: World, p: Principal, id: Id, v: FishingVessel, now: int)
    ensures Answered(RegisterVessel(w, p, id, v, now), RegisterVerdict(w, p, id, v))
  {
  }

  function VerifyVerdict(w: World, p: Principal, id: Id, now: int): Option<Error> {
    Ask(p, {Coordinator},
    Need(id in w.vessels, NotFound,
    if id in w.vessels then ReleaseVerdict(w.vessels[id], now) else None))
  }

  lemma VerifyAnswers(w: World, p: Principal, id: Id, now: int)
    ensures Answered(VerifyVessel(w, p, id, now), VerifyVerdict(w, p, id, now))
  {
    if id in w.vessels { SeaReadyAnswers(w.vessels[id], now); }
  }
}
