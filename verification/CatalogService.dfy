/** Landing tasks, fleet maintenance, vessel registration and the closure report as the services
    carry them out (internal/service/catch_landing.go, support_fleet.go, catalog.go,
    internal/storage/sqlite/read_readiness.go). */
module CatalogService {
  import opened Basics
  import opened Domain
  import opened Commands
  import opened Readiness
  import opened Records
  import opened Storage

  // ---- catch landing tasks ----

  method CreateCatchLandingTask(store: Store, p: Principal, input: TaskInput, ttl: int, now: int, id: Id)
      returns (r: Result<CatchLandingTask>)
    modifies store
    ensures Realises(old(store.db), CreateTask(old(store.db), p, input, ttl, now, id), store.db, r)
  {
    var role := RequireRole(p, {Captain, Coordinator});
    if role.Fail? { return Failure(role.reason); }
    var coordinator := input.coordinatorId;
    if TrimSpace(coordinator) == "" { coordinator := p.userId; }
    if input.voyageId !in store.db.voyages { return Failure(NotFound); }
    var run := store.db.voyages[input.voyageId];
    if run.state != Departed && run.state != VoyageState.Landed { return Failure(Conflict); }
    if TrimSpace(input.officerId) !in store.db.users { return Failure(NotFound); }
    var receiver := store.db.users[TrimSpace(input.officerId)];
    if !(receiver.active && receiver.role == Officer) { return Failure(Conflict); }
    var pending := store.GetPendingCatchLanding(input.voyageId);
    if pending.Some? { return Failure(Conflict); }
    var task := CatchLandingTask(input.voyageId, TrimSpace(coordinator), TrimSpace(input.officerId),
      TrimSpace(input.station),
                                 TaskStatus.Pending, now + ttl, None, "", 1, now);
    if !task.Valid() { return Failure(Validation); }
    var inserted := store.InsertCatchLandingTask(id, task);
    if inserted.Failure? { return Failure(inserted.error); }
    return Success(task);
  }

  method ResolveCatchLandingTask(store: Store, p: Principal, id: Id, accepted: bool, note: string, now: int)
      returns (r: Result<CatchLandingTask>)
    modifies store
    ensures Realises(old(store.db), ResolveTask(old(store.db), p, id, accepted, note, now), store.db, r)
  {
    var role := RequireRole(p, {Officer, Coordinator});
    if role.Fail? { return Failure(role.reason); }
    if id !in store.db.tasks { return Failure(NotFound); }
    var task := new TaskRecord(store.db.tasks[id]);
    if task.row.officerId != p.userId && p.role != Coordinator { return Failure(Conflict); }
    var status := TaskStatus.Denied;
    if accepted { status := Approved; }
    var resolved := task.Resolve(status, note, now);
    if resolved.Failure? { return Failure(resolved.error); }
    var updated := store.UpdateCatchLandingTask(id, task.row, task.row.version);
    assert updated.Success?;
    return Success(task.row);
  }

  // ---- fleets ----

  method ChangeSupportFleet(store: Store, p: Principal, f: Id, change: FleetChange, now: int)
      returns (r: Result<SupportFleet>)
    modifies store
    ensures Realises(old(store.db), ChangeFleet(old(store.db), p, f, change, now), store.db, r)
  {
    if change.Retire? && TrimSpace(change.reason) == "" { return Failure(Validation); }
    var role := RequireRole(p, {Coordinator});
    if role.Fail? { return Failure(role.reason); }
    if f !in store.db.fleets { return Failure(NotFound); }
    var fleet := new FleetRecord(store.db.fleets[f]);
    var before := fleet.row.version;
    var changed := fleet.Change(change, now);
    if changed.Failure? { return Failure(changed.error); }
    var updated := store.UpdateSupportFleet(f, fleet.row, before);
    assert updated.Success?;
    return Success(fleet.row);
  }

  // ---- permits and ports ----

  method CreateFishingPermit(store: Store, p: Principal, id: Id, permit: FishingPermit)
      returns (r: Result<FishingPermit>)
    modifies store
    ensures Realises(old(store.db), CreatePermit(old(store.db), p, id, permit), store.db, r)
  {
    var role := RequireRole(p, {Coordinator});
    if role.Fail? { return Failure(role.reason); }
    var row := permit;
    row := row.(code := NormalizeCode(row.code));
    if !ValidBusinessCode(row.code) { return Failure(Validation); }
    row := row.(status := Draft);
    row := row.(version := 1);
    if !row.Valid() { return Failure(Validation); }
    if id in store.db.permits || exists k :: k in store.db.permits && store.db.permits[k].code == row.code {
      return Failure(Conflict);
    }
    store.db := store.db.(permits := store.db.permits[id := row]);
    return Success(row);
  }

  method ActivateFishingPermit(store: Store, p: Principal, id: Id) returns (r: Result<FishingPermit>)
    modifies store
    ensures Realises(old(store.db), ActivatePermit(old(store.db), p, id), store.db, r)
  {
    var role := RequireRole(p, {Coordinator});
    if role.Fail? { return Failure(role.reason); }
    if id !in store.db.permits { return Failure(NotFound); }
    var row := store.db.permits[id];
    if row.status != Draft { return Failure(InvalidTransition); }
    row := row.(status := PermitStatus.Active);
    store.db := store.db.(permits := store.db.permits[id := row.(version := row.version + 1)]);
    return Success(row);
  }

  method CreatePortFacility(store: Store, p: Principal, id: Id, port: PortFacility) returns (r: Result<PortFacility>)
    modifies store
    ensures Realises(old(store.db), CreatePort(old(store.db), p, id, port), store.db, r)
  {
    var role := RequireRole(p, {Coordinator});
    if role.Fail? { return Failure(role.reason); }
    var row := port;
    row := row.(code := NormalizeCode(row.code));
    if !ValidBusinessCode(row.code) { return Failure(Validation); }
    row := row.(active := true);
    row := row.(version := 1);
    if !row.Valid() { return Failure(Validation); }
    if id in store.db.ports || exists k :: k in store.db.ports && store.db.ports[k].code == row.code {
      return Failure(Conflict);
    }
    store.db := store.db.(ports := store.db.ports[id := row]);
    return Success(row);
  }

  // ---- vessels ----

  method RegisterFishingVessel(store: Store, p: Principal, id: Id, vessel: FishingVessel, now: int)
      returns (r: Result<FishingVessel>)
    modifies store
    ensures Realises(old(store.db), RegisterVessel(old(store.db), p, id, vessel, now), store.db, r)
  {
    var role := RequireRole(p, {Coordinator});
    if role.Fail? { return Failure(role.reason); }
    var batch := vessel;
    batch := batch.(state := Berthed);
    batch := batch.(version := 1);
    batch := batch.(updatedAt := now);
    if !batch.Valid() { return Failure(Validation); }
    if batch.permitId !in store.db.permits || batch.portId !in store.db.ports || id in store.db.vessels
       || exists k ::
            k in store.db.vessels && store.db.vessels[k].permitId == batch.permitId
            && store.db.vessels[k].registry == batch.registry
    {
      return Failure(Conflict);
    }
    store.db := store.db.(vessels := store.db.vessels[id := batch]);
    return Success(batch);
  }

  method VerifyFishingVessel(store: Store, p: Principal, id: Id, now: int) returns (r: Result<FishingVessel>)
    modifies store
    ensures Realises(old(store.db), VerifyVessel(old(store.db), p, id, now), store.db, r)
  {
    var role := RequireRole(p, {Coordinator});
    if role.Fail? { return Failure(role.reason); }
    if id !in store.db.vessels { return Failure(NotFound); }
    var batch := new VesselRecord(store.db.vessels[id]);
    var moved := batch.Transition(SeaReady, now);
    if moved.Failure? { return Failure(moved.error); }
    var written := store.UpdateFishingVessel(id, batch.row, batch.row.version);
    assert written.Success?;
    return Success(batch.row);
  }

  method CreateSupportFleet(store: Store, p: Principal, id: Id, fleet: SupportFleet, now: int)
      returns (r: Result<SupportFleet>)
    modifies store
    ensures Realises(old(store.db), CreateFleet(old(store.db), p, id, fleet, now), store.db, r)
  {
    var role := RequireRole(p, {Coordinator});
    if role.Fail? { return Failure(role.reason); }
    var row := fleet;
    row := row.(code := NormalizeCode(row.code));
    if !ValidBusinessCode(row.code) { return Failure(Validation); }
    row := row.(state := Standby);
    row := row.(version := 1);
    row := row.(updatedAt := now);
    if !row.Valid() { return Failure(Validation); }
    if id in store.db.fleets || exists k :: k in store.db.fleets && store.db.fleets[k].code == row.code {
      return Failure(Conflict);
    }
    store.db := store.db.(fleets := store.db.fleets[id := row]);
    return Success(row);
  }

  // ---- the closure report ----

  /** SELECT MAX(recorded_at). */
  method LastDeclaration(store: Store, y: Id) returns (last: Option<int>)
    ensures IsLatest(store.db, y, last)
  {
    var times := map d | d in store.db.declarations && store.db.declarations[d].voyageId
      == y :: store.db.declarations[d].recordedAt;
    last := Greatest(times);
    assert forall d | d in times :: d in store.db.declarations && times[d] == store.db.declarations[d].recordedAt;
  }

  method Greatest(times: map<Id, int>) returns (last: Option<int>)
    ensures last.None? <==> times == map[]
    ensures last.Some? ==>
              (exists d :: d in times && times[d] == last.value) && forall d | d in times :: times[d] <= last.value
  {
    last := None;
    var left := times.Keys;
    while left != {}
      invariant left <= times.Keys && (last.None? <==> left == times.Keys)
      invariant last.Some? ==> (exists d :: d in times && times[d] == last.value) && forall d | d in times
                && d !in left :: times[d] <= last.value
      decreases |left|
    {
      var d :| d in left;
      left := left - {d};
      if last.None? || times[d] > last.value { last := Some(times[d]); }
    }
  }

  method CountCrewInState(store: Store, y: Id, s: VesselState) returns (count: nat)
    ensures count == |InState(store.db, y, s)|
  {
    var rows := set x | x in Crew(store.db.links, y) && x in store.db.vessels && store.db.vessels[x].state == s;
    assert rows == InState(store.db, y, s);
    count := |rows|;
  }

  method CountCrewAfterLanding(store: Store, y: Id) returns (count: nat)
    ensures count == |AfterLanding(store.db, y)|
  {
    var rows := set x | x in Crew(store.db.links, y) && x in store.db.vessels
                        && store.db.vessels[x].state
                           in {VesselState.Landed, Reinspected, VesselState.Retired, Quarantined};
    assert rows == AfterLanding(store.db, y);
    count := |rows|;
  }

  /** The report is built from one state and evaluated in place. */
  method GetVoyageReadiness(store: Store, y: Id) returns (r: Result<VoyageReadiness>)
    ensures y !in store.db.voyages ==> r == Failure(NotFound)
    ensures y in store.db.voyages ==>
              && r.Success? && fresh(r.value)
              && IsLatest(store.db, y, r.value.figures.lastDeclarationAt)
              && r.value.figures == Report(store.db, y, r.value.figures.lastDeclarationAt)
              && r.value.blockers == r.value.figures.Blockers() && (r.value.complete <==> r.value.figures.Complete())
  {
    if y !in store.db.voyages { return Failure(NotFound); }
    var landed := CountCrewAfterLanding(store, y);
    var reinspected := CountCrewInState(store, y, Reinspected);
    var retired := CountCrewInState(store, y, VesselState.Retired);
    var quarantined := CountCrewInState(store, y, Quarantined);
    var pending := store.GetPendingCatchLanding(y);
    var active := store.GetActiveCatchAnomaly(y);
    var last := LastDeclaration(store, y);
    var report := new VoyageReadiness(Figures(store.db.voyages[y].state, |Crew(store.db.links, y)|, landed,
      reinspected, retired, quarantined,
                                              pending.Some?, active.Some?, last));
    report.Evaluate();
    return Success(report);
  }
}
