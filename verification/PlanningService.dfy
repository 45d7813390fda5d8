/** PlanFishingVoyage as the service carries it out: the replay check, the screening loops, and the
    writes, all inside one transaction (internal/service/fishing_voyage.go). */
module PlanningService {
  import opened Basics
  import opened Domain
  import opened Commands
  import opened Records
  import opened Storage

  // ---- screening ----

  /** The rows are visited one by one, in no particular order, and those the WHERE clause keeps
      are counted. */
  method CountPortFacilityFishingVoyagesForWindow(store: Store, port: Id, start: int, end: int) returns (count: nat)
    ensures count == |OpeningsIn(store.db.voyages, port, start, end)|
  {
    var voyages := store.db.voyages;
    var left := voyages.Keys;
    ghost var counted: set<Id> := {};
    count := 0;
    while left != {}
      invariant left <= voyages.Keys && count == |counted|
      invariant counted == OpeningsIn(voyages, port, start, end) - left
      decreases |left|
    {
      var y :| y in left;
      left := left - {y};
      var run := voyages[y];
      if run.departurePortId == port && run.opensAt >= start && run.opensAt < end && run.state != Cancelled {
        count := count + 1;
        counted := counted + {y};
      }
    }
  }

  method ScreenRoute(store: Store, input: PlanInput) returns (r: Result<()>)
    ensures match RouteObjection(store.db, input) case Some(e) => r == Failure(e) case None => r.Success?
  {
    if input.permitId !in store.db.permits { return Failure(NotFound); }
    if store.db.permits[input.permitId].status != PermitStatus.Active { return Failure(Conflict); }
    if input.departurePortId !in store.db.ports { return Failure(NotFound); }
    if input.landingPortId !in store.db.ports { return Failure(NotFound); }
    var source, target := store.db.ports[input.departurePortId], store.db.ports[input.landingPortId];
    if !source.active || !target.active { return Failure(Conflict); }
    if Blank(input.departurePortId) || Blank(input.landingPortId) { return Failure(Validation); }
    if input.departurePortId == input.landingPortId { return Failure(Validation); }
    var (start, end) := source.OperatingDayWindow(input.opensAt);
    var count := CountPortFacilityFishingVoyagesForWindow(store, input.departurePortId, start, end);
    if count >= source.dailyLimit { return Failure(Conflict); }
    return Success(());
  }

  function Chosen(vessel: FishingVessel, now: int): FishingVessel {
    vessel.(state := VesselState.Assigned, updatedAt := now)
  }

  /** The screened vessels as they were read and moved to assigned. */
  ghost predicate Screened(vessels: map<Id, FishingVessel>, ids: seq<Id>, batches: seq<(Id, FishingVessel)>, now: int) {
    && |batches| == |ids|
    && (forall k | 0 <= k < |ids| :: ids[k] in vessels && batches[k] == (ids[k], Chosen(vessels[ids[k]], now)))
    && NoneTwice(ids)
  }

  /** The vessel loop: duplicates, ownership and state, with the running volume. */
  lemma ScreenNext(vessels: map<Id, FishingVessel>, done: seq<Id>, batches: seq<(Id, FishingVessel)>, x: Id, now: int)
    requires Screened(vessels, done, batches, now) && x in vessels && x !in done
    ensures Screened(vessels, done + [x], batches + [(x, Chosen(vessels[x], now))], now)
  {
    var longer := done + [x];
    forall k {:trigger longer[..k]} | 0 <= k < |longer| ensures longer[k] !in longer[..k] {
      assert longer[..k] == done[..k];
    }
  }

  method ScreenVessels(store: Store, input: PlanInput, now: int) returns (r: Result<(int, seq<(Id, FishingVessel)>)>)
    ensures match VesselObjection(store.db, input, 0, now)
            case Some(e) => r == Failure(e)
            case None =>
              && r.Success? && r.value.0 == Volume(store.db, input.vesselIds, |input.vesselIds|)
              && Screened(store.db.vessels, input.vesselIds, r.value.1, now)
  {
    var ids, volume, seen := input.vesselIds, 0, {};
    var batches: seq<(Id, FishingVessel)> := [];
    for i := 0 to |ids|
      invariant VesselObjection(store.db, input, 0, now) == VesselObjection(store.db, input, i, now)
      invariant volume == Volume(store.db, ids, i) && seen == Members(ids[..i])
      invariant Screened(store.db.vessels, ids[..i], batches, now)
    {
      if ids[i] in seen { return Failure(Conflict); }
      seen := seen + {ids[i]};
      assert ids[..i + 1] == ids[..i] + [ids[i]];
      if ids[i] !in store.db.vessels { return Failure(NotFound); }
      var batch := new VesselRecord(store.db.vessels[ids[i]]);
      if batch.row.permitId != input.permitId || batch.row.portId != input.departurePortId { return Failure(Conflict); }
      var moved := batch.Transition(VesselState.Assigned, now);
      if moved.Failure? { return Failure(moved.error); }
      volume := volume + batch.row.hold;
      ScreenNext(store.db.vessels, ids[..i], batches, ids[i], now);
      batches := batches + [(ids[i], batch.row)];
    }
    assert ids[..|ids|] == ids;
    return Success((volume, batches));
  }

  /** VoyageWindow.Validate. */
  method ValidateWindow(permit: FishingPermit, batches: seq<(Id, FishingVessel)>, opensAt: int, deadlineAt: int,
                        now: int) returns (r: Result<()>)
    ensures r == if opensAt == ZERO_TIME || deadlineAt == ZERO_TIME || deadlineAt <= opensAt then Failure(Validation)
                 else if deadlineAt - opensAt > permit.maxVoyageDuration || opensAt < now - GRACE
                      || (exists k :: 0 <= k < |batches| && batches[k].1.expiresAt <= deadlineAt) then Failure(Conflict)
                 else Success(())
  {
    if opensAt == ZERO_TIME || deadlineAt == ZERO_TIME { return Failure(Validation); }
    if !(deadlineAt > opensAt) { return Failure(Validation); }
    if deadlineAt - opensAt > permit.maxVoyageDuration { return Failure(Conflict); }
    if opensAt < now - GRACE { return Failure(Conflict); }
    for i := 0 to |batches|
      invariant forall k | 0 <= k < i :: batches[k].1.expiresAt > deadlineAt
    {
      if !(batches[i].1.expiresAt > deadlineAt) { return Failure(Conflict); }
    }
    return Success(());
  }

  lemma WindowsAgree(w: World, input: PlanInput, batches: seq<(Id, FishingVessel)>, now: int)
    requires Screened(w.vessels, input.vesselIds, batches, now)
    ensures (exists k :: 0 <= k < |batches| && batches[k].1.expiresAt <= input.deadlineAt) <==>
            exists i :: 0 <= i < |input.vesselIds| && input.vesselIds[i] in w.vessels
              && w.vessels[input.vesselIds[i]].expiresAt <= input.deadlineAt
  {
  }

  /** Every check of a plan, in the order the service makes them. */
  method Screen(store: Store, input: PlanInput, now: int) returns (r: Result<(int, seq<(Id, FishingVessel)>)>)
    ensures match PlanObjection(store.db, input, now)
            case Some(e) => r == Failure(e)
            case None =>
              && r.Success? && r.value.0 == Volume(store.db, input.vesselIds, |input.vesselIds|)
              && input.fleetId in store.db.fleets && Screened(store.db.vessels, input.vesselIds, r.value.1, now)
  {
    var route := ScreenRoute(store, input);
    if route.Failure? { return Failure(route.error); }
    if input.fleetId !in store.db.fleets { return Failure(NotFound); }
    var fleet := store.db.fleets[input.fleetId];
    var eligible := fleet.EligibleFor(input.opensAt, 1);
    if eligible.Some? { return Failure(eligible.value); }
    r := ScreenVessels(store, input, now);
    if r.Failure? { return; }
    WindowsAgree(store.db, input, r.value.1, now);
    var window := ValidateWindow(store.db.permits[input.permitId], r.value.1, input.opensAt, input.deadlineAt, now);
    if window.Failure? { return Failure(window.error); }
    var loaded := fleet.EligibleFor(input.opensAt, r.value.0);
    if loaded.Some? { return Failure(loaded.value); }
    if !NewVoyage(input, r.value.0, now).Valid() { return Failure(Validation); }
  }

  // ---- writing ----

  ghost predicate CrewBooked(before: map<Id, FishingVessel>, after: map<Id, FishingVessel>, done: seq<Id>, y: Id,
                             now: int)
  {
    after.Keys == before.Keys && forall x | x in before :: after[x] == if x in done then Booked(before[x], y, now)
      else before[x]
  }

  ghost predicate CrewLinked(before: map<Id, Id>, after: map<Id, Id>, done: seq<Id>, y: Id) {
    && (forall x :: x in after <==> x in before || x in done) && (forall x | x in done :: x !in before)
    && (forall x | x in after :: after[x] == if x in done then y else before[x])
  }

  lemma BookNext(before: map<Id, FishingVessel>, after: map<Id, FishingVessel>, done: seq<Id>, x: Id, y: Id, now: int)
    requires CrewBooked(before, after, done, y, now) && x in before && x !in done
    ensures CrewBooked(before, after[x := Booked(before[x], y, now)], done + [x], y, now)
  {
  }

  lemma LinkNext(before: map<Id, Id>, after: map<Id, Id>, done: seq<Id>, x: Id, y: Id)
    requires CrewLinked(before, after, done, y) && x !in after
    ensures CrewLinked(before, after[x := y], done + [x], y)
  {
  }

  /** One vessel is updated and linked; the UNIQUE vessel column refuses a vessel that has ever
      been linked before. */
  method WriteVessel(store: Store, y: Id, x: Id, batch: FishingVessel, now: int) returns (r: Result<()>)
    requires x in store.db.vessels && batch == Chosen(store.db.vessels[x], now)
    modifies store
    ensures var w := old(store.db);
            if x in w.links then r == Failure(Conflict)
            else r.Success? && store.db == w.(vessels := w.vessels[x := Booked(w.vessels[x], y, now)],
              links := w.links[x := y])
  {
    var row := batch.(voyageId := y);
    var written := store.UpdateFishingVessel(x, row, row.version);
    assert written.Success?;
    r := store.InsertFishingVoyageVesselLink(y, x);
  }

  /** The write loop over the crew. */
  ghost predicate CrewWritten(w: World, n: World, done: seq<Id>, y: Id, now: int) {
    && n == w.(vessels := n.vessels, links := n.links)
    && CrewBooked(w.vessels, n.vessels, done, y, now) && CrewLinked(w.links, n.links, done, y)
  }

  lemma CrewNext(w: World, n: World, done: seq<Id>, x: Id, y: Id, now: int)
    requires CrewWritten(w, n, done, y, now) && x in w.vessels && x !in done
    ensures x in n.vessels && n.vessels[x] == w.vessels[x] && (x in n.links ==> x in w.links)
    ensures x !in n.links ==>
              CrewWritten(w, n.(vessels := n.vessels[x := Booked(w.vessels[x], y, now)], links := n.links[x := y]),
                          done + [x], y, now)
  {
    BookNext(w.vessels, n.vessels, done, x, y, now);
    if x !in n.links { LinkNext(w.links, n.links, done, x, y); }
  }

  method WriteCrew(store: Store, y: Id, ghost ids: seq<Id>, batches: seq<(Id, FishingVessel)>, now: int)
      returns (r: Result<()>)
    requires Screened(store.db.vessels, ids, batches, now)
    modifies store
    ensures var w := old(store.db);
            && (r.Success? ==> store.db == w.(vessels := store.db.vessels, links := store.db.links)
                               && CrewBooked(w.vessels, store.db.vessels, ids, y, now)
                                 && CrewLinked(w.links, store.db.links, ids, y))
            && (r.Failure? ==> r.error == Conflict && exists k :: 0 <= k < |ids| && ids[k] in w.links)
  {
    ghost var w := store.db;
    for i := 0 to |batches|
      invariant |ids| == |batches| && CrewWritten(w, store.db, ids[..i], y, now)
    {
      var (x, batch) := batches[i];
      assert ids[i] == x && x !in ids[..i] && ids[..i + 1] == ids[..i] + [x];
      CrewNext(w, store.db, ids[..i], x, y, now);
      var written := WriteVessel(store, y, x, batch, now);
      if written.Failure? {
        assert ids[i] in w.links;
        return written;
      }
    }
    assert ids[..|batches|] == ids;
    return Success(());
  }

  /** The fleet, the idempotency record and the planning job. */
  method BookAndQueue(store: Store, input: PlanInput, run: FishingVoyage, now: int, y: Id, jobId: Id)
      returns (r: Result<()>)
    requires input.fleetId in store.db.fleets
    modifies store
    ensures var w := old(store.db); var f := w.fleets[input.fleetId];
            if jobId in w.jobs then r == Failure(Conflict)
            else r.Success? && store.db == w.(
                   fleets := w.fleets[input.fleetId := f.(state := FleetState.Assigned, voyageId := y,
                     updatedAt := now, version := f.version + 1)],
                   keys := PutKey(w.keys, input.key, KeyRecord(input, (y, run), now + DAY, now)),
                   jobs := w.jobs[jobId := NewJob(VoyagePlanned, y, VoyageBody(run), now)])
  {
    var fleet := store.db.fleets[input.fleetId];
    fleet := fleet.(state := FleetState.Assigned);
    fleet := fleet.(voyageId := y);
    fleet := fleet.(updatedAt := now);
    var booked := store.UpdateSupportFleet(input.fleetId, fleet, fleet.version);
    assert booked.Success?;
    store.PutIdempotency(input.key, KeyRecord(input, (y, run), now + DAY, now));
    r := store.InsertJob(jobId, NewJob(VoyagePlanned, y, VoyageBody(run), now));
  }

  lemma PlanWritten(w: World, vessels: map<Id, FishingVessel>, links: map<Id, Id>, input: PlanInput, now: int, y: Id,
                    jobId: Id)
    requires input.fleetId in w.fleets
    requires CrewBooked(w.vessels, vessels, input.vesselIds, y, now) && CrewLinked(w.links, links, input.vesselIds, y)
    ensures var n := PlannedWorld(w, input, now, y, jobId); n.vessels == vessels && n.links == links
  {
  }

  /** The store after the plan, table by table. */
  ghost predicate HasPlan(w: World, n: World, input: PlanInput, run: FishingVoyage, now: int, y: Id, jobId: Id)
    requires input.fleetId in w.fleets
  {
    var f := w.fleets[input.fleetId];
    && n == w.(voyages := n.voyages, plannedUnder := n.plannedUnder, vessels := n.vessels, links := n.links,
      fleets := n.fleets,
               keys := n.keys, jobs := n.jobs)
    && n.voyages == w.voyages[y := run] && n.plannedUnder == w.plannedUnder[y := input.key]
    && n.fleets == w.fleets[input.fleetId := f.(state := FleetState.Assigned, voyageId := y, updatedAt := now,
      version := f.version + 1)]
    && n.keys == PutKey(w.keys, input.key, KeyRecord(input, (y, run), now + DAY, now))
    && n.jobs == w.jobs[jobId := NewJob(VoyagePlanned, y, VoyageBody(run), now)]
  }

  lemma PlannedHasPlan(w: World, input: PlanInput, now: int, y: Id, jobId: Id)
    requires input.fleetId in w.fleets
    ensures HasPlan(w, PlannedWorld(w, input, now, y, jobId), input,
                    NewVoyage(input, Volume(w, input.vesselIds, |input.vesselIds|), now), now, y, jobId)
  {
  }

  lemma PlanIsUnique(w: World, n: World, m: World, input: PlanInput, run: FishingVoyage, now: int, y: Id, jobId: Id)
    requires input.fleetId in w.fleets
    requires HasPlan(w, n, input, run, now, y, jobId) && HasPlan(w, m, input, run, now, y, jobId)
    requires n.vessels == m.vessels && n.links == m.links
    ensures n == m
  {
  }

  /** The plan's writes, up to the first constraint that refuses one. */
  method WriteRows(store: Store, input: PlanInput, run: FishingVoyage, batches: seq<(Id, FishingVessel)>, now: int,
                   y: Id, jobId: Id) returns (r: Result<()>)
    requires input.fleetId in store.db.fleets && Screened(store.db.vessels, input.vesselIds, batches, now)
    requires run.code == TrimSpace(input.code)
    modifies store
    ensures var w := old(store.db);
            if PlanClashes(w, input, y, jobId) then r == Failure(Conflict)
            else r.Success? && HasPlan(w, store.db, input, run, now, y, jobId)
                 && CrewBooked(w.vessels, store.db.vessels, input.vesselIds, y, now)
                   && CrewLinked(w.links, store.db.links, input.vesselIds, y)
  {
    var inserted := store.InsertFishingVoyage(y, run, input.key);
    if inserted.Failure? { return inserted; }
    var crew := WriteCrew(store, y, input.vesselIds, batches, now);
    if crew.Failure? { return crew; }
    r := BookAndQueue(store, input, run, now, y, jobId);
  }

  method WritePlan(store: Store, input: PlanInput, run: FishingVoyage, batches: seq<(Id, FishingVessel)>, now: int,
                   y: Id, jobId: Id) returns (r: Result<()>)
    requires input.fleetId in store.db.fleets && Screened(store.db.vessels, input.vesselIds, batches, now)
    requires run == NewVoyage(input, Volume(store.db, input.vesselIds, |input.vesselIds|), now)
    modifies store
    ensures var w := old(store.db);
            if PlanClashes(w, input, y, jobId) then r == Failure(Conflict)
            else r.Success? && store.db == PlannedWorld(w, input, now, y, jobId)
  {
    ghost var w := store.db;
    r := WriteRows(store, input, run, batches, now, y, jobId);
    if r.Success? {
      PlanWritten(w, store.db.vessels, store.db.links, input, now, y, jobId);
      PlannedHasPlan(w, input, now, y, jobId);
      PlanIsUnique(w, store.db, PlannedWorld(w, input, now, y, jobId), input, run, now, y, jobId);
    }
  }

  method PlanFishingVoyage(store: Store, p: Principal, input: PlanInput, now: int, y: Id, jobId: Id)
      returns (r: Result<(Id, FishingVoyage)>)
    modifies store
    ensures Realises(old(store.db), Plan(old(store.db), p, input, now, y, jobId), store.db, r)
  {
    var role := RequireRole(p, {Coordinator});
    if role.Fail? { return Failure(role.reason); }
    if |input.vesselIds| == 0 { return Failure(Validation); }
    if !ValidIdempotencyKey(input.key) { return Failure(Validation); }
    var before := store.db;
    if input.key in store.db.keys {
      var existing := store.db.keys[input.key];
      if existing.expiresAt > now {
        if existing.request != input { return Failure(Conflict); }
        return Success(existing.response);
      }
    }
    var screened := Screen(store, input, now);
    if screened.Failure? { return Failure(screened.error); }
    var (volume, batches) := screened.value;
    var run := NewVoyage(input, volume, now);
    var written := WritePlan(store, input, run, batches, now, y, jobId);
    if written.Failure? {
      store.db := before;
      return Failure(written.error);
    }
    return Success((y, run));
  }
}
