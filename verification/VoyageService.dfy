/** Transitions and cancellation as the service carries them out, statement by
    statement inside one transaction (internal/service/fishing_voyage.go). */
module VoyageService {
  import opened Basics
  import opened Domain
  import opened Commands
  import opened Records
  import opened Storage

  // ---- transitions ----

  /** The crew rows written so far: the vessels of `done` have been carried along. */
  ghost predicate CarriedSoFar(before: map<Id, FishingVessel>, after: map<Id, FishingVessel>, done: seq<Id>,
                               target: VoyageState, now: int)
  {
    && after.Keys == before.Keys
    && forall x | x in before :: after[x] == if x in done then Written(before[x], target, now) else before[x]
  }

  lemma CarryNext(before: map<Id, FishingVessel>, after: map<Id, FishingVessel>, done: seq<Id>, x: Id,
                  target: VoyageState, now: int)
    requires CarriedSoFar(before, after, done, target, now) && x in before && x !in done
    ensures CarriedSoFar(before, after[x := Written(before[x], target, now)], done + [x], target, now)
    ensures target !in {Departed, VoyageState.Landed} && Carried(before[x], target, now).Success?
            ==> after[x := Written(before[x], target, now)] == after
  {
  }

  lemma AllCarried(w: World, after: map<Id, FishingVessel>, done: seq<Id>, y: Id, target: VoyageState, now: int)
    requires CarriedSoFar(w.vessels, after, done, target, now)
    requires forall x :: x in done <==> x in Crew(w.links, y) && x in w.vessels
    ensures after == CarriedVessels(w, y, target, now)
  {
  }

  /** The first vessel to refuse, everyone before it having gone along, decides the error. */
  lemma FirstRefusal(w: World, y: Id, target: VoyageState, now: int, ids: seq<Id>, i: nat)
    requires InOrder(ids) && i < |ids| && (forall x :: x in ids <==> x in Crew(w.links, y) && x in w.vessels)
    requires forall x | x in ids[..i] :: x in w.vessels && Carried(w.vessels[x], target, now).Success?
    requires Carried(w.vessels[ids[i]], target, now).Failure?
    ensures ids[i] in CrewRefusals(w, y, target, now)
    ensures CrewObjection(w, y, target, now) == Carried(w.vessels[ids[i]], target, now).error
  {
    var refusals := CrewRefusals(w, y, target, now);
    forall x | x in refusals && x != ids[i] ensures Before(ids[i], x) {
      assert x in ids;
      var k :| 0 <= k < |ids| && ids[k] == x;
      assert k > i;
    }
    assert ids[i] in ids && ids[i] in refusals;
    FirstIsUnique(refusals, ids[i], FirstOf(refusals));
  }

  lemma NobodyRefuses(w: World, y: Id, target: VoyageState, now: int, done: seq<Id>)
    requires forall x :: x in done <==> x in Crew(w.links, y) && x in w.vessels
    requires forall x | x in done :: x in w.vessels && Carried(w.vessels[x], target, now).Success?
    ensures CrewRefusals(w, y, target, now) == {}
  {
  }

  /** What transitionAny asks of one vessel of the voyage. */
  method MoveVessel(row: FishingVessel, target: VoyageState, now: int) returns (r: Result<FishingVessel>)
    requires target in {VoyageState.Cleared, Departed, VoyageState.Landed, Closed}
    ensures r == Carried(row, target, now)
  {
    var batch := new VesselRecord(row);
    var ok: Result<()> := Success(());
    match target {
      case Departed =>
        ok := batch.Transition(AtSea, now);
      case Landed =>
        if batch.row.state != Quarantined && batch.row.state != VesselState.Retired && batch.row.state != Reinspected {
          ok := batch.Transition(VesselState.Landed, now);
        }
      case Closed =>
        if batch.row.state != Reinspected && batch.row.state != VesselState.Retired
          && batch.row.state != VesselState.Landed {
          ok := Failure(Conflict);
        }
      case _ =>
    }
    if ok.Failure? { return Failure(ok.error); }
    return Success(batch.row);
  }

  /** What transitionAny does to one vessel of the voyage. */
  method CarryVessel(store: Store, x: Id, row: FishingVessel, target: VoyageState, now: int) returns (r: Result<()>)
    requires target in {VoyageState.Cleared, Departed, VoyageState.Landed, Closed}
    requires x in store.db.vessels && store.db.vessels[x] == row
    modifies store
    ensures match Carried(row, target, now)
            case Failure(e) => r == Failure(e) && store.db == old(store.db)
            case Success(_) =>
              r.Success? && store.db == old(store.db).(vessels := old(store.db).vessels[x := Written(row, target, now)])
  {
    var batch := MoveVessel(row, target, now);
    if batch.Failure? { return Failure(batch.error); }
    if target == Departed || target == VoyageState.Landed {
      var written := store.UpdateFishingVessel(x, batch.value, row.version);
      assert written.Success?;
    } else {
      assert store.db.vessels[x := row] == store.db.vessels;
    }
    return Success(());
  }

  /** The crew loop: every vessel is carried, or the first refusal is reported. */
  method CarryCrew(store: Store, y: Id, target: VoyageState, now: int) returns (r: Result<()>)
    requires target in {VoyageState.Cleared, Departed, VoyageState.Landed, Closed}
    modifies store
    ensures var w := old(store.db);
            && (r.Success? ==>
                 CrewRefusals(w, y, target, now) == {}
                 && store.db == w.(vessels := CarriedVessels(w, y, target, now)))
            && (r.Failure? ==> CrewRefusals(w, y, target, now) != {} && r.error == CrewObjection(w, y, target, now))
  {
    ghost var w := store.db;
    var items := store.ListFishingVoyageVessels(y);
    ghost var ids := Ids(items);
    for i := 0 to |items|
      invariant store.db == w.(vessels := store.db.vessels)
      invariant CarriedSoFar(w.vessels, store.db.vessels, ids[..i], target, now)
      invariant forall x | x in ids[..i] :: x in w.vessels && Carried(w.vessels[x], target, now).Success?
    {
      var (x, row) := items[i];
      OrderedIsDistinct(ids, i);
      assert ids[i] == x && ids[..i + 1] == ids[..i] + [x];
      CarryNext(w.vessels, store.db.vessels, ids[..i], x, target, now);
      var carried := CarryVessel(store, x, row, target, now);
      if carried.Failure? {
        FirstRefusal(w, y, target, now, ids, i);
        return carried;
      }
    }
    assert ids[..|items|] == ids;
    NobodyRefuses(w, y, target, now, ids);
    AllCarried(w, store.db.vessels, ids, y, target, now);
    return Success(());
  }

  /** The crew, the fleet and the voyage are written, or the first of them to refuse is reported. */
  method WriteMove(store: Store, y: Id, run: FishingVoyage, version: int, target: VoyageState, now: int)
      returns (r: Result<()>)
    requires target in {VoyageState.Cleared, Departed, VoyageState.Landed, Closed}
    requires y in store.db.voyages && store.db.voyages[y].version == version
    requires store.db.voyages[y].Transition(target, now) == Success(run)
    modifies store
    ensures var w := old(store.db);
            if CrewRefusals(w, y, target, now) != {} then r == Failure(CrewObjection(w, y, target, now))
            else if run.fleetId !in w.fleets then r == Failure(NotFound)
            else r.Success?
                 && store.db == w.(voyages := w.voyages[y := run.(version := run.version + 1)],
                                   vessels := CarriedVessels(w, y, target, now),
                                   fleets := w.fleets[run.fleetId := Rebooked(w.fleets[run.fleetId], target, now)])
  {
    var carried := CarryCrew(store, y, target, now);
    if carried.Failure? { return carried; }
    var rebooked := RebookFleet(store, run.fleetId, target, now);
    if rebooked.Failure? { return rebooked; }
    r := store.UpdateFishingVoyage(y, run, version);
    assert r.Success?;
  }

  /** The fleet's half of a transition or cancellation. */
  method RebookFleet(store: Store, f: Id, target: VoyageState, now: int) returns (r: Result<()>)
    modifies store
    ensures r == if f in old(store.db).fleets then Success(()) else Failure(NotFound)
    ensures store.db == if f !in old(store.db).fleets then old(store.db)
                        else old(store.db).(fleets :=
                               old(store.db).fleets[f := Rebooked(old(store.db).fleets[f], target, now)])
  {
    if f !in store.db.fleets { return Failure(NotFound); }
    var fleet := store.db.fleets[f];
    var version := fleet.version;
    match target {
      case Departed => fleet := fleet.(state := Deployed);
      case Closed => fleet := fleet.(state := Standby, voyageId := "");
      case Cancelled => fleet := fleet.(state := Standby, voyageId := "");
      case _ =>
    }
    fleet := fleet.(updatedAt := now);
    r := store.UpdateSupportFleet(f, fleet, version);
  }

  method TransitionAny(store: Store, p: Principal, y: Id, target: VoyageState, now: int)
      returns (r: Result<FishingVoyage>)
    requires target in {VoyageState.Cleared, Departed, VoyageState.Landed, Closed}
    modifies store
    ensures Realises(old(store.db), Advance(old(store.db), p, y, target, now), store.db, r)
  {
    var role := RequireRole(p, RolesFor(target));
    if role.Fail? { return Failure(role.reason); }
    var before := store.db;
    if y !in store.db.voyages { return Failure(NotFound); }
    var run := new VoyageRecord(store.db.voyages[y]);
    if target == Closed {
      var pending := store.GetPendingCatchLanding(y);
      if pending.Some? { return Failure(Conflict); }
      var active := store.GetActiveCatchAnomaly(y);
      if active.Some? { return Failure(Conflict); }
    }
    var version := run.row.version;
    var moved := run.Transition(target, now);
    if moved.Failure? { return Failure(moved.error); }
    var written := WriteMove(store, y, run.row, version, target, now);
    if written.Failure? {
      store.db := before;
      return Failure(written.error);
    }
    return Success(run.row);
  }

  method ClearFishingVoyage(store: Store, p: Principal, y: Id, now: int) returns (r: Result<FishingVoyage>)
    modifies store
    ensures Realises(old(store.db), Advance(old(store.db), p, y, VoyageState.Cleared, now), store.db, r)
  {
    r := TransitionAny(store, p, y, VoyageState.Cleared, now);
  }

  method DepartureFishingVoyage(store: Store, p: Principal, y: Id, now: int) returns (r: Result<FishingVoyage>)
    modifies store
    ensures Realises(old(store.db), Advance(old(store.db), p, y, Departed, now), store.db, r)
  {
    r := TransitionAny(store, p, y, Departed, now);
  }

  method ConfirmFishingVoyageLanding(store: Store, p: Principal, y: Id, now: int) returns (r: Result<FishingVoyage>)
    modifies store
    ensures Realises(old(store.db), Advance(old(store.db), p, y, VoyageState.Landed, now), store.db, r)
  {
    r := TransitionAny(store, p, y, VoyageState.Landed, now);
  }

  method CloseFishingVoyage(store: Store, p: Principal, y: Id, now: int) returns (r: Result<FishingVoyage>)
    modifies store
    ensures Realises(old(store.db), Advance(old(store.db), p, y, Closed, now), store.db, r)
  {
    r := TransitionAny(store, p, y, Closed, now);
  }

  // ---- cancelling ----

  ghost predicate ReleasedSoFar(before: map<Id, FishingVessel>, after: map<Id, FishingVessel>, done: seq<Id>,
                                now: int)
  {
    && after.Keys == before.Keys
    && forall x | x in before :: after[x] == if x in done then Released(before[x], now) else before[x]
  }

  lemma ReleaseNext(before: map<Id, FishingVessel>, after: map<Id, FishingVessel>, done: seq<Id>, x: Id, now: int)
    requires ReleasedSoFar(before, after, done, now) && x in before && x !in done
    ensures ReleasedSoFar(before, after[x := Released(before[x], now)], done + [x], now)
  {
  }

  lemma FirstRelease(w: World, y: Id, now: int, ids: seq<Id>, i: nat)
    requires InOrder(ids) && i < |ids| && (forall x :: x in ids <==> x in Crew(w.links, y) && x in w.vessels)
    requires forall x | x in ids[..i] :: x in w.vessels && w.vessels[x].Transition(SeaReady, now).Success?
    requires w.vessels[ids[i]].Transition(SeaReady, now).Failure?
    ensures ids[i] in ReleaseRefusals(w, y, now)
    ensures ReleaseObjection(w, y, now) == w.vessels[ids[i]].Transition(SeaReady, now).error
  {
    var refusals := ReleaseRefusals(w, y, now);
    forall x | x in refusals && x != ids[i] ensures Before(ids[i], x) {
      assert x in ids;
      var k :| 0 <= k < |ids| && ids[k] == x;
      assert k > i;
    }
    assert ids[i] in ids && ids[i] in refusals;
    FirstIsUnique(refusals, ids[i], FirstOf(refusals));
  }

  lemma AllReleased(w: World, after: map<Id, FishingVessel>, done: seq<Id>, y: Id, now: int)
    requires ReleasedSoFar(w.vessels, after, done, now)
    requires forall x :: x in done <==> x in Crew(w.links, y) && x in w.vessels
    requires forall x | x in done :: x in w.vessels && w.vessels[x].Transition(SeaReady, now).Success?
    ensures after == ReleasedVessels(w, y, now) && ReleaseRefusals(w, y, now) == {}
  {
  }

  /** What a cancellation does to one vessel of the voyage. */
  method ReleaseVessel(store: Store, x: Id, row: FishingVessel, now: int) returns (r: Result<()>)
    requires x in store.db.vessels && store.db.vessels[x] == row
    modifies store
    ensures match row.Transition(SeaReady, now)
            case Failure(e) => r == Failure(e) && store.db == old(store.db)
            case Success(_) =>
              r.Success? && store.db == old(store.db).(vessels := old(store.db).vessels[x := Released(row, now)])
  {
    var batch := new VesselRecord(row);
    var moved := batch.Transition(SeaReady, now);
    if moved.Failure? { return Failure(moved.error); }
    batch.row := batch.row.(voyageId := "");
    r := store.UpdateFishingVessel(x, batch.row, batch.row.version);
    assert r.Success?;
  }

  /** The release loop of a cancellation. */
  method ReleaseCrew(store: Store, y: Id, now: int) returns (r: Result<()>)
    modifies store
    ensures var w := old(store.db);
            && (r.Success? ==>
                 ReleaseRefusals(w, y, now) == {} && store.db == w.(vessels := ReleasedVessels(w, y, now)))
            && (r.Failure? ==> ReleaseRefusals(w, y, now) != {} && r.error == ReleaseObjection(w, y, now))
  {
    ghost var w := store.db;
    var items := store.ListFishingVoyageVessels(y);
    ghost var ids := Ids(items);
    for i := 0 to |items|
      invariant store.db == w.(vessels := store.db.vessels)
      invariant ReleasedSoFar(w.vessels, store.db.vessels, ids[..i], now)
      invariant forall x | x in ids[..i] :: x in w.vessels && w.vessels[x].Transition(SeaReady, now).Success?
    {
      var (x, row) := items[i];
      OrderedIsDistinct(ids, i);
      assert ids[i] == x && ids[..i + 1] == ids[..i] + [x];
      ReleaseNext(w.vessels, store.db.vessels, ids[..i], x, now);
      var released := ReleaseVessel(store, x, row, now);
      if released.Failure? {
        FirstRelease(w, y, now, ids, i);
        return released;
      }
    }
    assert ids[..|items|] == ids;
    AllReleased(w, store.db.vessels, ids, y, now);
    return Success(());
  }

  method CancelFishingVoyage(store: Store, p: Principal, y: Id, now: int) returns (r: Result<FishingVoyage>)
    modifies store
    ensures Realises(old(store.db), Cancel(old(store.db), p, y, now), store.db, r)
  {
    var role := RequireRole(p, {Coordinator});
    if role.Fail? { return Failure(role.reason); }
    var before := store.db;
    if y !in store.db.voyages { return Failure(NotFound); }
    var run := new VoyageRecord(store.db.voyages[y]);
    if run.row.state != Planned && run.row.state != VoyageState.Cleared { return Failure(InvalidTransition); }
    var version := run.row.version;
    var moved := run.Transition(Cancelled, now);
    assert moved.Success?;
    var released := ReleaseCrew(store, y, now);
    if released.Failure? {
      store.db := before;
      return Failure(released.error);
    }
    var rebooked := RebookFleet(store, run.row.fleetId, Cancelled, now);
    if rebooked.Failure? {
      store.db := before;
      return Failure(rebooked.error);
    }
    var written := store.UpdateFishingVoyage(y, run.row, version);
    assert written.Success?;
    return Success(run.row);
  }
}
