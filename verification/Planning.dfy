/** What passing every check of PlanFishingVoyage amounts to. */
module Planning {
  import opened Basics
  import opened Domain
  import opened Commands
  import opened Invariants

  /** The demands a plan makes on the store, free of the order in which the code asks them. */
  ghost predicate Plannable(w: World, input: PlanInput, now: int) {
    var ids, crew := input.vesselIds, Members(input.vesselIds);
    && input.permitId in w.permits && w.permits[input.permitId].status == PermitStatus.Active
    && input.departurePortId in w.ports && input.landingPortId in w.ports
    && w.ports[input.departurePortId].active && w.ports[input.landingPortId].active
    && (var day := w.ports[input.departurePortId].OperatingDayWindow(input.opensAt);
        |OpeningsIn(w.voyages, input.departurePortId, day.0, day.1)| < w.ports[input.departurePortId].dailyLimit)
    && input.fleetId in w.fleets && w.fleets[input.fleetId].state == Standby
    && w.fleets[input.fleetId].certifiedUntil > input.opensAt && w.fleets[input.fleetId].inspectedAt <= input.opensAt
    && (forall i, j | 0 <= i < j < |ids| :: ids[i] != ids[j])
    && (forall x | x in crew ::
         x in w.vessels && w.vessels[x].permitId == input.permitId && w.vessels[x].portId == input.departurePortId
         && w.vessels[x].state == SeaReady && w.vessels[x].expiresAt > now
         && w.vessels[x].expiresAt > input.deadlineAt)
    && input.opensAt != ZERO_TIME && input.deadlineAt != ZERO_TIME
    && input.deadlineAt - input.opensAt <= w.permits[input.permitId].maxVoyageDuration && now - 900 <= input.opensAt
    && NewVoyage(input, Sum(Holds(w.vessels, crew)), now).Valid()
    && Sum(Holds(w.vessels, crew)) <= w.fleets[input.fleetId].cargo && 1 <= w.fleets[input.fleetId].cargo
  }

  lemma {:induction false} VesselsUnobjectionable(w: World, input: PlanInput, i: nat, now: int)
    requires i <= |input.vesselIds|
    ensures VesselObjection(w, input, i, now).None? <==>
            forall k | i <= k < |input.vesselIds| ::
              var x := input.vesselIds[k];
              && x !in input.vesselIds[..k] && x in w.vessels
              && w.vessels[x].permitId == input.permitId && w.vessels[x].portId == input.departurePortId
              && w.vessels[x].state == SeaReady && w.vessels[x].expiresAt > now
    decreases |input.vesselIds| - i
  {
    if i < |input.vesselIds| {
      VesselsUnobjectionable(w, input, i + 1, now);
    }
  }

  lemma NoHolds(vessels: Vessels, ids: seq<Id>)
    ensures Sum(Holds(vessels, Members(ids[..0]))) == 0
  {
    assert Holds(vessels, Members(ids[..0])) == map[];
  }

  lemma HoldsGrow(vessels: Vessels, ids: seq<Id>, n: nat)
    requires 0 < n <= |ids| && ids[n - 1] in vessels && ids[n - 1] !in ids[..n - 1]
    ensures var before := Holds(vessels, Members(ids[..n - 1]));
            Sum(Holds(vessels, Members(ids[..n]))) == Sum(before) + vessels[ids[n - 1]].hold
  {
    var before, hold := Holds(vessels, Members(ids[..n - 1])), vessels[ids[n - 1]].hold;
    assert ids[..n] == ids[..n - 1] + [ids[n - 1]];
    assert Holds(vessels, Members(ids[..n])) == before[ids[n - 1] := hold];
    SumInsert(before, ids[n - 1], hold);
  }

  /** The running total of the vessel loop is the sum over the crew. */
  lemma {:induction false} VolumeIsSum(w: World, ids: seq<Id>, n: nat)
    requires n <= |ids|
    requires forall k | 0 <= k < n :: ids[k] !in ids[..k] && ids[k] in w.vessels
    ensures Volume(w, ids, n) == Sum(Holds(w.vessels, Members(ids[..n])))
  {
    if n == 0 {
      NoHolds(w.vessels, ids);
    } else {
      VolumeIsSum(w, ids, n - 1);
      HoldsGrow(w.vessels, ids, n);
    }
  }

  lemma PrefixDistinct(ids: seq<Id>)
    ensures (forall k | 0 <= k < |ids| :: ids[k] !in ids[..k]) <==> forall i, j | 0 <= i < j < |ids| :: ids[i] != ids[j]
  {
  }

  lemma CrewUnobjectionable(w: World, input: PlanInput, now: int)
    ensures VesselObjection(w, input, 0, now).None? <==>
              (forall i, j | 0 <= i < j < |input.vesselIds| :: input.vesselIds[i] != input.vesselIds[j])
              && forall x | x in input.vesselIds :: x in w.vessels && w.vessels[x].permitId == input.permitId
                   && w.vessels[x].portId == input.departurePortId && w.vessels[x].state == SeaReady
                     && w.vessels[x].expiresAt > now
    ensures VesselObjection(w, input, 0, now).None? ==>
              Volume(w, input.vesselIds, |input.vesselIds|) == Sum(Holds(w.vessels, Members(input.vesselIds)))
  {
    VesselsUnobjectionable(w, input, 0, now);
    PrefixDistinct(input.vesselIds);
    if VesselObjection(w, input, 0, now).None? {
      VolumeIsSum(w, input.vesselIds, |input.vesselIds|);
      assert input.vesselIds[..|input.vesselIds|] == input.vesselIds;
    }
  }

  lemma WindowUnobjectionable(w: World, input: PlanInput, now: int)
    requires input.permitId in w.permits
    ensures WindowObjection(w, input, now).None? <==>
              && input.opensAt != ZERO_TIME && input.deadlineAt != ZERO_TIME && input.opensAt < input.deadlineAt
              && input.deadlineAt - input.opensAt <= w.permits[input.permitId].maxVoyageDuration
              && now - 900 <= input.opensAt
              && forall x | x in Members(input.vesselIds) && x in w.vessels :: w.vessels[x].expiresAt > input.deadlineAt
  {
  }

  lemma RouteUnobjectionable(w: World, input: PlanInput)
    ensures RouteObjection(w, input).None? <==>
              && input.permitId in w.permits && w.permits[input.permitId].status == PermitStatus.Active
              && input.departurePortId in w.ports && input.landingPortId in w.ports
              && w.ports[input.departurePortId].active && w.ports[input.landingPortId].active
              && !Blank(input.departurePortId) && !Blank(input.landingPortId)
              && input.departurePortId != input.landingPortId
              && var day := w.ports[input.departurePortId].OperatingDayWindow(input.opensAt);
                 |OpeningsIn(w.voyages, input.departurePortId, day.0, day.1)|
                 < w.ports[input.departurePortId].dailyLimit
  {
  }

  lemma Unobjectionable(w: World, input: PlanInput, now: int)
    ensures var volume := Volume(w, input.vesselIds, |input.vesselIds|);
            PlanObjection(w, input, now).None? <==>
              && RouteObjection(w, input).None? && input.fleetId in w.fleets
              && w.fleets[input.fleetId].EligibleFor(input.opensAt, 1).None?
              && VesselObjection(w, input, 0, now).None? && WindowObjection(w, input, now).None?
              && w.fleets[input.fleetId].EligibleFor(input.opensAt, volume).None?
              && NewVoyage(input, volume, now).Valid()
  {
  }

  /** The checks pass exactly when the demands are met. */
  lemma ScreeningIsExact(w: World, input: PlanInput, now: int)
    requires input.vesselIds != []
    ensures PlanObjection(w, input, now).None? <==> Plannable(w, input, now)
  {
    Unobjectionable(w, input, now);
    RouteUnobjectionable(w, input);
    CrewUnobjectionable(w, input, now);
    if input.permitId in w.permits { WindowUnobjectionable(w, input, now); }
  }

  /** A committed plan that is not a replay met every demand and every key constraint. */
  lemma PlanCommits(w: World, p: Principal, input: PlanInput, now: int, voyageId: Id, jobId: Id)
    requires Plan(w, p, input, now, voyageId, jobId).Commit? && !KeyHeld(w, input.key, now)
    ensures Plannable(w, input, now) && !PlanClashes(w, input, voyageId, jobId) && input.vesselIds != []
    ensures Volume(w, input.vesselIds, |input.vesselIds|) == Sum(Holds(w.vessels, Members(input.vesselIds)))
    ensures Plan(w, p, input, now, voyageId, jobId).world == PlannedWorld(w, input, now, voyageId, jobId)
  {
    ScreeningIsExact(w, input, now);
    CrewUnobjectionable(w, input, now);
  }
}
