/** Every command keeps vessels, voyages and fleets in lockstep, and the capacity books balanced. */
module Mooring {
  import opened Basics
  import opened Domain
  import opened Commands
  import opened Invariants
  import opened Planning

  // ---- what a committed transition did ----

  lemma NoRefusals(w: World, y: Id, target: VoyageState, now: int)
    ensures CrewRefusals(w, y, target, now) == {} <==>
            forall x | x in Crew(w.links, y) && x in w.vessels :: Carried(w.vessels[x], target, now).Success?
  {
    forall x | x in Crew(w.links, y) && x in w.vessels && Carried(w.vessels[x], target, now).Failure?
      ensures CrewRefusals(w, y, target, now) != {}
    {
      assert x in CrewRefusals(w, y, target, now);
    }
  }

  lemma NoReleaseRefusals(w: World, y: Id, now: int)
    ensures ReleaseRefusals(w, y, now) == {} <==>
            forall x | x in Crew(w.links, y) && x in w.vessels :: w.vessels[x].Transition(SeaReady, now).Success?
  {
    forall x | x in Crew(w.links, y) && x in w.vessels && w.vessels[x].Transition(SeaReady, now).Failure?
      ensures ReleaseRefusals(w, y, now) != {}
    {
      assert x in ReleaseRefusals(w, y, now);
    }
  }

  lemma AdvanceCommits(w: World, p: Principal, y: Id, target: VoyageState, now: int)
    requires Advance(w, p, y, target, now).Commit?
    requires Moored(w.vessels, w.voyages, w.links)
    ensures var n := Advance(w, p, y, target, now).world;
            && Progressed(w.voyages, n.voyages, y) && n.voyages[y].state == target
            && SameHulls(w.vessels, n.vessels)
            && w.voyages[y].fleetId in w.fleets
            && n == w.(voyages := n.voyages, vessels := CarriedVessels(w, y, target, now),
                       fleets := w.fleets[w.voyages[y].fleetId :=
                         Rebooked(w.fleets[w.voyages[y].fleetId], target, now)])
    ensures forall x | x in w.links && w.links[x] == y :: Carried(w.vessels[x], target, now).Success?
    ensures target == Closed ==> PendingTasks(w.tasks, y) == {} && ActiveAnomalies(w.anomalies, y) == {}
  {
    CrewCarried(w, y, target, now);
    CarriedHulls(w, y, target, now);
  }

  lemma CrewCarried(w: World, y: Id, target: VoyageState, now: int)
    requires Moored(w.vessels, w.voyages, w.links)
    ensures CrewRefusals(w, y, target, now) == {} ==> forall x | x in w.links
            && w.links[x] == y :: Carried(w.vessels[x], target, now).Success?
  {
    NoRefusals(w, y, target, now);
    forall x | CrewRefusals(w, y, target, now) == {} && x in w.links
      && w.links[x] == y ensures Carried(w.vessels[x], target, now).Success? {
      assert x in Crew(w.links, y);
    }
  }

  lemma CarriedHulls(w: World, y: Id, target: VoyageState, now: int)
    ensures SameHulls(w.vessels, CarriedVessels(w, y, target, now))
  {
  }

  lemma CancelCommits(w: World, p: Principal, y: Id, now: int)
    requires Cancel(w, p, y, now).Commit?
    requires Moored(w.vessels, w.voyages, w.links)
    ensures var n := Cancel(w, p, y, now).world;
            && Progressed(w.voyages, n.voyages, y) && n.voyages[y].state == Cancelled
            && SameHulls(w.vessels, n.vessels)
            && w.voyages[y].fleetId in w.fleets
            && n == w.(voyages := n.voyages, vessels := ReleasedVessels(w, y, now),
                       fleets := w.fleets[w.voyages[y].fleetId :=
                         Rebooked(w.fleets[w.voyages[y].fleetId], Cancelled, now)])
    ensures forall x | x in w.links && w.links[x] == y :: w.vessels[x].Transition(SeaReady, now).Success?
  {
    NoReleaseRefusals(w, y, now);
    forall x | x in w.links && w.links[x] == y ensures w.vessels[x].Transition(SeaReady, now).Success? {
      assert x in Crew(w.links, y);
    }
  }

  // ---- vessels ----

  lemma PlannedCrewUnlinked(w: World, input: PlanInput, y: Id, jobId: Id)
    requires !PlanClashes(w, input, y, jobId)
    ensures forall x | x in input.vesselIds :: x !in w.links
  {
  }

  lemma PlanKeepsMoored(w: World, input: PlanInput, now: int, y: Id, jobId: Id)
    requires Moored(w.vessels, w.voyages, w.links)
    requires Plannable(w, input, now) && !PlanClashes(w, input, y, jobId)
    ensures var n := PlannedWorld(w, input, now, y, jobId); Moored(n.vessels, n.voyages, n.links)
    ensures Lockstep(w.vessels, w.voyages, w.links) ==>
            var n := PlannedWorld(w, input, now, y, jobId); Lockstep(n.vessels, n.voyages, n.links)
  {
    PlannedCrewUnlinked(w, input, y, jobId);
    var n := PlannedWorld(w, input, now, y, jobId);
    var ids, vessels, voyages, links := input.vesselIds, n.vessels, n.voyages, n.links;
    forall x | x in links
      ensures x in vessels && links[x] in voyages && InStep(vessels[x], links[x], voyages[links[x]])
      ensures x !in ids ==>
                x in w.links && vessels[x] == w.vessels[x] && links[x] == w.links[x]
                && voyages[links[x]] == w.voyages[links[x]]
      ensures x in ids ==> vessels[x].state == VesselState.Assigned
    {
      if x in ids { assert x in Members(ids); }
    }
  }

  /** One vessel carried along with its voyage is in step with the moved voyage. */
  lemma CarriedInStep(v: FishingVessel, y: Id, run: FishingVoyage, run': FishingVoyage, now: int)
    requires InStep(v, y, run) && SamePlan(run, run') && VoyageEdge(run.state, run'.state) && run'.state != Cancelled
    requires Carried(v, run'.state, now).Success?
    ensures InStep(Written(v, run'.state, now), y, run')
    ensures run'.state == VoyageState.Cleared ==> Written(v, run'.state, now).state == v.state
  {
  }

  lemma AdvanceKeepsMoored(w: World, p: Principal, y: Id, target: VoyageState, now: int)
    requires Moored(w.vessels, w.voyages, w.links)
    requires Advance(w, p, y, target, now).Commit? && target != Cancelled
    ensures var n := Advance(w, p, y, target, now).world;
            Moored(n.vessels, n.voyages, n.links)
              && (Lockstep(w.vessels, w.voyages, w.links) ==> Lockstep(n.vessels, n.voyages, n.links))
  {
    AdvanceCommits(w, p, y, target, now);
    MoveKeepsMoored(w, y, Advance(w, p, y, target, now).world.voyages, now);
  }

  lemma MoveKeepsInStep(w: World, y: Id, voyages': Voyages, now: int, x: Id)
    requires x in w.links && x in w.vessels && w.links[x] in w.voyages
    requires InStep(w.vessels[x], w.links[x], w.voyages[w.links[x]])
    requires Progressed(w.voyages, voyages', y) && voyages'[y].state != Cancelled
    requires w.links[x] == y ==> Carried(w.vessels[x], voyages'[y].state, now).Success?
    ensures var v := CarriedVessels(w, y, voyages'[y].state, now)[x];
            && InStep(v, w.links[x], voyages'[w.links[x]])
            && (w.links[x] == y && voyages'[y].state == VoyageState.Cleared ==> v.state == w.vessels[x].state)
  {
    if w.links[x] == y { CarriedInStep(w.vessels[x], y, w.voyages[y], voyages'[y], now); }
  }

  lemma MoveKeepsMoored(w: World, y: Id, voyages': Voyages, now: int)
    requires Moored(w.vessels, w.voyages, w.links)
    requires Progressed(w.voyages, voyages', y) && voyages'[y].state != Cancelled
    requires forall x | x in w.links && w.links[x] == y :: Carried(w.vessels[x], voyages'[y].state, now).Success?
    ensures var vessels := CarriedVessels(w, y, voyages'[y].state, now);
            Moored(vessels, voyages', w.links)
              && (Lockstep(w.vessels, w.voyages, w.links) ==> Lockstep(vessels, voyages', w.links))
  {
    var vessels := CarriedVessels(w, y, voyages'[y].state, now);
    forall x | x in w.links
      ensures InStep(vessels[x], w.links[x], voyages'[w.links[x]])
      ensures w.links[x] == y && voyages'[y].state == VoyageState.Cleared ==> vessels[x].state == w.vessels[x].state
    {
      MoveKeepsInStep(w, y, voyages', now, x);
    }
  }

  lemma CancelKeepsMoored(w: World, p: Principal, y: Id, now: int)
    requires Moored(w.vessels, w.voyages, w.links) && Cancel(w, p, y, now).Commit?
    ensures var n := Cancel(w, p, y, now).world;
            Moored(n.vessels, n.voyages, n.links)
              && (Lockstep(w.vessels, w.voyages, w.links) ==> Lockstep(n.vessels, n.voyages, n.links))
  {
    CancelCommits(w, p, y, now);
    ReleaseKeepsMoored(w, y, Cancel(w, p, y, now).world.voyages, now);
  }

  lemma ReleaseKeepsInStep(v: FishingVessel, y: Id, run: FishingVoyage, run': FishingVoyage, now: int)
    requires InStep(v, y, run) && SamePlan(run, run')
    ensures run'.state == Cancelled ==> InStep(Released(v, now), y, run')
    ensures run' == run ==> InStep(v, y, run')
  {
  }

  lemma ReleaseKeepsMoored(w: World, y: Id, voyages': Voyages, now: int)
    requires Moored(w.vessels, w.voyages, w.links)
    requires Progressed(w.voyages, voyages', y) && voyages'[y].state == Cancelled
    ensures var vessels := ReleasedVessels(w, y, now);
            Moored(vessels, voyages', w.links)
              && (Lockstep(w.vessels, w.voyages, w.links) ==> Lockstep(vessels, voyages', w.links))
  {
    var vessels := ReleasedVessels(w, y, now);
    forall x | x in w.links ensures InStep(vessels[x], w.links[x], voyages'[w.links[x]]) {
      ReleaseKeepsInStep(w.vessels[x], w.links[x], w.voyages[w.links[x]], voyages'[w.links[x]], now);
    }
  }

  lemma ImpoundedInStep(v: FishingVessel, y: Id, run: FishingVoyage, a: Id, now: int)
    requires InStep(v, y, run) && AtReview(run.state)
    ensures InStep(Impounded(v, a, now), y, run) && SameHull(v, Impounded(v, a, now))
  {
  }

  lemma ImpoundKeepsMoored(w: World, y: Id, a: Id, now: int)
    requires Moored(w.vessels, w.voyages, w.links) && y in w.voyages && AtReview(w.voyages[y].state)
    ensures var vessels := ImpoundedVessels(w, y, a, now);
            Moored(vessels, w.voyages, w.links) && SameHulls(w.vessels, vessels)
            && (Lockstep(w.vessels, w.voyages, w.links) ==> Lockstep(vessels, w.voyages, w.links))
  {
    forall x | x in w.links && w.links[x] == y { ImpoundedInStep(w.vessels[x], y, w.voyages[y], a, now); }
  }

  lemma JudgedInStep(v: FishingVessel, y: Id, run: FishingVoyage, a: Id, decision: AnomalyStatus, rationale: string,
                     now: int)
    requires InStep(v, y, run)
    ensures var u := Judged(v, a, decision, rationale, now);
            InStep(u, y, run) && SameHull(v, u) && (BeforeDeparture(run.state) ==> u == v)
  {
  }

  lemma JudgeKeepsMoored(w: World, y: Id, a: Id, decision: AnomalyStatus, rationale: string, now: int)
    requires Moored(w.vessels, w.voyages, w.links)
    ensures var vessels := JudgedVessels(w, y, a, decision, rationale, now);
            Moored(vessels, w.voyages, w.links) && SameHulls(w.vessels, vessels)
            && (Lockstep(w.vessels, w.voyages, w.links) ==> Lockstep(vessels, w.voyages, w.links))
  {
    var vessels := JudgedVessels(w, y, a, decision, rationale, now);
    forall x | x in w.links
      ensures InStep(vessels[x], w.links[x], w.voyages[w.links[x]]) && SameHull(w.vessels[x], vessels[x])
      ensures BeforeDeparture(w.voyages[w.links[x]].state) ==> vessels[x] == w.vessels[x]
    {
      JudgedInStep(w.vessels[x], w.links[x], w.voyages[w.links[x]], a, decision, rationale, now);
    }
  }

  lemma RegisterKeepsMoored(w: World, id: Id, vessel: FishingVessel)
    requires Moored(w.vessels, w.voyages, w.links) && id !in w.vessels && Idle(vessel)
    ensures var vessels := w.vessels[id := vessel];
            Moored(vessels, w.voyages, w.links) && (InLockstep(w) ==> Lockstep(vessels, w.voyages, w.links))
    ensures id !in w.links
  {
  }

  lemma VerifyCommits(w: World, p: Principal, id: Id, now: int)
    requires VerifyVessel(w, p, id, now).Commit?
    ensures id in w.vessels && w.vessels[id].state in {Berthed, VesselState.Assigned}
    ensures var v := w.vessels[id];
            VerifyVessel(w, p, id, now).world
              == w.(vessels := w.vessels[id := v.(state := SeaReady, updatedAt := now, version := v.version + 1)])
  {
  }

  lemma VerifiedInStep(v: FishingVessel, y: Id, run: FishingVoyage, now: int)
    requires InStep(v, y, run) && v.state in {Berthed, VesselState.Assigned}
    ensures InStep(v.(state := SeaReady, updatedAt := now, version := v.version + 1), y, run)
  {
  }

  lemma VerifyKeepsMoored(w: World, p: Principal, id: Id, now: int)
    requires Moored(w.vessels, w.voyages, w.links) && VerifyVessel(w, p, id, now).Commit?
    ensures var vessels := VerifyVessel(w, p, id, now).world.vessels;
            Moored(vessels, w.voyages, w.links) && SameHulls(w.vessels, vessels)
  {
    VerifyCommits(w, p, id, now);
    if id in w.links { VerifiedInStep(w.vessels[id], w.links[id], w.voyages[w.links[id]], now); }
  }

  /** Verification keeps strict lockstep exactly when the vessel was still berthed: an assigned
      vessel is moved back to sea_ready while its voyage still counts on it. */
  lemma VerifyKeepsLockstepIff(w: World, p: Principal, id: Id, now: int)
    requires Lockstep(w.vessels, w.voyages, w.links) && VerifyVessel(w, p, id, now).Commit?
    ensures id in w.vessels
    ensures Lockstep(VerifyVessel(w, p, id, now).world.vessels, w.voyages, w.links) <==> w.vessels[id].state == Berthed
  {
    VerifyCommits(w, p, id, now);
    VerifyKeepsMoored(w, p, id, now);
    if w.vessels[id].state == VesselState.Assigned {
      assert id in w.links && BeforeDeparture(w.voyages[w.links[id]].state);
    } else {
      assert id !in w.links;
    }
  }

  // ---- fleets ----

  lemma PlanKeepsEscorted(w: World, input: PlanInput, now: int, y: Id, jobId: Id)
    requires Escorted(w.voyages, w.fleets) && y !in w.voyages
    requires input.fleetId in w.fleets && w.fleets[input.fleetId].state == Standby
    ensures var n := PlannedWorld(w, input, now, y, jobId); Escorted(n.voyages, n.fleets)
  {
  }

  lemma BookKeepsEscorted(voyages: Voyages, fleets: Fleets, y: Id, run: FishingVoyage, now: int)
    requires Escorted(voyages, fleets) && y !in voyages && run.state == Planned
    requires run.fleetId in fleets && fleets[run.fleetId].state == Standby
    ensures var f := fleets[run.fleetId];
            Escorted(voyages[y := run],
              fleets[run.fleetId := f.(state := FleetState.Assigned, voyageId := y, updatedAt := now,
              version := f.version + 1)])
  {
  }

  /** Moving one voyage along an edge, with its fleet rebooked to match. */
  lemma RebookKeepsEscorted(voyages: Voyages, voyages': Voyages, fleets: Fleets, y: Id, now: int)
    requires Escorted(voyages, fleets) && Progressed(voyages, voyages', y)
    ensures var f := voyages[y].fleetId;
            f in fleets && Escorted(voyages', fleets[f := Rebooked(fleets[f], voyages'[y].state, now)])
  {
    var f := voyages[y].fleetId;
    assert Underway(voyages[y].state) && OnDuty(fleets[f], y, voyages[y].state);
    ShiftKeepsEscorted(voyages, voyages', fleets, y, f, Rebooked(fleets[f], voyages'[y].state, now));
  }

  /** One underway voyage moves and its fleet moves with it; nobody else's pairing is touched. */
  lemma ShiftKeepsEscorted(voyages: Voyages, voyages': Voyages, fleets: Fleets, y: Id, f: Id, row: SupportFleet)
    requires Escorted(voyages, fleets) && y in voyages && voyages'.Keys == voyages.Keys
    requires forall z | z in voyages && z != y :: voyages'[z] == voyages[z]
    requires Underway(voyages[y].state) && f == voyages[y].fleetId == voyages'[y].fleetId && f in fleets
             && fleets[f].voyageId == y
    requires if Underway(voyages'[y].state) then OnDuty(row, y, voyages'[y].state) else !Busy(row) && row.voyageId == ""
    ensures Escorted(voyages', fleets[f := row])
  {
  }

  lemma RebookKeepsCargo(fleets: Fleets, f: Id, target: VoyageState, now: int)
    requires f in fleets
    ensures SameCargo(fleets, fleets[f := Rebooked(fleets[f], target, now)])
  {
  }

  lemma ChangeFleetCommits(w: World, p: Principal, f: Id, change: FleetChange, now: int)
    requires ChangeFleet(w, p, f, change, now).Commit?
    ensures var fleets' := ChangeFleet(w, p, f, change, now).world.fleets;
            SameCargo(w.fleets, fleets') && ChangeFleet(w, p, f, change, now).world == w.(fleets := fleets')
  {
  }

  lemma ChangeKeepsEscorted(w: World, p: Principal, f: Id, change: FleetChange, now: int)
    requires Escorted(w.voyages, w.fleets) && ChangeFleet(w, p, f, change, now).Commit?
    ensures Escorted(w.voyages, ChangeFleet(w, p, f, change, now).world.fleets)
  {
  }

  lemma CreateFleetCommits(w: World, p: Principal, f: Id, fleet: SupportFleet, now: int)
    requires fleet.voyageId == "" && CreateFleet(w, p, f, fleet, now).Commit?
    ensures var row := CreateFleet(w, p, f, fleet, now).value;
            && f !in w.fleets && row.state == Standby && row.voyageId == ""
            && SameCargo(w.fleets, w.fleets[f := row]) && CreateFleet(w, p, f, fleet, now).world
              == w.(fleets := w.fleets[f := row])
  {
  }

  lemma CreateKeepsEscorted(voyages: Voyages, fleets: Fleets, f: Id, row: SupportFleet)
    requires Escorted(voyages, fleets) && f !in fleets && row.state == Standby && row.voyageId == ""
    ensures Escorted(voyages, fleets[f := row])
  {
  }

  // ---- capacity ----

  lemma HoldsFrame(vessels: Vessels, vessels': Vessels, crew: set<Id>)
    requires forall x | x in crew :: x in vessels && x in vessels' && vessels[x].hold == vessels'[x].hold
    ensures Holds(vessels, crew) == Holds(vessels', crew)
  {
  }

  /** The books stay balanced when holds, plans and cargo capacities stand. */
  lemma LoadedFrame(voyages: Voyages, voyages': Voyages, vessels: Vessels, vessels': Vessels, links: map<Id, Id>,
                    fleets: Fleets, fleets': Fleets)
    requires Loaded(voyages, vessels, links, fleets)
    requires SamePlans(voyages, voyages') && SameHolds(links, vessels, vessels') && SameCargo(fleets, fleets')
    ensures Loaded(voyages', vessels', links, fleets')
  {
    forall y | y in voyages' ensures Holds(vessels, Crew(links, y)) == Holds(vessels', Crew(links, y)) {
      HoldsFrame(vessels, vessels', Crew(links, y));
    }
  }

  lemma HullsHold(voyages: Voyages, links: map<Id, Id>, vessels: Vessels, vessels': Vessels)
    requires Moored(vessels, voyages, links) && SameHulls(vessels, vessels')
    ensures SameHolds(links, vessels, vessels')
  {
  }

  lemma RegisteredHold(voyages: Voyages, links: map<Id, Id>, vessels: Vessels, id: Id, vessel: FishingVessel)
    requires Moored(vessels, voyages, links) && id !in vessels
    ensures SameHolds(links, vessels, vessels) && SameHolds(links, vessels, vessels[id := vessel])
  {
  }

  lemma ProgressKeepsPlans(voyages: Voyages, voyages': Voyages, y: Id)
    requires Progressed(voyages, voyages', y)
    ensures SamePlans(voyages, voyages')
  {
  }

  lemma ProgressKeepsLoaded(w: World, voyages': Voyages, vessels': Vessels, fleets': Fleets, y: Id)
    requires Loaded(w.voyages, w.vessels, w.links, w.fleets) && Moored(w.vessels, w.voyages, w.links)
    requires Progressed(w.voyages, voyages', y) && SameHulls(w.vessels, vessels') && SameCargo(w.fleets, fleets')
    ensures Loaded(voyages', vessels', w.links, fleets')
  {
    HullsHold(w.voyages, w.links, w.vessels, vessels');
    ProgressKeepsPlans(w.voyages, voyages', y);
    LoadedFrame(w.voyages, voyages', w.vessels, vessels', w.links, w.fleets, fleets');
  }

  lemma HullsKeepLoaded(w: World, vessels': Vessels)
    requires Loaded(w.voyages, w.vessels, w.links, w.fleets) && Moored(w.vessels, w.voyages, w.links)
    requires SameHulls(w.vessels, vessels')
    ensures Loaded(w.voyages, vessels', w.links, w.fleets)
  {
    HullsHold(w.voyages, w.links, w.vessels, vessels');
    LoadedFrame(w.voyages, w.voyages, w.vessels, vessels', w.links, w.fleets, w.fleets);
  }

  lemma FleetsKeepLoaded(w: World, fleets': Fleets)
    requires Loaded(w.voyages, w.vessels, w.links, w.fleets) && Moored(w.vessels, w.voyages, w.links)
    requires SameCargo(w.fleets, fleets')
    ensures Loaded(w.voyages, w.vessels, w.links, fleets')
  {
  }

  lemma RegisterKeepsLoaded(w: World, id: Id, vessel: FishingVessel)
    requires Loaded(w.voyages, w.vessels, w.links, w.fleets) && Moored(w.vessels, w.voyages, w.links)
    requires id !in w.vessels
    ensures Loaded(w.voyages, w.vessels[id := vessel], w.links, w.fleets)
  {
    RegisteredHold(w.voyages, w.links, w.vessels, id, vessel);
    LoadedFrame(w.voyages, w.voyages, w.vessels, w.vessels[id := vessel], w.links, w.fleets, w.fleets);
  }

  lemma PlanTables(w: World, input: PlanInput, now: int, y: Id, jobId: Id)
    requires input.fleetId in w.fleets
    ensures var n := PlannedWorld(w, input, now, y, jobId);
            && SameHulls(w.vessels, n.vessels) && SameCargo(w.fleets, n.fleets)
            && n.voyages == w.voyages[y := NewVoyage(input, Volume(w, input.vesselIds, |input.vesselIds|), now)]
  {
  }

  lemma PlanKeepsLoaded(w: World, input: PlanInput, now: int, y: Id, jobId: Id)
    requires Loaded(w.voyages, w.vessels, w.links, w.fleets) && Moored(w.vessels, w.voyages, w.links)
    requires Plannable(w, input, now) && !PlanClashes(w, input, y, jobId) && input.vesselIds != []
    requires Volume(w, input.vesselIds, |input.vesselIds|) == Sum(Holds(w.vessels, Members(input.vesselIds)))
    ensures var n := PlannedWorld(w, input, now, y, jobId); Loaded(n.voyages, n.vessels, n.links, n.fleets)
  {
    var run := NewVoyage(input, Volume(w, input.vesselIds, |input.vesselIds|), now);
    var n, crew := PlannedWorld(w, input, now, y, jobId), Members(input.vesselIds);
    PlanKeepsCrews(w, input, now, y, jobId);
    PlanTables(w, input, now, y, jobId);
    assert crew <= w.vessels.Keys && input.vesselIds[0] in crew;
    assert run.Valid() && run.hold <= w.fleets[run.fleetId].cargo;
    assert forall x | x in w.links :: x in w.vessels;
    AddLoaded(w.voyages, w.vessels, n.vessels, w.links, n.links, w.fleets, n.fleets, y, run, crew);
  }

  lemma AddLoaded(voyages: Voyages, vessels: Vessels, vessels': Vessels, links: map<Id, Id>, links': map<Id, Id>,
                  fleets: Fleets, fleets': Fleets, y: Id, run: FishingVoyage, crew: set<Id>)
    requires Loaded(voyages, vessels, links, fleets) && y !in voyages
    requires SameHulls(vessels, vessels') && SameCargo(fleets, fleets')
    requires (forall x | x in links :: x in vessels) && crew <= vessels.Keys && crew != {}
    requires Crew(links', y) == crew && forall z | z != y :: Crew(links', z) == Crew(links, z)
    requires run.Valid() && run.hold == Sum(Holds(vessels, crew)) && run.fleetId in fleets
             && run.hold <= fleets[run.fleetId].cargo
    ensures Loaded(voyages[y := run], vessels', links', fleets')
  {
    var voyages' := voyages[y := run];
    forall z | z in voyages'
      ensures Crew(links', z) != {} && voyages'[z].Valid()
      ensures voyages'[z].hold == Sum(Holds(vessels', Crew(links', z)))
      ensures voyages'[z].fleetId in fleets' && voyages'[z].hold <= fleets'[voyages'[z].fleetId].cargo
    {
      HoldsFrame(vessels, vessels', if z == y then crew else Crew(links, z));
    }
  }

  lemma PlanKeepsCrews(w: World, input: PlanInput, now: int, y: Id, jobId: Id)
    requires input.fleetId in w.fleets && !PlanClashes(w, input, y, jobId)
    requires forall x | x in w.links :: w.links[x] in w.voyages
    ensures var n := PlannedWorld(w, input, now, y, jobId);
            Crew(n.links, y) == Members(input.vesselIds) && forall z | z != y :: Crew(n.links, z) == Crew(w.links, z)
  {
  }
}
