/** Every command keeps the duality between quarantined vessels and active anomalies. */
module Quarantine {
  import opened Domain
  import opened Commands
  import opened Invariants

  lemma PlanKeepsQuarantines(w: World, input: PlanInput, now: int, y: Id, jobId: Id)
    requires AnomaliesFit(w.anomalies, w.voyages) && Quarantines(w.vessels, w.links, w.anomalies)
    requires y !in w.voyages && input.fleetId in w.fleets
    requires forall x | x in input.vesselIds :: x in w.vessels && x !in w.links
    ensures var n := PlannedWorld(w, input, now, y, jobId);
            AnomaliesFit(w.anomalies, n.voyages) && Quarantines(n.vessels, n.links, w.anomalies)
  {
    var n := PlannedWorld(w, input, now, y, jobId);
    assert ActiveAnomalies(w.anomalies, y) == {};
    forall x | x in n.vessels && n.vessels[x].state == Quarantined
      ensures x in n.links && exists a ::
                a in ActiveAnomalies(w.anomalies, n.links[x]) && n.vessels[x].note == QuarantineNote(a)
    {
      assert n.vessels[x] == w.vessels[x] && n.links[x] == w.links[x];
    }
  }

  lemma ProgressKeepsAnomaliesFit(anomalies: Anomalies, voyages: Voyages, voyages': Voyages, y: Id)
    requires AnomaliesFit(anomalies, voyages) && Progressed(voyages, voyages', y)
    requires voyages'[y].state == Closed ==> ActiveAnomalies(anomalies, y) == {}
    ensures AnomaliesFit(anomalies, voyages')
  {
    forall a | a in anomalies && anomalies[a].IsActive() ensures AtReview(voyages'[anomalies[a].voyageId].state) {
      if anomalies[a].voyageId == y { assert a in ActiveAnomalies(anomalies, y); }
    }
  }

  lemma CarriedKeepsNote(v: FishingVessel, target: VoyageState, now: int)
    ensures var u := Written(v, target, now);
            && (u.state == Quarantined ==> v.state == Quarantined && u.note == v.note)
            && (target in {VoyageState.Landed, Closed} && v.state !in {AtSea, VesselState.Landed} ==>
                  u.state !in {AtSea, VesselState.Landed})
  {
  }

  /** Notes that stay, on vessels whose voyages keep their active anomalies. */
  lemma NotesKept(vessels: Vessels, vessels': Vessels, links: map<Id, Id>, anomalies: Anomalies, anomalies': Anomalies)
    requires Quarantines(vessels, links, anomalies) && vessels'.Keys == vessels.Keys
    requires forall x | x in vessels && vessels'[x].state == Quarantined ::
               && vessels[x].state == Quarantined && vessels'[x].note == vessels[x].note
               && (x in links ==> ActiveAnomalies(anomalies', links[x]) == ActiveAnomalies(anomalies, links[x]))
    requires forall x | x in links && x in vessels && ActiveAnomalies(anomalies', links[x]) != {} ::
               vessels'[x].state != AtSea && vessels'[x].state != VesselState.Landed
    ensures Quarantines(vessels', links, anomalies')
  {
  }

  lemma CarryKeepsQuarantines(w: World, y: Id, target: VoyageState, now: int)
    requires AnomaliesFit(w.anomalies, w.voyages) && Quarantines(w.vessels, w.links, w.anomalies)
    requires y in w.voyages && VoyageEdge(w.voyages[y].state, target)
    ensures Quarantines(CarriedVessels(w, y, target, now), w.links, w.anomalies)
  {
    var vessels := CarriedVessels(w, y, target, now);
    forall x | x in w.vessels && vessels[x].state == Quarantined
      ensures w.vessels[x].state == Quarantined && vessels[x].note == w.vessels[x].note
    {
      CarriedKeepsNote(w.vessels[x], target, now);
    }
    forall x | x in w.links && x in w.vessels && ActiveAnomalies(w.anomalies, w.links[x]) != {}
      ensures vessels[x].state != AtSea && vessels[x].state != VesselState.Landed
    {
      var a :| a in ActiveAnomalies(w.anomalies, w.links[x]);
      assert AtReview(w.voyages[w.links[x]].state);
      CarriedKeepsNote(w.vessels[x], target, now);
    }
    NotesKept(w.vessels, vessels, w.links, w.anomalies, w.anomalies);
  }

  lemma ReleaseKeepsQuarantines(w: World, y: Id, now: int)
    requires Quarantines(w.vessels, w.links, w.anomalies)
    ensures Quarantines(ReleasedVessels(w, y, now), w.links, w.anomalies)
  {
  }

  lemma FlagKeepsQuarantines(w: World, d: CatchDeclaration, reviewDeadline: int, now: int, declarationId: Id, a: Id,
                             jobId: Id)
    requires AnomaliesFit(w.anomalies, w.voyages) && Quarantines(w.vessels, w.links, w.anomalies)
    requires d.voyageId in w.voyages && AtReview(w.voyages[d.voyageId].state) && (a in w.anomalies || Generated(a))
    requires ActiveAnomalies(w.anomalies, d.voyageId) == if a in w.anomalies then {a} else {}
    ensures var n := FlaggedWorld(w, d, reviewDeadline, now, declarationId, a, jobId);
            AnomaliesFit(n.anomalies, w.voyages) && Quarantines(n.vessels, w.links, n.anomalies)
  {
    var n := FlaggedWorld(w, d, reviewDeadline, now, declarationId, a, jobId);
    assert a in w.anomalies ==> a in ActiveAnomalies(w.anomalies, d.voyageId);
    assert n.anomalies[a].IsActive() && n.anomalies[a].voyageId == d.voyageId;
    FlaggedActive(w.anomalies, n.anomalies, d.voyageId, a);
    ActivationKeepsAnomaliesFit(w.anomalies, n.anomalies, w.voyages, d.voyageId, a);
    ImpoundKeepsQuarantines(w, n.anomalies, d.voyageId, a, now);
  }

  /** The voyage's one active anomaly may be new; everyone else's is as it was. */
  lemma ActivationKeepsAnomaliesFit(anomalies: Anomalies, anomalies': Anomalies, voyages: Voyages, y: Id, a: Id)
    requires AnomaliesFit(anomalies, voyages) && y in voyages && AtReview(voyages[y].state)
             && (a in anomalies || Generated(a))
    requires anomalies'.Keys == anomalies.Keys + {a}
    requires forall b | b in anomalies && b != a :: anomalies'[b] == anomalies[b]
    requires anomalies'[a].voyageId == y && ActiveAnomalies(anomalies', y) == {a}
    ensures AnomaliesFit(anomalies', voyages)
  {
    forall b | b in anomalies' && b != a && anomalies'[b].IsActive() ensures anomalies'[b].voyageId != y {
      assert b !in ActiveAnomalies(anomalies', y);
    }
  }

  lemma ImpoundKeepsQuarantines(w: World, anomalies': Anomalies, y: Id, a: Id, now: int)
    requires Quarantines(w.vessels, w.links, w.anomalies) && ActiveAnomalies(anomalies', y) == {a}
    requires ActiveAnomalies(w.anomalies, y) <= {a} && forall z | z != y ::
               ActiveAnomalies(anomalies', z) == ActiveAnomalies(w.anomalies, z)
    ensures Quarantines(ImpoundedVessels(w, y, a, now), w.links, anomalies')
  {
  }

  lemma FlaggedActive(anomalies: Anomalies, anomalies': Anomalies, y: Id, a: Id)
    requires anomalies'.Keys == anomalies.Keys + {a}
    requires forall b | b in anomalies && b != a :: anomalies'[b] == anomalies[b]
    requires anomalies'[a].voyageId == y && anomalies'[a].IsActive()
    requires ActiveAnomalies(anomalies, y) == if a in anomalies then {a} else {}
    requires a in anomalies ==> anomalies[a].voyageId == y
    ensures ActiveAnomalies(anomalies', y) == {a}
    ensures forall z | z != y :: ActiveAnomalies(anomalies', z) == ActiveAnomalies(anomalies, z)
  {
  }

  lemma StartReviewKeepsQuarantines(w: World, p: Principal, a: Id, now: int)
    requires AnomaliesFit(w.anomalies, w.voyages) && Quarantines(w.vessels, w.links, w.anomalies)
    requires StartReview(w, p, a, now).Commit?
    ensures var n := StartReview(w, p, a, now).world;
            AnomaliesFit(n.anomalies, w.voyages) && Quarantines(w.vessels, w.links, n.anomalies)
  {
    var n := StartReview(w, p, a, now).world;
    forall z ensures ActiveAnomalies(n.anomalies, z) == ActiveAnomalies(w.anomalies, z) {}
  }

  lemma DecideCommits(w: World, p: Principal, a: Id, decision: AnomalyStatus, rationale: string, now: int, k: Id)
    requires Decide(w, p, a, decision, rationale, now, k).Commit?
    ensures a in w.anomalies && w.anomalies[a].IsActive() && decision in {AnomalyStatus.Cleared, Rejected}
    ensures w.anomalies[a].voyageId in w.voyages && k !in w.dispositions
    ensures var r := w.anomalies[a];
            Decide(w, p, a, decision, rationale, now, k).world ==
            w.(anomalies := w.anomalies[a := r.(status := decision, updatedAt := now, version := r.version + 1)],
               vessels := JudgedVessels(w, r.voyageId, a, decision, rationale, now),
               dispositions := w.dispositions[k := AnomalyDisposition(a, p.userId, decision, TrimSpace(rationale),
                 now)])
  {
  }

  /** A decision releases or retires every quarantined vessel of the voyage, whichever it is. */
  lemma DecideEmptiesQuarantine(w: World, p: Principal, a: Id, decision: AnomalyStatus, rationale: string, now: int,
                                k: Id)
    requires AnomaliesFit(w.anomalies, w.voyages) && Quarantines(w.vessels, w.links, w.anomalies)
    requires Decide(w, p, a, decision, rationale, now, k).Commit?
    ensures var n := Decide(w, p, a, decision, rationale, now, k).world; var y := w.anomalies[a].voyageId;
            forall x | x in w.links && x in w.vessels && w.links[x] == y ::
              n.vessels[x].state == if w.vessels[x].state != Quarantined then w.vessels[x].state
                                    else if decision == AnomalyStatus.Cleared then Reinspected else VesselState.Retired
  {
    DecideCommits(w, p, a, decision, rationale, now, k);
    forall x | x in w.links && x in w.vessels && w.links[x] == w.anomalies[a].voyageId
               && w.vessels[x].state == Quarantined
      ensures w.vessels[x].IsQuarantinedFor(a)
    {
      NotesTheOneActive(w.vessels, w.voyages, w.links, w.anomalies, a, x);
    }
  }

  lemma NotesTheOneActive(vessels: Vessels, voyages: Voyages, links: map<Id, Id>, anomalies: Anomalies, a: Id, x: Id)
    requires AnomaliesFit(anomalies, voyages) && Quarantines(vessels, links, anomalies)
    requires a in anomalies && anomalies[a].IsActive()
    requires x in links && x in vessels && links[x] == anomalies[a].voyageId && vessels[x].state == Quarantined
    ensures vessels[x].IsQuarantinedFor(a)
  {
    var b :| b in ActiveAnomalies(anomalies, links[x]) && vessels[x].note == QuarantineNote(b);
    assert a == b;
    NoteNamesOne(vessels[x], a, a);
  }

  /** A decided anomaly was the only active one of its voyage, and no other voyage notices. */
  lemma DecidedLeaves(anomalies: Anomalies, voyages: Voyages, a: Id, row: CatchAnomaly, z: Id)
    requires AnomaliesFit(anomalies, voyages) && a in anomalies && anomalies[a].IsActive()
    requires row.voyageId == anomalies[a].voyageId && !row.IsActive()
    ensures ActiveAnomalies(anomalies[a := row], z)
         == if z == anomalies[a].voyageId then {} else ActiveAnomalies(anomalies, z)
  {
    forall b | b in ActiveAnomalies(anomalies[a := row], z)
      ensures z != anomalies[a].voyageId && b in ActiveAnomalies(anomalies, z)
    {
      assert b != a;
    }
  }

  lemma DecidedFits(anomalies: Anomalies, voyages: Voyages, a: Id, row: CatchAnomaly)
    requires AnomaliesFit(anomalies, voyages) && a in anomalies
    requires row.voyageId == anomalies[a].voyageId && !row.IsActive()
    ensures AnomaliesFit(anomalies[a := row], voyages)
  {
  }

  lemma JudgeKeepsQuarantines(w: World, a: Id, row: CatchAnomaly, decision: AnomalyStatus, rationale: string, now: int)
    requires AnomaliesFit(w.anomalies, w.voyages) && Quarantines(w.vessels, w.links, w.anomalies)
    requires a in w.anomalies && w.anomalies[a].IsActive()
    requires row.voyageId == w.anomalies[a].voyageId && !row.IsActive()
    ensures Quarantines(JudgedVessels(w, row.voyageId, a, decision, rationale, now), w.links, w.anomalies[a := row])
  {
    var vessels, anomalies := JudgedVessels(w, row.voyageId, a, decision, rationale, now), w.anomalies[a := row];
    forall x | x in w.links && x in w.vessels && w.vessels[x].state == Quarantined && w.links[x] == row.voyageId
      ensures vessels[x].state != Quarantined
    {
      NotesTheOneActive(w.vessels, w.voyages, w.links, w.anomalies, a, x);
    }
    forall x | x in w.links
      ensures ActiveAnomalies(anomalies, w.links[x])
           == if w.links[x] == row.voyageId then {} else ActiveAnomalies(w.anomalies, w.links[x])
    {
      DecidedLeaves(w.anomalies, w.voyages, a, row, w.links[x]);
    }
    NotesKept(w.vessels, vessels, w.links, w.anomalies, anomalies);
  }

  lemma DecideKeepsQuarantines(w: World, p: Principal, a: Id, decision: AnomalyStatus, rationale: string, now: int,
                               k: Id)
    requires AnomaliesFit(w.anomalies, w.voyages) && Quarantines(w.vessels, w.links, w.anomalies)
    requires Decide(w, p, a, decision, rationale, now, k).Commit?
    ensures var n := Decide(w, p, a, decision, rationale, now, k).world;
            AnomaliesFit(n.anomalies, w.voyages) && Quarantines(n.vessels, w.links, n.anomalies)
  {
    DecideCommits(w, p, a, decision, rationale, now, k);
    var n := Decide(w, p, a, decision, rationale, now, k).world;
    DecidedFits(w.anomalies, w.voyages, a, n.anomalies[a]);
    JudgeKeepsQuarantines(w, a, n.anomalies[a], decision, rationale, now);
  }

  lemma RegisterKeepsQuarantines(vessels: Vessels, links: map<Id, Id>, anomalies: Anomalies, id: Id,
                                 vessel: FishingVessel)
    requires Quarantines(vessels, links, anomalies) && id !in links && vessel.state in {Berthed, SeaReady}
    ensures Quarantines(vessels[id := vessel], links, anomalies)
  {
  }

  lemma VerifyKeepsQuarantines(vessels: Vessels, links: map<Id, Id>, anomalies: Anomalies, id: Id,
                               vessel: FishingVessel)
    requires Quarantines(vessels, links, anomalies) && id in vessels && vessel.state == SeaReady
    ensures Quarantines(vessels[id := vessel], links, anomalies)
  {
  }
}
