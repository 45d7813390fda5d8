/** The tables each command may write: everything else is as it was. */
module Frames {
  import opened Basics
  import opened Domain
  import opened Commands

  lemma PlanFrame(w: World, p: Principal, input: PlanInput, now: int, y: Id, jobId: Id)
    ensures var n := Plan(w, p, input, now, y, jobId).After(w);
            n == w.(voyages := n.voyages, vessels := n.vessels, links := n.links, fleets := n.fleets, keys := n.keys,
              jobs := n.jobs,
                    plannedUnder := n.plannedUnder)
  {
  }

  lemma AdvanceFrame(w: World, p: Principal, y: Id, target: VoyageState, now: int)
    ensures var n := Advance(w, p, y, target, now).After(w);
            n == w.(voyages := n.voyages, vessels := n.vessels, fleets := n.fleets)
  {
  }

  lemma CancelFrame(w: World, p: Principal, y: Id, now: int)
    ensures var n := Cancel(w, p, y, now).After(w);
            n == w.(voyages := n.voyages, vessels := n.vessels, fleets := n.fleets)
  {
  }

  /** The three ways a submission can end. */
  lemma SubmitEnds(w: World, p: Principal, d: CatchDeclaration, now: int, id: Id, a: Id, jobId: Id)
    ensures var n := Submit(w, p, d, now, id, a, jobId).After(w);
            || n == w || n == w.(declarations := w.declarations[id := d])
            || (d.voyageId in w.voyages && w.voyages[d.voyageId].permitId in w.permits && jobId !in w.jobs
                && n == FlaggedWorld(w, d, w.permits[w.voyages[d.voyageId].permitId].reviewDeadline, now, id,
                                     TargetAnomaly(w, d.voyageId, a), jobId))
  {
  }

  lemma FlagFrame(w: World, d: CatchDeclaration, due: int, now: int, id: Id, a: Id, jobId: Id)
    ensures var n := FlaggedWorld(w, d, due, now, id, a, jobId);
            && n == w.(declarations := n.declarations, anomalies := n.anomalies, vessels := n.vessels,
              jobs := n.jobs, includedIn := n.includedIn)
            && n.vessels == ImpoundedVessels(w, d.voyageId, a, now) && n.declarations == w.declarations[id := d]
            && n.jobs == w.jobs[jobId := NewJob(AnomalyReview, a, BareId(a), now)]
            && n.anomalies.Keys == w.anomalies.Keys + {a} && n.anomalies == w.anomalies[a := n.anomalies[a]]
  {
  }

  lemma SubmitFrame(w: World, p: Principal, d: CatchDeclaration, now: int, id: Id, a: Id, jobId: Id)
    ensures var n := Submit(w, p, d, now, id, a, jobId).After(w);
            n == w.(declarations := n.declarations, anomalies := n.anomalies, vessels := n.vessels, jobs := n.jobs,
              includedIn := n.includedIn)
  {
    SubmitEnds(w, p, d, now, id, a, jobId);
    if d.voyageId in w.voyages && w.voyages[d.voyageId].permitId in w.permits {
      FlagFrame(w, d, w.permits[w.voyages[d.voyageId].permitId].reviewDeadline, now, id,
        TargetAnomaly(w, d.voyageId, a), jobId);
    }
  }

  lemma StartReviewFrame(w: World, p: Principal, a: Id, now: int)
    ensures var n := StartReview(w, p, a, now).After(w); n == w.(anomalies := n.anomalies)
  {
  }

  lemma DecideFrame(w: World, p: Principal, a: Id, decision: AnomalyStatus, rationale: string, now: int, k: Id)
    ensures var n := Decide(w, p, a, decision, rationale, now, k).After(w);
            n == w.(anomalies := n.anomalies, vessels := n.vessels, dispositions := n.dispositions)
  {
  }

  lemma CreateTaskFrame(w: World, p: Principal, task: TaskInput, ttl: int, now: int, id: Id)
    ensures var n := CreateTask(w, p, task, ttl, now, id).After(w); n == w.(tasks := n.tasks)
  {
  }

  lemma ResolveTaskFrame(w: World, p: Principal, id: Id, accepted: bool, note: string, now: int)
    ensures var n := ResolveTask(w, p, id, accepted, note, now).After(w); n == w.(tasks := n.tasks)
  {
  }

  lemma ChangeFleetFrame(w: World, p: Principal, f: Id, change: FleetChange, now: int)
    ensures var n := ChangeFleet(w, p, f, change, now).After(w); n == w.(fleets := n.fleets)
  {
  }

  lemma CreateFleetFrame(w: World, p: Principal, f: Id, fleet: SupportFleet, now: int)
    ensures var n := CreateFleet(w, p, f, fleet, now).After(w); n == w.(fleets := n.fleets)
  {
  }

  lemma CreatePermitFrame(w: World, p: Principal, id: Id, permit: FishingPermit)
    ensures var n := CreatePermit(w, p, id, permit).After(w); n == w.(permits := n.permits)
  {
  }

  lemma ActivatePermitFrame(w: World, p: Principal, id: Id)
    ensures var n := ActivatePermit(w, p, id).After(w); n == w.(permits := n.permits)
  {
  }

  lemma PortFrame(w: World, p: Principal, id: Id, port: PortFacility)
    ensures var n := CreatePort(w, p, id, port).After(w); n == w.(ports := n.ports)
  {
  }

  lemma RegisterFrame(w: World, p: Principal, id: Id, vessel: FishingVessel, now: int)
    ensures var n := RegisterVessel(w, p, id, vessel, now).After(w); n == w.(vessels := n.vessels)
  {
  }

  lemma VerifyFrame(w: World, p: Principal, id: Id, now: int)
    ensures var n := VerifyVessel(w, p, id, now).After(w); n == w.(vessels := n.vessels)
  {
  }

  /** An officer's resolution in time: the task was pending and is answered now. */
  lemma ResolveTaskCommits(w: World, p: Principal, id: Id, accepted: bool, note: string, now: int)
    requires ResolveTask(w, p, id, accepted, note, now).Commit?
    ensures id in w.tasks && w.tasks[id].status == TaskStatus.Pending && now <= w.tasks[id].expiresAt
    ensures var t, n := w.tasks[id], ResolveTask(w, p, id, accepted, note, now).world;
            && n.tasks == w.tasks[id := n.tasks[id]]
            && n.tasks[id] == t.(status := if accepted then Approved else TaskStatus.Denied, resolvedAt := Some(now),
              note := n.tasks[id].note,
                                 version := t.version + 1, updatedAt := now)
  {
  }
}
