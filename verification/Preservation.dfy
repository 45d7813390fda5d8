/** Each service command keeps the whole invariant. */
module Preservation {
  import opened Basics
  import opened Domain
  import opened Commands
  import opened Invariants
  import opened Planning
  import opened Mooring
  import opened Quarantine
  import opened Accounts
  import opened Frames

  // ---- planning ----

  lemma FreshPlanKeepsFleetSide(w: World, input: PlanInput, now: int, y: Id, jobId: Id)
    requires Moored(w.vessels, w.voyages, w.links) && Escorted(w.voyages, w.fleets)
             && Loaded(w.voyages, w.vessels, w.links, w.fleets)
    requires Plannable(w, input, now) && !PlanClashes(w, input, y, jobId) && input.vesselIds != []
    requires Volume(w, input.vesselIds, |input.vesselIds|) == Sum(Holds(w.vessels, Members(input.vesselIds)))
    ensures var n := PlannedWorld(w, input, now, y, jobId);
            && Moored(n.vessels, n.voyages, n.links) && Escorted(n.voyages, n.fleets)
              && Loaded(n.voyages, n.vessels, n.links, n.fleets)
            && (InLockstep(w) ==> InLockstep(n))
  {
    PlanKeepsMoored(w, input, now, y, jobId);
    PlanKeepsEscorted(w, input, now, y, jobId);
    PlanKeepsLoaded(w, input, now, y, jobId);
  }

  lemma FreshPlanKeepsQuarantines(w: World, input: PlanInput, now: int, y: Id, jobId: Id)
    requires AnomaliesFit(w.anomalies, w.voyages) && Quarantines(w.vessels, w.links, w.anomalies)
    requires Plannable(w, input, now) && !PlanClashes(w, input, y, jobId)
    ensures var n := PlannedWorld(w, input, now, y, jobId);
            AnomaliesFit(w.anomalies, n.voyages) && Quarantines(n.vessels, n.links, w.anomalies)
  {
    PlannedCrewUnlinked(w, input, y, jobId);
    assert forall x | x in input.vesselIds :: x in Members(input.vesselIds);
    PlanKeepsQuarantines(w, input, now, y, jobId);
  }

  lemma FreshPlanKeepsBooks(w: World, input: PlanInput, now: int, y: Id, jobId: Id)
    requires Limits(w.voyages, w.ports) && Partitioned(w.declarations, w.includedIn, w.anomalies, w.voyages, w.permits)
    requires Queued(w.jobs, w.voyages, w.anomalies) && JobsFit(w.jobs) && TasksFit(w.tasks, w.voyages)
    requires Keyed(w.keys, w.plannedUnder, w.voyages)
    requires Plannable(w, input, now) && !PlanClashes(w, input, y, jobId) && !KeyHeld(w, input.key, now)
    ensures var n := PlannedWorld(w, input, now, y, jobId);
            && Limits(n.voyages, n.ports)
              && Partitioned(n.declarations, n.includedIn, n.anomalies, n.voyages, n.permits)
            && Queued(n.jobs, n.voyages, n.anomalies) && JobsFit(n.jobs) && TasksFit(n.tasks, n.voyages)
            && Keyed(n.keys, n.plannedUnder, n.voyages)
  {
    var run := NewVoyage(input, Volume(w, input.vesselIds, |input.vesselIds|), now);
    PlanTables(w, input, now, y, jobId);
    PlanKeepsLimits(w.voyages, w.ports, y, run);
    PlanKeepsPartitioned(w, y, run);
    PlanKeepsQueued(w.jobs, w.voyages, w.anomalies, y, run, jobId, now);
    NewJobFits(w.jobs, jobId, VoyagePlanned, y, VoyageBody(run), now);
    PlanKeepsTasksFit(w.tasks, w.voyages, y, run);
    PlanKeepsKeyed(w, input, y, run, now);
  }

  lemma PlanKeepsInv(w: World, p: Principal, input: PlanInput, now: int, y: Id, jobId: Id)
    requires Inv(w) && Plan(w, p, input, now, y, jobId).Commit?
    ensures Inv(Plan(w, p, input, now, y, jobId).world)
    ensures InLockstep(w) ==> InLockstep(Plan(w, p, input, now, y, jobId).world)
  {
    if !KeyHeld(w, input.key, now) {
      PlanCommits(w, p, input, now, y, jobId);
      FreshPlanKeepsFleetSide(w, input, now, y, jobId);
      FreshPlanKeepsQuarantines(w, input, now, y, jobId);
      FreshPlanKeepsBooks(w, input, now, y, jobId);
    }
  }

  // ---- transitions and cancellation ----

  /** What a voyage transition shares with a cancellation. */
  lemma ProgressKeepsBooks(w: World, voyages': Voyages, y: Id)
    requires Inv(w) && Progressed(w.voyages, voyages', y)
    requires voyages'[y].state == Closed ==> PendingTasks(w.tasks, y) == {} && ActiveAnomalies(w.anomalies, y) == {}
    ensures AnomaliesFit(w.anomalies, voyages') && Limits(voyages', w.ports)
    ensures Partitioned(w.declarations, w.includedIn, w.anomalies, voyages', w.permits)
    ensures Queued(w.jobs, voyages', w.anomalies) && TasksFit(w.tasks, voyages')
            && Keyed(w.keys, w.plannedUnder, voyages')
  {
    ProgressKeepsAnomaliesFit(w.anomalies, w.voyages, voyages', y);
    ProgressKeepsLimits(w.voyages, voyages', y, w.ports);
    ProgressKeepsPartitioned(w, voyages', y);
    ProgressKeepsQueued(w.jobs, w.voyages, voyages', y, w.anomalies);
    ProgressKeepsTasksFit(w.tasks, w.voyages, voyages', y);
    ProgressKeepsKeyed(w.keys, w.plannedUnder, w.voyages, voyages', y);
  }

  lemma ProgressKeepsInv(w: World, voyages': Voyages, vessels': Vessels, y: Id, now: int)
    requires Inv(w) && Progressed(w.voyages, voyages', y) && SameHulls(w.vessels, vessels')
    requires voyages'[y].state == Closed ==> PendingTasks(w.tasks, y) == {} && ActiveAnomalies(w.anomalies, y) == {}
    requires Moored(vessels', voyages', w.links) && Quarantines(vessels', w.links, w.anomalies)
    ensures var f := w.voyages[y].fleetId;
            f in w.fleets && Inv(w.(voyages := voyages', vessels := vessels',
              fleets := w.fleets[f := Rebooked(w.fleets[f], voyages'[y].state, now)]))
  {
    RebookKeepsEscorted(w.voyages, voyages', w.fleets, y, now);
    var f := w.voyages[y].fleetId;
    RebookKeepsCargo(w.fleets, f, voyages'[y].state, now);
    ProgressKeepsLoaded(w, voyages', vessels', w.fleets[f := Rebooked(w.fleets[f], voyages'[y].state, now)], y);
    ProgressKeepsBooks(w, voyages', y);
  }

  lemma AdvanceKeepsInv(w: World, p: Principal, y: Id, target: VoyageState, now: int)
    requires Inv(w) && target != Cancelled && Advance(w, p, y, target, now).Commit?
    ensures Inv(Advance(w, p, y, target, now).world)
    ensures InLockstep(w) ==> InLockstep(Advance(w, p, y, target, now).world)
  {
    var n := Advance(w, p, y, target, now).world;
    AdvanceCommits(w, p, y, target, now);
    AdvanceKeepsMoored(w, p, y, target, now);
    CarryKeepsQuarantines(w, y, target, now);
    ProgressKeepsInv(w, n.voyages, n.vessels, y, now);
  }

  lemma CancelKeepsInv(w: World, p: Principal, y: Id, now: int)
    requires Inv(w) && Cancel(w, p, y, now).Commit?
    ensures Inv(Cancel(w, p, y, now).world)
    ensures InLockstep(w) ==> InLockstep(Cancel(w, p, y, now).world)
  {
    var n := Cancel(w, p, y, now).world;
    CancelCommits(w, p, y, now);
    CancelKeepsMoored(w, p, y, now);
    ReleaseKeepsQuarantines(w, y, now);
    ProgressKeepsInv(w, n.voyages, n.vessels, y, now);
  }

  // ---- declarations and reviews ----

  lemma SubmitCommits(w: World, p: Principal, d: CatchDeclaration, now: int, id: Id, anomalyId: Id, jobId: Id)
    requires AnomaliesFit(w.anomalies, w.voyages) && Submit(w, p, d, now, id, anomalyId, jobId).Commit?
    ensures d.voyageId in w.voyages && AtReview(w.voyages[d.voyageId].state) && id !in w.declarations
    ensures w.voyages[d.voyageId].permitId in w.permits
    ensures !OutOfEnvelope(d, w.voyages, w.permits) ==>
              Submit(w, p, d, now, id, anomalyId, jobId).world == w.(declarations := w.declarations[id := d])
    ensures OutOfEnvelope(d, w.voyages, w.permits) ==>
              var a := TargetAnomaly(w, d.voyageId, anomalyId);
              && jobId !in w.jobs && (a in w.anomalies || a == anomalyId)
              && ActiveAnomalies(w.anomalies, d.voyageId) == (if a in w.anomalies then {a} else {})
              && Submit(w, p, d, now, id, anomalyId, jobId).world
                 == FlaggedWorld(w, d, w.permits[w.voyages[d.voyageId].permitId].reviewDeadline, now, id, a, jobId)
  {
  }

  lemma FlagKeepsVesselSide(w: World, d: CatchDeclaration, due: int, now: int, id: Id, a: Id, jobId: Id)
    requires Moored(w.vessels, w.voyages, w.links) && Loaded(w.voyages, w.vessels, w.links, w.fleets)
    requires AnomaliesFit(w.anomalies, w.voyages) && Quarantines(w.vessels, w.links, w.anomalies)
    requires d.voyageId in w.voyages && AtReview(w.voyages[d.voyageId].state) && (a in w.anomalies || Generated(a))
    requires ActiveAnomalies(w.anomalies, d.voyageId) == if a in w.anomalies then {a} else {}
    ensures var n := FlaggedWorld(w, d, due, now, id, a, jobId);
            && Moored(n.vessels, w.voyages, w.links) && Loaded(w.voyages, n.vessels, w.links, w.fleets)
            && AnomaliesFit(n.anomalies, w.voyages) && Quarantines(n.vessels, w.links, n.anomalies)
            && (InLockstep(w) ==> InLockstep(n))
  {
    FlagKeepsQuarantines(w, d, due, now, id, a, jobId);
    ImpoundKeepsMoored(w, d.voyageId, a, now);
    HullsKeepLoaded(w, ImpoundedVessels(w, d.voyageId, a, now));
  }

  lemma FlagKeepsDeclarations(w: World, d: CatchDeclaration, due: int, now: int, id: Id, a: Id, jobId: Id)
    requires Partitioned(w.declarations, w.includedIn, w.anomalies, w.voyages, w.permits)
             && Summed(w.declarations, w.includedIn, w.anomalies)
    requires id !in w.declarations && OutOfEnvelope(d, w.voyages, w.permits)
             && (a in w.anomalies ==> w.anomalies[a].voyageId == d.voyageId)
    ensures var n := FlaggedWorld(w, d, due, now, id, a, jobId);
            Partitioned(n.declarations, n.includedIn, n.anomalies, w.voyages, w.permits)
              && Summed(n.declarations, n.includedIn, n.anomalies)
  {
    FlagKeepsPartitioned(w, d, due, now, id, a, jobId);
    FlagKeepsSummed(w, d, due, now, id, a, jobId);
  }

  lemma FlagKeepsReviews(w: World, d: CatchDeclaration, due: int, now: int, id: Id, a: Id, jobId: Id)
    requires Reviewed(w.anomalies, w.dispositions) && Queued(w.jobs, w.voyages, w.anomalies) && JobsFit(w.jobs)
    requires jobId !in w.jobs && (a in w.anomalies ==> w.anomalies[a].IsActive())
    ensures var n := FlaggedWorld(w, d, due, now, id, a, jobId);
            Reviewed(n.anomalies, w.dispositions) && Queued(n.jobs, w.voyages, n.anomalies) && JobsFit(n.jobs)
  {
    var row := FlaggedWorld(w, d, due, now, id, a, jobId).anomalies[a];
    FlaggedRow(w, d, due, now, id, a, jobId);
    FlagKeepsReviewed(w.anomalies, w.dispositions, a, row);
    FlagKeepsQueued(w.jobs, w.voyages, w.anomalies, a, row, jobId, now);
    NewJobFits(w.jobs, jobId, AnomalyReview, a, BareId(a), now);
  }

  lemma FlaggedRow(w: World, d: CatchDeclaration, due: int, now: int, id: Id, a: Id, jobId: Id)
    requires a in w.anomalies ==> w.anomalies[a].IsActive()
    ensures var n := FlaggedWorld(w, d, due, now, id, a, jobId); var row := n.anomalies[a];
            && n.anomalies == w.anomalies[a := row]
              && n.jobs == w.jobs[jobId := NewJob(AnomalyReview, a, BareId(a), now)]
            && row.IsActive() && row.count == 1 + if a in w.anomalies then w.anomalies[a].count else 0
  {
  }

  lemma SoundAnomalies(w: World)
    requires Sound(w)
    ensures AnomaliesFit(w.anomalies, w.voyages)
  {
    assert Inv(w);
  }

  lemma SubmitFlagKeepsSound(w: World, p: Principal, d: CatchDeclaration, now: int, id: Id, anomalyId: Id, jobId: Id)
    requires Sound(w) && Generated(anomalyId) && Submit(w, p, d, now, id, anomalyId, jobId).Commit?
             && OutOfEnvelope(d, w.voyages, w.permits)
    ensures Sound(Submit(w, p, d, now, id, anomalyId, jobId).world)
  {
    var n, a := Submit(w, p, d, now, id, anomalyId, jobId).world, TargetAnomaly(w, d.voyageId, anomalyId);
    SoundAnomalies(w);
    SubmitCommits(w, p, d, now, id, anomalyId, jobId);
    FlagKeepsSound(w, n, d, w.permits[w.voyages[d.voyageId].permitId].reviewDeadline, now, id, a, jobId);
  }

  lemma SubmitRecordKeepsInv(w: World, p: Principal, d: CatchDeclaration, now: int, id: Id, anomalyId: Id, jobId: Id)
    requires Inv(w) && Submit(w, p, d, now, id, anomalyId, jobId).Commit? && !OutOfEnvelope(d, w.voyages, w.permits)
    ensures Inv(Submit(w, p, d, now, id, anomalyId, jobId).world)
  {
    SubmitCommits(w, p, d, now, id, anomalyId, jobId);
    RecordKeepsInv(w, id, d);
  }

  lemma SubmitKeepsInv(w: World, p: Principal, d: CatchDeclaration, now: int, id: Id, anomalyId: Id, jobId: Id)
    requires Inv(w) && Generated(anomalyId) && Submit(w, p, d, now, id, anomalyId, jobId).Commit?
    ensures Inv(Submit(w, p, d, now, id, anomalyId, jobId).world)
  {
    if OutOfEnvelope(d, w.voyages, w.permits) {
      SubmitFlagKeepsSound(w, p, d, now, id, anomalyId, jobId);
    } else {
      SubmitRecordKeepsInv(w, p, d, now, id, anomalyId, jobId);
    }
  }

  lemma SubmitKeepsLockstep(w: World, p: Principal, d: CatchDeclaration, now: int, id: Id, anomalyId: Id, jobId: Id)
    requires AnomaliesFit(w.anomalies, w.voyages) && InLockstep(w) && Submit(w, p, d, now, id, anomalyId, jobId).Commit?
    ensures InLockstep(Submit(w, p, d, now, id, anomalyId, jobId).world)
  {
    SubmitCommits(w, p, d, now, id, anomalyId, jobId);
    SubmitEnds(w, p, d, now, id, anomalyId, jobId);
    SubmittedKeepsLockstep(w, Submit(w, p, d, now, id, anomalyId, jobId).world, d.voyageId,
      TargetAnomaly(w, d.voyageId, anomalyId), now);
  }

  lemma SubmittedKeepsLockstep(w: World, n: World, y: Id, a: Id, now: int)
    requires InLockstep(w) && y in w.voyages && AtReview(w.voyages[y].state)
    requires n.voyages == w.voyages && n.links == w.links
             && (n.vessels == w.vessels || n.vessels == ImpoundedVessels(w, y, a, now))
    ensures InLockstep(n)
  {
  }

  lemma RecordKeepsInv(w: World, id: Id, d: CatchDeclaration)
    requires Inv(w) && id !in w.declarations && d.voyageId in w.voyages && !OutOfEnvelope(d, w.voyages, w.permits)
    ensures Inv(w.(declarations := w.declarations[id := d]))
  {
    RecordKeepsPartitioned(w, id, d);
    RecordKeepsSummed(w.declarations, w.includedIn, w.anomalies, id, d);
  }

  lemma FlagKeepsSound(w: World, n: World, d: CatchDeclaration, due: int, now: int, id: Id, a: Id, jobId: Id)
    requires Sound(w) && (a in w.anomalies || Generated(a)) && id !in w.declarations && jobId !in w.jobs
    requires d.voyageId in w.voyages && AtReview(w.voyages[d.voyageId].state) && OutOfEnvelope(d, w.voyages, w.permits)
    requires ActiveAnomalies(w.anomalies, d.voyageId) == if a in w.anomalies then {a} else {}
    requires n == FlaggedWorld(w, d, due, now, id, a, jobId)
    ensures Sound(n)
  {
    assert Inv(w);
    assert a in w.anomalies ==> a in ActiveAnomalies(w.anomalies, d.voyageId);
    FlagKeepsVesselSide(w, d, due, now, id, a, jobId);
    FlagKeepsDeclarations(w, d, due, now, id, a, jobId);
    FlagKeepsReviews(w, d, due, now, id, a, jobId);
  }

  lemma StatusKeepsBooks(w: World, a: Id, row: CatchAnomaly)
    requires Partitioned(w.declarations, w.includedIn, w.anomalies, w.voyages, w.permits)
             && Summed(w.declarations, w.includedIn, w.anomalies)
    requires Queued(w.jobs, w.voyages, w.anomalies) && a in w.anomalies
    requires row == w.anomalies[a].(status := row.status, updatedAt := row.updatedAt, version := row.version)
    ensures Partitioned(w.declarations, w.includedIn, w.anomalies[a := row], w.voyages, w.permits)
    ensures Summed(w.declarations, w.includedIn, w.anomalies[a := row])
            && Queued(w.jobs, w.voyages, w.anomalies[a := row])
  {
    StatusKeepsPartitioned(w, a, row);
    StatusKeepsSummed(w.declarations, w.includedIn, w.anomalies, a, row);
    StatusKeepsQueued(w.jobs, w.voyages, w.anomalies, a, row);
  }

  lemma StartReviewCommits(w: World, p: Principal, a: Id, now: int)
    requires StartReview(w, p, a, now).Commit?
    ensures a in w.anomalies && w.anomalies[a].status == Open
    ensures StartReview(w, p, a, now).world
         == w.(anomalies := w.anomalies[a := w.anomalies[a].(status := Reviewing, updatedAt := now,
           version := w.anomalies[a].version + 1)])
  {
  }

  lemma StartReviewKeepsInv(w: World, p: Principal, a: Id, now: int)
    requires Inv(w) && StartReview(w, p, a, now).Commit?
    ensures Inv(StartReview(w, p, a, now).world)
  {
    StartReviewCommits(w, p, a, now);
    var row := w.anomalies[a].(status := Reviewing, updatedAt := now, version := w.anomalies[a].version + 1);
    StartReviewKeepsQuarantines(w, p, a, now);
    StatusKeepsBooks(w, a, row);
    FlagKeepsReviewed(w.anomalies, w.dispositions, a, row);
  }

  lemma DecideKeepsVesselSide(w: World, p: Principal, a: Id, decision: AnomalyStatus, rationale: string, now: int,
                              k: Id)
    requires Moored(w.vessels, w.voyages, w.links) && Loaded(w.voyages, w.vessels, w.links, w.fleets)
    requires Decide(w, p, a, decision, rationale, now, k).Commit?
    ensures var n := Decide(w, p, a, decision, rationale, now, k).world;
            && Moored(n.vessels, w.voyages, w.links) && Loaded(w.voyages, n.vessels, w.links, w.fleets)
            && (InLockstep(w) ==> InLockstep(n))
  {
    DecideCommits(w, p, a, decision, rationale, now, k);
    JudgeKeepsMoored(w, w.anomalies[a].voyageId, a, decision, rationale, now);
    HullsKeepLoaded(w, JudgedVessels(w, w.anomalies[a].voyageId, a, decision, rationale, now));
  }

  lemma DecisionIsStatusChange(w: World, p: Principal, a: Id, decision: AnomalyStatus, rationale: string, now: int,
                               k: Id)
    requires Decide(w, p, a, decision, rationale, now, k).Commit?
    ensures a in w.anomalies && w.anomalies[a].IsActive() && k !in w.dispositions
    ensures var n := Decide(w, p, a, decision, rationale, now, k).world; var row := w.anomalies[a];
            && a in n.anomalies && !n.anomalies[a].IsActive() && n.anomalies == w.anomalies[a := n.anomalies[a]]
            && n.anomalies[a] == row.(status := n.anomalies[a].status, updatedAt := n.anomalies[a].updatedAt,
              version := n.anomalies[a].version)
            && k in n.dispositions && n.dispositions == w.dispositions[k := n.dispositions[k]]
            && n.dispositions[k].anomalyId == a && n.dispositions[k].decision == n.anomalies[a].status
            && n == w.(vessels := n.vessels, anomalies := n.anomalies, dispositions := n.dispositions)
  {
  }

  lemma DecideKeepsBooks(w: World, p: Principal, a: Id, decision: AnomalyStatus, rationale: string, now: int, k: Id)
    requires Partitioned(w.declarations, w.includedIn, w.anomalies, w.voyages, w.permits)
             && Summed(w.declarations, w.includedIn, w.anomalies)
    requires Queued(w.jobs, w.voyages, w.anomalies) && Reviewed(w.anomalies, w.dispositions)
    requires Decide(w, p, a, decision, rationale, now, k).Commit?
    ensures var n := Decide(w, p, a, decision, rationale, now, k).world;
            && Partitioned(w.declarations, w.includedIn, n.anomalies, w.voyages, w.permits)
              && Summed(w.declarations, w.includedIn, n.anomalies)
            && Queued(w.jobs, w.voyages, n.anomalies) && Reviewed(n.anomalies, n.dispositions)
            && n == w.(vessels := n.vessels, anomalies := n.anomalies, dispositions := n.dispositions)
  {
    DecisionIsStatusChange(w, p, a, decision, rationale, now, k);
    var n := Decide(w, p, a, decision, rationale, now, k).world;
    StatusKeepsBooks(w, a, n.anomalies[a]);
    DecideKeepsReviewed(w.anomalies, w.dispositions, a, n.anomalies[a], k, n.dispositions[k]);
  }

  lemma DecideKeepsInv(w: World, p: Principal, a: Id, decision: AnomalyStatus, rationale: string, now: int, k: Id)
    requires Inv(w) && Decide(w, p, a, decision, rationale, now, k).Commit?
    ensures Inv(Decide(w, p, a, decision, rationale, now, k).world)
    ensures InLockstep(w) ==> InLockstep(Decide(w, p, a, decision, rationale, now, k).world)
  {
    var n := Decide(w, p, a, decision, rationale, now, k).world;
    DecideKeepsQuarantines(w, p, a, decision, rationale, now, k);
    DecideKeepsVesselSide(w, p, a, decision, rationale, now, k);
    DecideKeepsBooks(w, p, a, decision, rationale, now, k);
    ReviewKeepsInv(w, n.vessels, n.anomalies, n.dispositions);
  }

  lemma ReviewKeepsInv(w: World, vessels': Vessels, anomalies': Anomalies, dispositions': map<Id, AnomalyDisposition>)
    requires Inv(w) && Moored(vessels', w.voyages, w.links) && Loaded(w.voyages, vessels', w.links, w.fleets)
    requires AnomaliesFit(anomalies', w.voyages) && Quarantines(vessels', w.links, anomalies')
    requires Partitioned(w.declarations, w.includedIn, anomalies', w.voyages, w.permits)
             && Summed(w.declarations, w.includedIn, anomalies')
    requires Queued(w.jobs, w.voyages, anomalies') && Reviewed(anomalies', dispositions')
    ensures Inv(w.(vessels := vessels', anomalies := anomalies', dispositions := dispositions'))
  {
  }

  // ---- the rest of the tables ----

  lemma TasksKeepInv(w: World, tasks': map<Id, CatchLandingTask>)
    requires Inv(w) && TasksFit(tasks', w.voyages)
    ensures Inv(w.(tasks := tasks'))
  {
  }

  lemma FleetsKeepInv(w: World, fleets': Fleets)
    requires Inv(w) && Escorted(w.voyages, fleets') && Loaded(w.voyages, w.vessels, w.links, fleets')
    ensures Inv(w.(fleets := fleets'))
  {
  }

  lemma ChangeFleetKeepsInv(w: World, p: Principal, f: Id, change: FleetChange, now: int)
    requires Inv(w) && ChangeFleet(w, p, f, change, now).Commit?
    ensures Inv(ChangeFleet(w, p, f, change, now).world)
  {
    ChangeFleetCommits(w, p, f, change, now);
    ChangeKeepsEscorted(w, p, f, change, now);
    FleetsKeepLoaded(w, ChangeFleet(w, p, f, change, now).world.fleets);
    FleetsKeepInv(w, ChangeFleet(w, p, f, change, now).world.fleets);
  }

  lemma CreateFleetKeepsInv(w: World, p: Principal, f: Id, fleet: SupportFleet, now: int)
    requires Inv(w) && fleet.voyageId == "" && CreateFleet(w, p, f, fleet, now).Commit?
    ensures Inv(CreateFleet(w, p, f, fleet, now).world)
  {
    CreateFleetCommits(w, p, f, fleet, now);
    var row := CreateFleet(w, p, f, fleet, now).value;
    CreateKeepsEscorted(w.voyages, w.fleets, f, row);
    FleetsKeepLoaded(w, w.fleets[f := row]);
    FleetsKeepInv(w, w.fleets[f := row]);
  }

  lemma CreatePermitCommits(w: World, p: Principal, id: Id, permit: FishingPermit)
    requires CreatePermit(w, p, id, permit).Commit?
    ensures var o := CreatePermit(w, p, id, permit);
            id !in w.permits && o.world == w.(permits := w.permits[id := o.value])
  {
  }

  lemma CreatePermitKeepsEnvelopes(w: World, p: Principal, id: Id, permit: FishingPermit)
    ensures var n := CreatePermit(w, p, id, permit).After(w);
            SameEnvelopes(w.permits, n.permits) && n == w.(permits := n.permits)
  {
    var o := CreatePermit(w, p, id, permit);
    if o.Commit? { CreatePermitCommits(w, p, id, permit); }
  }

  lemma ActivatePermitCommits(w: World, p: Principal, id: Id)
    requires ActivatePermit(w, p, id).Commit?
    ensures id in w.permits
    ensures var row := w.permits[id].(status := PermitStatus.Active, version := w.permits[id].version + 1);
            ActivatePermit(w, p, id).world == w.(permits := w.permits[id := row])
  {
  }

  lemma ActivatePermitKeepsEnvelopes(w: World, p: Principal, id: Id)
    ensures var n := ActivatePermit(w, p, id).After(w);
            SameEnvelopes(w.permits, n.permits) && n == w.(permits := n.permits)
  {
    var o := ActivatePermit(w, p, id);
    if o.Commit? { ActivatePermitCommits(w, p, id); }
  }

  lemma PermitsKeepInv(w: World, permits': map<Id, FishingPermit>)
    requires Inv(w) && SameEnvelopes(w.permits, permits')
    ensures Inv(w.(permits := permits'))
  {
    PermitsKeepPartitioned(w, permits');
  }

  lemma CreatePortCommits(w: World, p: Principal, id: Id, port: PortFacility)
    requires CreatePort(w, p, id, port).Commit?
    ensures var o := CreatePort(w, p, id, port);
            id !in w.ports && o.value.Valid() && o.world == w.(ports := w.ports[id := o.value])
  {
  }

  lemma PortsKeepInv(w: World, ports': map<Id, PortFacility>)
    requires Inv(w) && Limits(w.voyages, ports')
    ensures Inv(w.(ports := ports'))
  {
  }

  lemma CreatePortKeepsInv(w: World, p: Principal, id: Id, port: PortFacility)
    requires Inv(w) && CreatePort(w, p, id, port).Commit?
    ensures Inv(CreatePort(w, p, id, port).world)
  {
    CreatePortCommits(w, p, id, port);
    var row := CreatePort(w, p, id, port).value;
    CreatePortKeepsLimits(w.voyages, w.ports, id, row);
    PortsKeepInv(w, w.ports[id := row]);
  }

  lemma VesselsKeepInv(w: World, vessels': Vessels)
    requires Inv(w) && Moored(vessels', w.voyages, w.links) && Loaded(w.voyages, vessels', w.links, w.fleets)
    requires Quarantines(vessels', w.links, w.anomalies)
    ensures Inv(w.(vessels := vessels'))
  {
  }

  lemma RegisterCommits(w: World, p: Principal, id: Id, vessel: FishingVessel, now: int)
    requires RegisterVessel(w, p, id, vessel, now).Commit?
    ensures var row := RegisterVessel(w, p, id, vessel, now).value;
            id !in w.vessels && row.voyageId == vessel.voyageId && row.state == Berthed
            && RegisterVessel(w, p, id, vessel, now).world == w.(vessels := w.vessels[id := row])
  {
  }

  lemma RegisterKeepsInv(w: World, p: Principal, id: Id, vessel: FishingVessel, now: int)
    requires Inv(w) && vessel.voyageId == "" && RegisterVessel(w, p, id, vessel, now).Commit?
    ensures Inv(RegisterVessel(w, p, id, vessel, now).world)
    ensures InLockstep(w) ==> InLockstep(RegisterVessel(w, p, id, vessel, now).world)
  {
    RegisterCommits(w, p, id, vessel, now);
    var row := RegisterVessel(w, p, id, vessel, now).value;
    RegisterKeepsMoored(w, id, row);
    RegisterKeepsLoaded(w, id, row);
    RegisterKeepsQuarantines(w.vessels, w.links, w.anomalies, id, row);
    VesselsKeepInv(w, w.vessels[id := row]);
  }

  lemma VerifyKeepsInv(w: World, p: Principal, id: Id, now: int)
    requires Inv(w) && VerifyVessel(w, p, id, now).Commit?
    ensures Inv(VerifyVessel(w, p, id, now).world)
  {
    VerifyCommits(w, p, id, now);
    VerifyKeepsMoored(w, p, id, now);
    var vessels' := VerifyVessel(w, p, id, now).world.vessels;
    HullsKeepLoaded(w, vessels');
    VerifyKeepsQuarantines(w.vessels, w.links, w.anomalies, id, vessels'[id]);
    VesselsKeepInv(w, vessels');
  }

  lemma WorkerKeepsInv(w: World, sweep: set<Id>, claim: set<Id>, now: int)
    requires Inv(w) && sweep <= Overdue(w.tasks, now).Keys && claim <= Ready(w.jobs, now).Keys
    ensures Inv(WorkerPass(w, sweep, claim, now))
  {
    SweepKeepsTasksFit(w.tasks, w.voyages, sweep, now);
    PassKeepsQueued(w.jobs, claim, now, w.voyages, w.anomalies);
    PassKeepsJobsFit(w.jobs, claim, now);
  }
}
