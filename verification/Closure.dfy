/** A closed voyage is a closed file: no command ever touches it or anything filed under it. */
module Closure {
  import opened Basics
  import opened Domain
  import opened Commands
  import opened Invariants
  import opened Planning
  import opened Mooring
  import opened Quarantine
  import opened Frames
  import opened Preservation
  import opened Runs
  import opened Handoffs

  /** Everything the store holds on one voyage. */
  datatype Dossier = Dossier(run: Option<FishingVoyage>, vessels: map<Id, FishingVessel>,
                             tasks: map<Id, CatchLandingTask>,
                             declarations: map<Id, CatchDeclaration>, anomalies: map<Id, CatchAnomaly>,
                               dispositions: map<Id, AnomalyDisposition>)

  function CrewRows(vessels: Vessels, links: map<Id, Id>, y: Id): map<Id, FishingVessel> {
    map x | x in links && links[x] == y && x in vessels :: vessels[x]
  }

  function TasksOf(tasks: map<Id, CatchLandingTask>, y: Id): map<Id, CatchLandingTask> {
    map t | t in tasks && tasks[t].voyageId == y :: tasks[t]
  }

  function DeclarationsOf(declarations: map<Id, CatchDeclaration>, y: Id): map<Id, CatchDeclaration> {
    map d | d in declarations && declarations[d].voyageId == y :: declarations[d]
  }

  function AnomaliesOf(anomalies: Anomalies, y: Id): map<Id, CatchAnomaly> {
    map a | a in anomalies && anomalies[a].voyageId == y :: anomalies[a]
  }

  function ReviewsOf(anomalies: Anomalies, dispositions: map<Id, AnomalyDisposition>, y: Id)
      : map<Id, AnomalyDisposition>
  {
    map k | k in dispositions && dispositions[k].anomalyId in anomalies
      && anomalies[dispositions[k].anomalyId].voyageId == y :: dispositions[k]
  }

  function FileOf(w: World, y: Id): Dossier {
    Dossier(if y in w.voyages then Some(w.voyages[y]) else None, CrewRows(w.vessels, w.links, y), TasksOf(w.tasks, y),
            DeclarationsOf(w.declarations, y), AnomaliesOf(w.anomalies, y), ReviewsOf(w.anomalies, w.dispositions, y))
  }

  predicate IsClosed(w: World, y: Id) { y in w.voyages && w.voyages[y].state == Closed }

  // ---- one command ----

  lemma PlanSparesCrew(w: World, input: PlanInput, now: int, z: Id, jobId: Id, y: Id)
    requires y in w.voyages && z !in w.voyages && input.fleetId in w.fleets
    requires forall x | x in input.vesselIds :: x !in w.links
    ensures var n := PlannedWorld(w, input, now, z, jobId);
            CrewRows(n.vessels, n.links, y) == CrewRows(w.vessels, w.links, y) && y in n.voyages
              && n.voyages[y] == w.voyages[y]
  {
  }

  lemma PlanSpares(w: World, p: Principal, input: PlanInput, now: int, z: Id, jobId: Id, y: Id)
    requires y in w.voyages
    ensures FileOf(Plan(w, p, input, now, z, jobId).After(w), y) == FileOf(w, y)
  {
    PlanFrame(w, p, input, now, z, jobId);
    if Plan(w, p, input, now, z, jobId).Commit? && !KeyHeld(w, input.key, now) {
      PlanCommits(w, p, input, now, z, jobId);
      PlannedCrewUnlinked(w, input, z, jobId);
      PlanSparesCrew(w, input, now, z, jobId, y);
    }
  }

  lemma AdvanceSpares(w: World, p: Principal, z: Id, target: VoyageState, now: int, y: Id)
    requires Moored(w.vessels, w.voyages, w.links) && IsClosed(w, y)
    ensures FileOf(Advance(w, p, z, target, now).After(w), y) == FileOf(w, y)
  {
  }

  lemma CancelSpares(w: World, p: Principal, z: Id, now: int, y: Id)
    requires Moored(w.vessels, w.voyages, w.links) && IsClosed(w, y)
    ensures FileOf(Cancel(w, p, z, now).After(w), y) == FileOf(w, y)
  {
  }

  lemma VerifySpares(w: World, p: Principal, id: Id, now: int, y: Id)
    requires Moored(w.vessels, w.voyages, w.links) && IsClosed(w, y)
    ensures FileOf(VerifyVessel(w, p, id, now).After(w), y) == FileOf(w, y)
  {
  }

  lemma RegisterSpares(w: World, p: Principal, id: Id, vessel: FishingVessel, now: int, y: Id)
    requires forall x | x in w.links :: x in w.vessels
    ensures FileOf(RegisterVessel(w, p, id, vessel, now).After(w), y) == FileOf(w, y)
  {
  }

  lemma FlagSparesCrew(w: World, z: Id, a: Id, now: int, y: Id)
    requires z != y
    ensures CrewRows(ImpoundedVessels(w, z, a, now), w.links, y) == CrewRows(w.vessels, w.links, y)
  {
  }

  lemma DeclareSpares(declarations: map<Id, CatchDeclaration>, id: Id, d: CatchDeclaration, y: Id)
    requires id !in declarations && d.voyageId != y
    ensures DeclarationsOf(declarations[id := d], y) == DeclarationsOf(declarations, y)
  {
  }

  lemma AnomalySpares(anomalies: Anomalies, dispositions: map<Id, AnomalyDisposition>, a: Id, row: CatchAnomaly, y: Id)
    requires row.voyageId != y && (a in anomalies ==> anomalies[a].voyageId != y)
    requires forall k | k in dispositions :: dispositions[k].anomalyId in anomalies
    ensures AnomaliesOf(anomalies[a := row], y) == AnomaliesOf(anomalies, y)
    ensures ReviewsOf(anomalies[a := row], dispositions, y) == ReviewsOf(anomalies, dispositions, y)
  {
  }

  lemma FlagSpares(w: World, d: CatchDeclaration, due: int, now: int, id: Id, a: Id, jobId: Id, y: Id)
    requires Reviewed(w.anomalies, w.dispositions) && id !in w.declarations && d.voyageId != y
    requires a in w.anomalies ==> w.anomalies[a].voyageId == d.voyageId
    ensures FileOf(FlaggedWorld(w, d, due, now, id, a, jobId), y) == FileOf(w, y)
  {
    var n := FlaggedWorld(w, d, due, now, id, a, jobId);
    FlagFrame(w, d, due, now, id, a, jobId);
    assert n.anomalies[a].voyageId == d.voyageId;
    FlagSparesCrew(w, d.voyageId, a, now, y);
    DeclareSpares(w.declarations, id, d, y);
    AnomalySpares(w.anomalies, w.dispositions, a, n.anomalies[a], y);
  }

  lemma SubmitSpares(w: World, p: Principal, d: CatchDeclaration, now: int, id: Id, anomalyId: Id, jobId: Id, y: Id)
    requires AnomaliesFit(w.anomalies, w.voyages) && Reviewed(w.anomalies, w.dispositions) && IsClosed(w, y)
    ensures FileOf(Submit(w, p, d, now, id, anomalyId, jobId).After(w), y) == FileOf(w, y)
  {
    if Submit(w, p, d, now, id, anomalyId, jobId).Commit? {
      SubmitCommits(w, p, d, now, id, anomalyId, jobId);
      if OutOfEnvelope(d, w.voyages, w.permits) {
        var a := TargetAnomaly(w, d.voyageId, anomalyId);
        assert a in w.anomalies ==> a in ActiveAnomalies(w.anomalies, d.voyageId);
        FlagSpares(w, d, w.permits[w.voyages[d.voyageId].permitId].reviewDeadline, now, id, a, jobId, y);
      } else {
        DeclareSpares(w.declarations, id, d, y);
      }
    }
  }

  lemma StartReviewSpares(w: World, p: Principal, a: Id, now: int, y: Id)
    requires AnomaliesFit(w.anomalies, w.voyages) && Reviewed(w.anomalies, w.dispositions) && IsClosed(w, y)
    ensures FileOf(StartReview(w, p, a, now).After(w), y) == FileOf(w, y)
  {
    if StartReview(w, p, a, now).Commit? {
      StartReviewCommits(w, p, a, now);
      AnomalySpares(w.anomalies, w.dispositions, a, StartReview(w, p, a, now).world.anomalies[a], y);
    }
  }

  lemma JudgeSpares(w: World, z: Id, a: Id, decision: AnomalyStatus, rationale: string, now: int, y: Id)
    requires z != y
    ensures CrewRows(JudgedVessels(w, z, a, decision, rationale, now), w.links, y) == CrewRows(w.vessels, w.links, y)
  {
  }

  lemma DispositionSpares(anomalies: Anomalies, dispositions: map<Id, AnomalyDisposition>, k: Id,
                          row: AnomalyDisposition, y: Id)
    requires k !in dispositions && row.anomalyId in anomalies && anomalies[row.anomalyId].voyageId != y
    ensures ReviewsOf(anomalies, dispositions[k := row], y) == ReviewsOf(anomalies, dispositions, y)
  {
  }

  lemma DecideSpares(w: World, p: Principal, a: Id, decision: AnomalyStatus, rationale: string, now: int, k: Id, y: Id)
    requires AnomaliesFit(w.anomalies, w.voyages) && Reviewed(w.anomalies, w.dispositions) && IsClosed(w, y)
    ensures FileOf(Decide(w, p, a, decision, rationale, now, k).After(w), y) == FileOf(w, y)
  {
    if Decide(w, p, a, decision, rationale, now, k).Commit? {
      DecideCommits(w, p, a, decision, rationale, now, k);
      var n, z := Decide(w, p, a, decision, rationale, now, k).world, w.anomalies[a].voyageId;
      JudgeSpares(w, z, a, decision, rationale, now, y);
      AnomalySpares(w.anomalies, w.dispositions, a, n.anomalies[a], y);
      DispositionSpares(n.anomalies, w.dispositions, k, n.dispositions[k], y);
    }
  }

  lemma CreateTaskSpares(w: World, p: Principal, task: TaskInput, ttl: int, now: int, id: Id, y: Id)
    requires IsClosed(w, y)
    ensures FileOf(CreateTask(w, p, task, ttl, now, id).After(w), y) == FileOf(w, y)
  {
  }

  lemma SettledTasksStay(tasks: map<Id, CatchLandingTask>, voyages: Voyages, tasks': map<Id, CatchLandingTask>, y: Id)
    requires TasksFit(tasks, voyages) && y in voyages && voyages[y].state == Closed && OnlyPendingMove(tasks, tasks')
    ensures TasksOf(tasks', y) == TasksOf(tasks, y)
  {
  }

  lemma ResolveTaskSpares(w: World, p: Principal, id: Id, accepted: bool, note: string, now: int, y: Id)
    requires TasksFit(w.tasks, w.voyages) && IsClosed(w, y)
    ensures FileOf(ResolveTask(w, p, id, accepted, note, now).After(w), y) == FileOf(w, y)
  {
    ResolveTaskFrame(w, p, id, accepted, note, now);
    ResolveMovesPending(w, p, id, accepted, note, now);
    SettledTasksStay(w.tasks, w.voyages, ResolveTask(w, p, id, accepted, note, now).After(w).tasks, y);
  }

  lemma PassSpares(w: World, sweep: set<Id>, claim: set<Id>, now: int, y: Id)
    requires TasksFit(w.tasks, w.voyages) && IsClosed(w, y) && sweep <= Overdue(w.tasks, now).Keys
    ensures FileOf(WorkerPass(w, sweep, claim, now), y) == FileOf(w, y)
  {
    SweepMovesPending(w.tasks, sweep, now);
    SettledTasksStay(w.tasks, w.voyages, SweptTasks(w.tasks, sweep, now), y);
  }

  // ---- any command, any run ----

  lemma VoyageCommandSpares(w: World, e: Issue, y: Id)
    requires Moored(w.vessels, w.voyages, w.links) && IsClosed(w, y) && MovesVoyages(e.command)
    ensures FileOf(Perform(w, e), y) == FileOf(w, y)
  {
    match e.command
    case PlanVoyage(input, z, job) => PlanSpares(w, e.actor, input, e.now, z, job, y);
    case AdvanceVoyage(z, target) => AdvanceSpares(w, e.actor, z, target, e.now, y);
    case CancelVoyage(z) => CancelSpares(w, e.actor, z, e.now, y);
  }

  lemma SubmitCommandSpares(w: World, e: Issue, y: Id)
    requires AnomaliesFit(w.anomalies, w.voyages) && Reviewed(w.anomalies, w.dispositions) && IsClosed(w, y)
    requires e.command.SubmitDeclaration?
    ensures FileOf(Perform(w, e), y) == FileOf(w, y)
  {
    var SubmitDeclaration(d, id, a, job) := e.command;
    SubmitSpares(w, e.actor, Received(d, e.now), e.now, id, a, job, y);
  }

  lemma ReviewCommandSpares(w: World, e: Issue, y: Id)
    requires AnomaliesFit(w.anomalies, w.voyages) && Reviewed(w.anomalies, w.dispositions) && IsClosed(w, y)
    requires e.command.BeginReview? || e.command.DecideAnomaly?
    ensures FileOf(Perform(w, e), y) == FileOf(w, y)
  {
    match e.command
    case BeginReview(a) => StartReviewSpares(w, e.actor, a, e.now, y);
    case DecideAnomaly(a, decision, rationale, k) => DecideSpares(w, e.actor, a, decision, rationale, e.now, k, y);
  }

  lemma TaskCommandSpares(w: World, e: Issue, y: Id)
    requires TasksFit(w.tasks, w.voyages) && IsClosed(w, y) && MovesTasks(e.command) && Admissible(w, e)
    ensures FileOf(Perform(w, e), y) == FileOf(w, y)
  {
    match e.command
    case OpenTask(task, ttl, id) => CreateTaskSpares(w, e.actor, task, ttl, e.now, id, y);
    case SettleTask(id, accepted, note) => ResolveTaskSpares(w, e.actor, id, accepted, note, e.now, y);
    case Work(batch, sweep, claim) => PassSpares(w, sweep, claim, e.now, y);
  }

  lemma VesselCommandSpares(w: World, e: Issue, y: Id)
    requires Moored(w.vessels, w.voyages, w.links) && IsClosed(w, y) && (e.command.AddVessel? || e.command.CheckVessel?)
    ensures FileOf(Perform(w, e), y) == FileOf(w, y)
  {
    match e.command
    case AddVessel(id, vessel) => RegisterSpares(w, e.actor, id, vessel, e.now, y);
    case CheckVessel(id) => VerifySpares(w, e.actor, id, e.now, y);
  }

  lemma QuietCommandSpares(w: World, e: Issue, y: Id)
    requires var c := e.command; !MovesVessels(c) && !MovesVoyages(c) && !MovesTasks(c) && !MovesAnomalies(c)
    ensures FileOf(Perform(w, e), y) == FileOf(w, y)
  {
    Spares(w, e);
  }

  lemma SoundFor(w: World)
    requires Sound(w)
    ensures Moored(w.vessels, w.voyages, w.links) && AnomaliesFit(w.anomalies, w.voyages)
    ensures Reviewed(w.anomalies, w.dispositions) && TasksFit(w.tasks, w.voyages)
  {
    assert Inv(w);
  }

  lemma CommandSpares(w: World, e: Issue, y: Id)
    requires Sound(w) && Admissible(w, e) && IsClosed(w, y)
    ensures FileOf(Perform(w, e), y) == FileOf(w, y)
  {
    var c := e.command;
    SoundFor(w);
    if MovesVoyages(c) { VoyageCommandSpares(w, e, y); }
    else if c.SubmitDeclaration? { SubmitCommandSpares(w, e, y); }
    else if MovesAnomalies(c) { ReviewCommandSpares(w, e, y); }
    else if MovesTasks(c) { TaskCommandSpares(w, e, y); }
    else if c.AddVessel? || c.CheckVessel? { VesselCommandSpares(w, e, y); }
    else { QuietCommandSpares(w, e, y); }
  }

  lemma StepSpares(w: World, e: Issue, n: World, y: Id)
    requires Sound(w) && Step(w, e, n) && IsClosed(w, y)
    ensures FileOf(n, y) == FileOf(w, y)
  {
    StepOpens(w, e, n);
    CommandSpares(w, e, y);
  }

  /** Once a voyage is closed, its row, its crew's rows, its tasks, declarations, anomalies and
      dispositions are the same in every later state of the run. */
  lemma {:induction false} ClosureIsFinal(worlds: seq<World>, issues: seq<Issue>, i: nat, j: nat, y: Id)
    requires IsRun(worlds, issues) && i <= j < |worlds| && IsClosed(worlds[i], y)
    ensures FileOf(worlds[j], y) == FileOf(worlds[i], y) && IsClosed(worlds[j], y)
  {
    if i < j {
      ClosureIsFinal(worlds, issues, i, j - 1, y);
      RunIsSound(worlds, issues, j - 1);
      StepInRun(worlds, issues, j - 1);
      StepSpares(worlds[j - 1], issues[j - 1], worlds[j], y);
      SameFileClosed(worlds[j - 1], worlds[j], y);
    }
  }

  lemma SameFileClosed(w: World, n: World, y: Id)
    requires FileOf(n, y) == FileOf(w, y) && IsClosed(w, y)
    ensures IsClosed(n, y)
  {
  }

  /** The closed file is complete: nothing pending, nothing under review, and every anomaly has
      exactly one disposition, with the decision the anomaly carries. */
  lemma ClosedIsSettled(worlds: seq<World>, issues: seq<Issue>, i: nat, y: Id)
    requires IsRun(worlds, issues) && i < |worlds| && IsClosed(worlds[i], y)
    ensures var w := worlds[i];
            && PendingTasks(w.tasks, y) == {} && ActiveAnomalies(w.anomalies, y) == {}
            && forall a | a in AnomaliesOf(w.anomalies, y) ::
                 exists k :: DispositionsOf(w.dispositions, a) == {k}
                   && w.dispositions[k].decision == w.anomalies[a].status
  {
    RunKeepsInv(worlds, issues, i);
    SettledWhenClosed(worlds[i], y);
  }

  lemma SettledWhenClosed(w: World, y: Id)
    requires TasksFit(w.tasks, w.voyages) && AnomaliesFit(w.anomalies, w.voyages)
             && Reviewed(w.anomalies, w.dispositions) && IsClosed(w, y)
    ensures PendingTasks(w.tasks, y) == {} && ActiveAnomalies(w.anomalies, y) == {}
    ensures forall a | a in AnomaliesOf(w.anomalies, y) ::
              exists k :: DispositionsOf(w.dispositions, a) == {k}
                && w.dispositions[k].decision == w.anomalies[a].status
  {
  }
}
