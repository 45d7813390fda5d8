/** Runs of the service: any sequence of commands by any principals, starting from an empty
    database, and the invariant lifted to every state of every run. */
module Runs {
  import opened Domain
  import opened Commands
  import opened Invariants
  import opened Selection
  import opened Mooring
  import opened Accounts
  import opened Preservation
  import opened Frames

  datatype Command =
    | AddPermit(permitId: Id, permit: FishingPermit)
    | OpenPermit(permitId: Id)
    | AddPort(portId: Id, port: PortFacility)
    | AddFleet(fleetId: Id, fleet: SupportFleet)
    | AlterFleet(fleetId: Id, change: FleetChange)
    | AddVessel(vesselId: Id, vessel: FishingVessel)
    | CheckVessel(vesselId: Id)
    | PlanVoyage(input: PlanInput, voyageId: Id, jobId: Id)
    | AdvanceVoyage(voyageId: Id, target: VoyageState)
    | CancelVoyage(voyageId: Id)
    | SubmitDeclaration(declaration: CatchDeclaration, declarationId: Id, anomalyId: Id, jobId: Id)
    | BeginReview(anomalyId: Id)
    | DecideAnomaly(anomalyId: Id, decision: AnomalyStatus, rationale: string, dispositionId: Id)
    | OpenTask(task: TaskInput, ttl: int, taskId: Id)
    | SettleTask(taskId: Id, accepted: bool, note: string)
    | Work(batch: nat, sweep: set<Id>, claim: set<Id>)

  datatype Issue = Issue(command: Command, actor: Principal, now: int)

  /** What the callers guarantee: anomaly identifiers are generated, voyages advance to the four
      targets the API offers, the handlers build new vessels and fleets without a voyage, and a
      worker pass takes what its two LIMIT queries may return. */
  ghost predicate Admissible(w: World, e: Issue) {
    match e.command
    case AddVessel(_, vessel) => vessel.voyageId == ""
    case AddFleet(_, fleet) => fleet.voyageId == ""
    case SubmitDeclaration(_, _, anomalyId, _) => Generated(anomalyId)
    case AdvanceVoyage(_, target) => target in {VoyageState.Cleared, Departed, VoyageState.Landed, Closed}
    case Work(batch, sweep, claim) =>
      IsEarliest(Overdue(w.tasks, e.now), batch, sweep) && IsEarliest(Ready(w.jobs, e.now), batch, claim)
    case _ => true
  }

  ghost function Perform(w: World, e: Issue): World {
    match e.command
    case AddPermit(id, permit) => CreatePermit(w, e.actor, id, permit).After(w)
    case OpenPermit(id) => ActivatePermit(w, e.actor, id).After(w)
    case AddPort(id, port) => CreatePort(w, e.actor, id, port).After(w)
    case AddFleet(id, fleet) => CreateFleet(w, e.actor, id, fleet, e.now).After(w)
    case AlterFleet(id, change) => ChangeFleet(w, e.actor, id, change, e.now).After(w)
    case AddVessel(id, vessel) => RegisterVessel(w, e.actor, id, vessel, e.now).After(w)
    case CheckVessel(id) => VerifyVessel(w, e.actor, id, e.now).After(w)
    case PlanVoyage(input, y, job) => Plan(w, e.actor, input, e.now, y, job).After(w)
    case AdvanceVoyage(y, target) => Advance(w, e.actor, y, target, e.now).After(w)
    case CancelVoyage(y) => Cancel(w, e.actor, y, e.now).After(w)
    case SubmitDeclaration(d, id, a, job) => Submit(w, e.actor, Received(d, e.now), e.now, id, a, job).After(w)
    case BeginReview(a) => StartReview(w, e.actor, a, e.now).After(w)
    case DecideAnomaly(a, decision, rationale, k) => Decide(w, e.actor, a, decision, rationale, e.now, k).After(w)
    case OpenTask(task, ttl, id) => CreateTask(w, e.actor, task, ttl, e.now, id).After(w)
    case SettleTask(id, accepted, note) => ResolveTask(w, e.actor, id, accepted, note, e.now).After(w)
    case Work(_, sweep, claim) => WorkerPass(w, sweep, claim, e.now)
  }

  predicate IsEmpty(w: World) {
    w == World(w.users, map[], map[], map[], map[], map[], map[], map[], map[], map[], map[], map[], map[], map[],
      map[])
  }

  /** One admissible command takes w to n. (Stated under a quantifier so that a proof about whole
      runs does not unfold every command at every step.) */
  ghost predicate Step(w: World, e: Issue, n: World) {
    forall f {:trigger Perform(w, f)} | f == e :: Admissible(w, f) && n == Perform(w, f)
  }

  ghost predicate StepAt(worlds: seq<World>, issues: seq<Issue>, i: int) {
    0 <= i < |issues| && i + 1 < |worlds| && Step(worlds[i], issues[i], worlds[i + 1])
  }

  ghost predicate IsRun(worlds: seq<World>, issues: seq<Issue>) {
    && |worlds| == |issues| + 1 && IsEmpty(worlds[0])
    && forall i | 0 <= i < |issues| :: StepAt(worlds, issues, i)
  }

  predicate Monotone(issues: seq<Issue>) {
    forall i, j | 0 <= i <= j < |issues| :: issues[i].now <= issues[j].now
  }

  lemma StepBy(w: World, e: Issue, n: World)
    requires Admissible(w, e) && n == Perform(w, e)
    ensures Step(w, e, n)
  {
  }

  lemma RunExtends(worlds: seq<World>, issues: seq<Issue>, e: Issue, n: World)
    requires IsRun(worlds, issues) && Step(worlds[|worlds| - 1], e, n)
    ensures IsRun(worlds + [n], issues + [e])
  {
    var ws, es := worlds + [n], issues + [e];
    forall i | 0 <= i < |es| ensures StepAt(ws, es, i) {
      if i < |issues| { assert StepAt(worlds, issues, i); }
    }
  }

  // ---- which tables a command may write ----

  predicate MovesVessels(c: Command) {
    c.AddVessel? || c.CheckVessel? || c.PlanVoyage? || c.AdvanceVoyage? || c.CancelVoyage? || c.SubmitDeclaration?
      || c.DecideAnomaly?
  }

  predicate MovesVoyages(c: Command) { c.PlanVoyage? || c.AdvanceVoyage? || c.CancelVoyage? }

  predicate MovesTasks(c: Command) { c.OpenTask? || c.SettleTask? || c.Work? }

  predicate MovesAnomalies(c: Command) { c.SubmitDeclaration? || c.BeginReview? || c.DecideAnomaly? }

  predicate MovesJobs(c: Command) { c.PlanVoyage? || c.SubmitDeclaration? || c.Work? }

  /** The tables outside a command's reach are as they were. */
  ghost predicate Spared(w: World, n: World, c: Command) {
    && (MovesVessels(c) || n.vessels == w.vessels)
    && (MovesVoyages(c) || n.voyages == w.voyages)
    && (c.PlanVoyage? || (n.links == w.links && n.keys == w.keys && n.plannedUnder == w.plannedUnder))
    && (MovesTasks(c) || n.tasks == w.tasks)
    && (c.SubmitDeclaration? || (n.declarations == w.declarations && n.includedIn == w.includedIn))
    && (MovesAnomalies(c) || n.anomalies == w.anomalies)
    && (c.DecideAnomaly? || n.dispositions == w.dispositions)
    && (MovesJobs(c) || n.jobs == w.jobs)
  }

  lemma CatalogSpares(w: World, e: Issue)
    requires var c := e.command;
             c.AddPermit? || c.OpenPermit? || c.AddPort? || c.AddFleet? || c.AlterFleet?
             || c.AddVessel? || c.CheckVessel?
    ensures Spared(w, Perform(w, e), e.command)
  {
    match e.command
    case AddPermit(id, permit) => CreatePermitFrame(w, e.actor, id, permit);
    case OpenPermit(id) => ActivatePermitFrame(w, e.actor, id);
    case AddPort(id, port) => PortFrame(w, e.actor, id, port);
    case AddFleet(id, fleet) => CreateFleetFrame(w, e.actor, id, fleet, e.now);
    case AlterFleet(id, change) => ChangeFleetFrame(w, e.actor, id, change, e.now);
    case AddVessel(id, vessel) => RegisterFrame(w, e.actor, id, vessel, e.now);
    case CheckVessel(id) => VerifyFrame(w, e.actor, id, e.now);
  }

  lemma PlanSpares(w: World, e: Issue)
    requires e.command.PlanVoyage?
    ensures Spared(w, Perform(w, e), e.command)
  {
    var c := e.command;
    PlanFrame(w, e.actor, c.input, e.now, c.voyageId, c.jobId);
  }

  lemma AdvanceSpares(w: World, e: Issue)
    requires e.command.AdvanceVoyage?
    ensures Spared(w, Perform(w, e), e.command)
  {
    var c := e.command;
    AdvanceFrame(w, e.actor, c.voyageId, c.target, e.now);
  }

  lemma CancelSpares(w: World, e: Issue)
    requires e.command.CancelVoyage?
    ensures Spared(w, Perform(w, e), e.command)
  {
    var c := e.command;
    CancelFrame(w, e.actor, c.voyageId, e.now);
  }

  lemma SubmitSpares(w: World, e: Issue)
    requires e.command.SubmitDeclaration?
    ensures Spared(w, Perform(w, e), e.command)
  {
    var c := e.command;
    SubmitFrame(w, e.actor, Received(c.declaration, e.now), e.now, c.declarationId, c.anomalyId, c.jobId);
  }

  lemma ReviewSpares(w: World, e: Issue)
    requires e.command.BeginReview?
    ensures Spared(w, Perform(w, e), e.command)
  {
    var c := e.command;
    StartReviewFrame(w, e.actor, c.anomalyId, e.now);
  }

  lemma DecideSpares(w: World, e: Issue)
    requires e.command.DecideAnomaly?
    ensures Spared(w, Perform(w, e), e.command)
  {
    var c := e.command;
    DecideFrame(w, e.actor, c.anomalyId, c.decision, c.rationale, e.now, c.dispositionId);
  }

  lemma OpenTaskSpares(w: World, e: Issue)
    requires e.command.OpenTask?
    ensures Spared(w, Perform(w, e), e.command)
  {
    var c := e.command;
    CreateTaskFrame(w, e.actor, c.task, c.ttl, e.now, c.taskId);
  }

  lemma SettleTaskSpares(w: World, e: Issue)
    requires e.command.SettleTask?
    ensures Spared(w, Perform(w, e), e.command)
  {
    var c := e.command;
    var n := ResolveTask(w, e.actor, c.taskId, c.accepted, c.note, e.now).After(w);
    ResolveTaskFrame(w, e.actor, c.taskId, c.accepted, c.note, e.now);
    OnlyTasksMove(w, n, c);
  }

  lemma OnlyTasksMove(w: World, n: World, c: Command)
    requires MovesTasks(c) && n == w.(tasks := n.tasks)
    ensures Spared(w, n, c)
  {
  }

  lemma Spares(w: World, e: Issue)
    ensures Spared(w, Perform(w, e), e.command)
  {
    match e.command
    case PlanVoyage(_, _, _) => PlanSpares(w, e);
    case AdvanceVoyage(_, _) => AdvanceSpares(w, e);
    case CancelVoyage(_) => CancelSpares(w, e);
    case SubmitDeclaration(_, _, _, _) => SubmitSpares(w, e);
    case BeginReview(_) => ReviewSpares(w, e);
    case DecideAnomaly(_, _, _, _) => DecideSpares(w, e);
    case OpenTask(_, _, _) => OpenTaskSpares(w, e);
    case SettleTask(_, _, _) => SettleTaskSpares(w, e);
    case Work(_, _, _) =>
    case _ => CatalogSpares(w, e);
  }

  lemma CatalogStepKeepsSound(w: World, e: Issue)
    requires Sound(w) && Admissible(w, e)
    requires e.command.AddPermit? || e.command.OpenPermit? || e.command.AddPort? || e.command.AddFleet?
             || e.command.AlterFleet?
    ensures Sound(Perform(w, e))
  {
    assert Inv(w);
    match e.command
    case AddPermit(id, permit) =>
      CreatePermitKeepsEnvelopes(w, e.actor, id, permit);
      PermitsKeepInv(w, CreatePermit(w, e.actor, id, permit).After(w).permits);
    case OpenPermit(id) =>
      ActivatePermitKeepsEnvelopes(w, e.actor, id);
      PermitsKeepInv(w, ActivatePermit(w, e.actor, id).After(w).permits);
    case AddPort(id, port) => if CreatePort(w, e.actor, id, port).Commit? { CreatePortKeepsInv(w, e.actor, id, port); }
    case AddFleet(id, fleet) =>
      if CreateFleet(w, e.actor, id, fleet, e.now).Commit? { CreateFleetKeepsInv(w, e.actor, id, fleet, e.now); }
    case AlterFleet(id, change) =>
      if ChangeFleet(w, e.actor, id, change, e.now).Commit? { ChangeFleetKeepsInv(w, e.actor, id, change, e.now); }
  }

  lemma OpenTaskKeepsInv(w: World, p: Principal, task: TaskInput, ttl: int, now: int, id: Id)
    requires Inv(w) && CreateTask(w, p, task, ttl, now, id).Commit?
    ensures Inv(CreateTask(w, p, task, ttl, now, id).world)
  {
    var n := CreateTask(w, p, task, ttl, now, id).world;
    CreateTaskKeepsTasksFit(w, p, task, ttl, now, id);
    CreateTaskFrame(w, p, task, ttl, now, id);
    TasksKeepInv(w, n.tasks);
  }

  lemma SettleTaskKeepsInv(w: World, p: Principal, id: Id, accepted: bool, note: string, now: int)
    requires Inv(w) && ResolveTask(w, p, id, accepted, note, now).Commit?
    ensures Inv(ResolveTask(w, p, id, accepted, note, now).world)
  {
    var n := ResolveTask(w, p, id, accepted, note, now).world;
    ResolveKeepsTasksFit(w, p, id, accepted, note, now);
    ResolveTaskFrame(w, p, id, accepted, note, now);
    TasksKeepInv(w, n.tasks);
  }

  lemma VesselStepKeepsSound(w: World, e: Issue)
    requires Sound(w) && Admissible(w, e) && (e.command.AddVessel? || e.command.CheckVessel?)
    ensures Sound(Perform(w, e))
  {
    assert Inv(w);
    match e.command
    case AddVessel(id, vessel) =>
      if RegisterVessel(w, e.actor, id, vessel, e.now).Commit? { RegisterKeepsInv(w, e.actor, id, vessel, e.now); }
    case CheckVessel(id) => if VerifyVessel(w, e.actor, id, e.now).Commit? { VerifyKeepsInv(w, e.actor, id, e.now); }
  }

  lemma VoyageStepKeepsSound(w: World, e: Issue)
    requires Sound(w) && Admissible(w, e) && MovesVoyages(e.command)
    ensures Sound(Perform(w, e))
  {
    assert Inv(w);
    match e.command
    case PlanVoyage(input, y, job) =>
      if Plan(w, e.actor, input, e.now, y, job).Commit? { PlanKeepsInv(w, e.actor, input, e.now, y, job); }
    case AdvanceVoyage(y, target) =>
      if Advance(w, e.actor, y, target, e.now).Commit? { AdvanceKeepsInv(w, e.actor, y, target, e.now); }
    case CancelVoyage(y) => if Cancel(w, e.actor, y, e.now).Commit? { CancelKeepsInv(w, e.actor, y, e.now); }
  }

  lemma SubmitStepKeepsSound(w: World, e: Issue)
    requires Sound(w) && Admissible(w, e) && e.command.SubmitDeclaration?
    ensures Sound(Perform(w, e))
  {
    assert Inv(w);
    var SubmitDeclaration(d, id, a, job) := e.command;
    if Submit(w, e.actor, Received(d, e.now), e.now, id, a, job).Commit? {
      SubmitKeepsInv(w, e.actor, Received(d, e.now), e.now, id, a, job);
    }
  }

  lemma ReviewStepKeepsSound(w: World, e: Issue)
    requires Sound(w) && Admissible(w, e) && (e.command.BeginReview? || e.command.DecideAnomaly?)
    ensures Sound(Perform(w, e))
  {
    assert Inv(w);
    match e.command
    case BeginReview(a) => if StartReview(w, e.actor, a, e.now).Commit? { StartReviewKeepsInv(w, e.actor, a, e.now); }
    case DecideAnomaly(a, decision, rationale, k) =>
      if Decide(w, e.actor, a, decision, rationale, e.now, k).Commit? {
        DecideKeepsInv(w, e.actor, a, decision, rationale, e.now, k);
      }
  }

  lemma OpenTaskKeepsSound(w: World, e: Issue)
    requires Sound(w) && Admissible(w, e) && e.command.OpenTask?
    ensures Sound(Perform(w, e))
  {
    assert Inv(w);
    var OpenTask(task, ttl, id) := e.command;
    if CreateTask(w, e.actor, task, ttl, e.now, id).Commit? { OpenTaskKeepsInv(w, e.actor, task, ttl, e.now, id); }
  }

  lemma SettleTaskKeepsSound(w: World, e: Issue)
    requires Sound(w) && Admissible(w, e) && e.command.SettleTask?
    ensures Sound(Perform(w, e))
  {
    assert Inv(w);
    var SettleTask(id, accepted, note) := e.command;
    if ResolveTask(w, e.actor, id, accepted, note, e.now).Commit? {
      SettleTaskKeepsInv(w, e.actor, id, accepted, note, e.now);
    }
  }

  lemma WorkKeepsSound(w: World, e: Issue)
    requires Sound(w) && Admissible(w, e) && e.command.Work?
    ensures Sound(Perform(w, e))
  {
    assert Inv(w);
    WorkerKeepsInv(w, e.command.sweep, e.command.claim, e.now);
  }

  lemma CommandKeepsSound(w: World, e: Issue)
    requires Sound(w) && Admissible(w, e)
    ensures Sound(Perform(w, e))
  {
    var c := e.command;
    if c.AddVessel? || c.CheckVessel? { VesselStepKeepsSound(w, e); }
    else if MovesVoyages(c) { VoyageStepKeepsSound(w, e); }
    else if c.SubmitDeclaration? { SubmitStepKeepsSound(w, e); }
    else if c.BeginReview? || c.DecideAnomaly? { ReviewStepKeepsSound(w, e); }
    else if c.OpenTask? { OpenTaskKeepsSound(w, e); }
    else if c.SettleTask? { SettleTaskKeepsSound(w, e); }
    else if c.Work? { WorkKeepsSound(w, e); }
    else { CatalogStepKeepsSound(w, e); }
  }

  lemma StepOpens(w: World, e: Issue, n: World)
    requires Step(w, e, n)
    ensures Admissible(w, e) && n == Perform(w, e)
  {
    assert n == Perform(w, e);
  }

  lemma SoundMoored(w: World)
    requires Sound(w)
    ensures Moored(w.vessels, w.voyages, w.links)
  {
    assert Inv(w);
  }

  lemma StepKeepsInv(w: World, e: Issue, n: World)
    requires Sound(w) && Step(w, e, n)
    ensures Sound(n)
  {
    StepOpens(w, e, n);
    CommandKeepsSound(w, e);
  }

  lemma {:induction false} RunIsSound(worlds: seq<World>, issues: seq<Issue>, i: nat)
    requires IsRun(worlds, issues) && i < |worlds|
    ensures Sound(worlds[i])
  {
    if i == 0 {
      EmptyFits(worlds[0]);
    } else {
      RunIsSound(worlds, issues, i - 1);
      StepInRun(worlds, issues, i - 1);
      StepKeepsInv(worlds[i - 1], issues[i - 1], worlds[i]);
    }
  }

  lemma EmptyFits(w: World)
    requires IsEmpty(w)
    ensures Inv(w)
  {
  }

  /** Every state of every run satisfies the invariant. */
  lemma RunKeepsInv(worlds: seq<World>, issues: seq<Issue>, i: nat)
    requires IsRun(worlds, issues) && i < |worlds|
    ensures Inv(worlds[i])
  {
    RunIsSound(worlds, issues, i);
    assert Inv(worlds[i]);
  }

  // ---- lockstep: exactly the runs that never verify an assigned vessel ----

  /** The step is not a committed verification of a vessel that already left its berth. */
  ghost predicate NoReverification(w: World, e: Issue) {
    e.command.CheckVessel? && VerifyVessel(w, e.actor, e.command.vesselId, e.now).Commit? ==>
      e.command.vesselId in w.vessels && w.vessels[e.command.vesselId].state == Berthed
  }

  ghost predicate NeverReverifies(worlds: seq<World>, issues: seq<Issue>)
    requires |worlds| > |issues|
  {
    forall i {:trigger NoReverification(worlds[i], issues[i])} | 0 <= i < |issues| ::
      NoReverification(worlds[i], issues[i])
  }

  lemma VoyageStepKeepsLockstep(w: World, e: Issue)
    requires Inv(w) && InLockstep(w) && Admissible(w, e) && MovesVoyages(e.command)
    ensures InLockstep(Perform(w, e))
  {
    match e.command
    case PlanVoyage(input, y, job) =>
      if Plan(w, e.actor, input, e.now, y, job).Commit? { PlanKeepsInv(w, e.actor, input, e.now, y, job); }
    case AdvanceVoyage(y, target) =>
      if Advance(w, e.actor, y, target, e.now).Commit? { AdvanceKeepsInv(w, e.actor, y, target, e.now); }
    case CancelVoyage(y) => if Cancel(w, e.actor, y, e.now).Commit? { CancelKeepsInv(w, e.actor, y, e.now); }
  }

  lemma RegisterStepKeepsLockstep(w: World, e: Issue)
    requires Moored(w.vessels, w.voyages, w.links) && InLockstep(w) && Admissible(w, e) && e.command.AddVessel?
    ensures InLockstep(Perform(w, e))
  {
    var AddVessel(id, vessel) := e.command;
    if RegisterVessel(w, e.actor, id, vessel, e.now).Commit? {
      RegisterCommits(w, e.actor, id, vessel, e.now);
      RegisterKeepsMoored(w, id, RegisterVessel(w, e.actor, id, vessel, e.now).value);
    }
  }

  lemma VerifyStepKeepsLockstepIff(w: World, e: Issue)
    requires InLockstep(w) && e.command.CheckVessel?
    ensures InLockstep(Perform(w, e)) <==> NoReverification(w, e)
  {
    var CheckVessel(id) := e.command;
    if VerifyVessel(w, e.actor, id, e.now).Commit? {
      VerifyCommits(w, e.actor, id, e.now);
      VerifyKeepsLockstepIff(w, e.actor, id, e.now);
    }
  }

  lemma ReviewStepKeepsLockstep(w: World, e: Issue)
    requires Inv(w) && InLockstep(w) && Admissible(w, e) && (e.command.SubmitDeclaration? || e.command.DecideAnomaly?)
    ensures InLockstep(Perform(w, e))
  {
    match e.command
    case SubmitDeclaration(d, id, a, job) =>
      if Submit(w, e.actor, Received(d, e.now), e.now, id, a, job).Commit? {
        SubmitKeepsLockstep(w, e.actor, Received(d, e.now), e.now, id, a, job);
      }
    case DecideAnomaly(a, decision, rationale, k) =>
      if Decide(w, e.actor, a, decision, rationale, e.now, k).Commit? {
        DecideKeepsInv(w, e.actor, a, decision, rationale, e.now, k);
      }
  }

  lemma QuietStepKeepsLockstep(w: World, e: Issue)
    requires InLockstep(w) && !MovesVessels(e.command) && !MovesVoyages(e.command)
    ensures InLockstep(Perform(w, e))
  {
    Spares(w, e);
  }

  lemma CommandKeepsLockstepIff(w: World, e: Issue)
    requires Inv(w) && InLockstep(w) && Admissible(w, e)
    ensures InLockstep(Perform(w, e)) <==> NoReverification(w, e)
  {
    var c := e.command;
    if MovesVoyages(c) { VoyageStepKeepsLockstep(w, e); }
    else if !MovesVessels(c) { QuietStepKeepsLockstep(w, e); }
    else if c.AddVessel? { RegisterStepKeepsLockstep(w, e); }
    else if c.CheckVessel? { VerifyStepKeepsLockstepIff(w, e); }
    else { ReviewStepKeepsLockstep(w, e); }
  }

  lemma StepKeepsLockstepIff(w: World, e: Issue, n: World)
    requires Sound(w) && InLockstep(w) && Step(w, e, n)
    ensures InLockstep(n) <==> NoReverification(w, e)
  {
    StepOpens(w, e, n);
    assert Inv(w);
    CommandKeepsLockstepIff(w, e);
  }

  /** A run stays in strict lockstep throughout exactly when it never verifies a vessel a
      second time: the vessel table lets an assigned vessel go back to sea_ready, and
      verification does not ask whether the vessel is berthed. */
  lemma {:induction false} LockstepIff(worlds: seq<World>, issues: seq<Issue>)
    requires IsRun(worlds, issues)
    ensures (forall i | 0 <= i < |worlds| :: InLockstep(worlds[i])) <==>
            NeverReverifies(worlds, issues)
  {
    if forall i | 0 <= i < |worlds| :: InLockstep(worlds[i]) {
      forall i {:trigger NoReverification(worlds[i], issues[i])} | 0 <= i < |issues|
        ensures NoReverification(worlds[i], issues[i])
      {
        RunIsSound(worlds, issues, i);
        StepInRun(worlds, issues, i);
        StepKeepsLockstepIff(worlds[i], issues[i], worlds[i + 1]);
      }
    }
    if NeverReverifies(worlds, issues) {
      forall i | 0 <= i < |worlds| ensures InLockstep(worlds[i]) { StaysInLockstep(worlds, issues, i); }
    }
  }

  lemma StepInRun(worlds: seq<World>, issues: seq<Issue>, i: nat)
    requires IsRun(worlds, issues) && i < |issues|
    ensures Step(worlds[i], issues[i], worlds[i + 1])
  {
    assert StepAt(worlds, issues, i);
  }

  lemma EmptyInLockstep(w: World)
    requires IsEmpty(w)
    ensures InLockstep(w)
  {
  }

  lemma {:induction false} StaysInLockstep(worlds: seq<World>, issues: seq<Issue>, i: nat)
    requires IsRun(worlds, issues) && i < |worlds|
    requires NeverReverifies(worlds, issues)
    ensures InLockstep(worlds[i])
  {
    if i == 0 {
      EmptyInLockstep(worlds[0]);
    } else {
      StaysInLockstep(worlds, issues, i - 1);
      LockstepStaysAt(worlds, issues, i - 1);
    }
  }

  lemma LockstepStaysAt(worlds: seq<World>, issues: seq<Issue>, i: nat)
    requires IsRun(worlds, issues) && i < |issues|
    requires NeverReverifies(worlds, issues) && InLockstep(worlds[i])
    ensures InLockstep(worlds[i + 1])
  {
    RunIsSound(worlds, issues, i);
    StepInRun(worlds, issues, i);
    assert NoReverification(worlds[i], issues[i]);
    LockstepStays(worlds[i], issues[i], worlds[i + 1]);
  }

  lemma LockstepStays(w: World, e: Issue, n: World)
    requires Sound(w) && InLockstep(w) && Step(w, e, n) && NoReverification(w, e)
    ensures InLockstep(n)
  {
    StepKeepsLockstepIff(w, e, n);
  }
}
