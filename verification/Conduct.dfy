/** Every step of every run is lawful: a command commits exactly when its demands on the columns are met,
    and then changes exactly the rows it is there to change. */
module Conduct {
  import opened Basics
  import opened Domain
  import opened Commands
  import opened Invariants
  import opened Selection
  import opened Planning
  import opened Quarantine
  import opened Runs
  import opened Replays
  import opened Answers
  import opened Deeds

  // ---- what the law asks of a step ----

  ghost predicate LawfulPlan(w: World, n: World, p: Principal, input: PlanInput, now: int, y: Id, job: Id,
                             crew: Option<Error>) {
    FirstVessel(w, input, 0, now, crew)
    && if PlanVerdict(w, p, input, now, y, job, crew).Some?
      || (input.key in w.keys && w.keys[input.key].expiresAt > now)
       then n == w
       else exists answer :: PlanDone(w, n, input, now, y, job, answer)
  }

  ghost predicate LawfulMove(w: World, n: World, p: Principal, y: Id, target: VoyageState, now: int,
                             crew: Option<Error>) {
    FirstCarried(w, y, target, now, crew)
    && if AdvanceVerdict(w, p, y, target, now, crew).Some? then n == w
       else VesselsMoved(w, n, y, target, now) && exists answer :: MoveDone(w, n, y, target, now, answer)
  }

  ghost predicate LawfulCancel(w: World, n: World, p: Principal, y: Id, now: int, crew: Option<Error>) {
    FirstReleased(w, y, now, crew)
    && if CancelVerdict(w, p, y, crew).Some? then n == w
       else VesselsReleased(w, n, y, now) && exists answer :: MoveDone(w, n, y, Cancelled, now, answer)
  }

  ghost predicate LawfulSubmit(w: World, n: World, p: Principal, d: CatchDeclaration, now: int, id: Id, a: Id,
                               job: Id) {
    if SubmitVerdict(w, p, d, id, a, job).Some? then n == w
    else if OutOfEnvelope(d, w.voyages, w.permits) then exists b, row :: FlagDone(w, n, d, now, id, a, job, b, row)
    else n == w.(declarations := w.declarations[id := d])
  }

  ghost predicate LawfulReview(w: World, n: World, p: Principal, a: Id, now: int) {
    if ReviewVerdict(w, p, a).Some? then n == w
    else a in w.anomalies
         && n == w.(anomalies := w.anomalies[a :=
                      w.anomalies[a].(status := Reviewing, updatedAt := now, version := w.anomalies[a].version + 1)])
  }

  ghost predicate LawfulDecision(w: World, n: World, p: Principal, a: Id, decision: AnomalyStatus, rationale: string,
                                 now: int, k: Id)
  {
    if DecideVerdict(w, p, a, decision, rationale, k).Some? then n == w
    else a in w.anomalies && VesselsJudged(w, n, w.anomalies[a].voyageId, a, decision, rationale, now)
         && n == w.(vessels := n.vessels,
                    anomalies := w.anomalies[a :=
                      w.anomalies[a].(status := decision, updatedAt := now, version := w.anomalies[a].version + 1)],
                    dispositions := w.dispositions[k :=
                      AnomalyDisposition(a, p.userId, decision, TrimSpace(rationale), now)])
  }

  ghost predicate LawfulTask(w: World, n: World, p: Principal, input: TaskInput, ttl: int, now: int, id: Id) {
    if TaskVerdict(w, p, input, ttl, now, id).Some? then n == w
    else n == w.(tasks := w.tasks[id := CatchLandingTask(
                   input.voyageId, TrimSpace(if Blank(input.coordinatorId) then p.userId else input.coordinatorId),
                   TrimSpace(input.officerId), TrimSpace(input.station), TaskStatus.Pending, now + ttl, None, "", 1,
                     now)])
  }

  ghost predicate LawfulAnswer(w: World, n: World, p: Principal, t: Id, accepted: bool, note: string, now: int) {
    if ResolveVerdict(w, p, t, now).Some? then n == w
    else t in w.tasks
         && n == w.(tasks := w.tasks[t :=
                      w.tasks[t].(status := if accepted then Approved else TaskStatus.Denied, note := TrimSpace(note),
                                  resolvedAt := Some(now), updatedAt := now, version := w.tasks[t].version + 1)])
  }

  ghost predicate LawfulChange(w: World, n: World, p: Principal, f: Id, change: FleetChange, now: int) {
    if ChangeVerdict(w, p, f, change).Some? then n == w
    else f in w.fleets
         && var row := w.fleets[f].(updatedAt := now, version := w.fleets[f].version + 1);
            n == w.(fleets := w.fleets[f :=
                      match change
                      case StartMaintenance => row.(state := Maintenance)
                      case CompleteMaintenance => row.(state := Standby, inspectedAt := now)
                      case Retire(_) => row.(state := FleetState.Retired, voyageId := "")])
  }

  ghost predicate LawfulCatalog(w: World, n: World, p: Principal, c: Command, now: int)
    requires c.AddPermit? || c.OpenPermit? || c.AddPort? || c.AddFleet? || c.AddVessel? || c.CheckVessel?
  {
    match c
    case AddPermit(id, permit) =>
      if PermitVerdict(w, p, id, permit).Some? then n == w
      else n == w.(permits := w.permits[id := permit.(code := NormalizeCode(permit.code), status := Draft,
        version := 1)])
    case OpenPermit(id) =>
      if ActivateVerdict(w, p, id).Some? then n == w
      else id in w.permits
           && n == w.(permits := w.permits[id :=
                        w.permits[id].(status := PermitStatus.Active, version := w.permits[id].version + 1)])
    case AddPort(id, port) =>
      if PortVerdict(w, p, id, port).Some? then n == w
      else n == w.(ports := w.ports[id := port.(code := NormalizeCode(port.code), active := true, version := 1)])
    case AddFleet(id, fleet) =>
      if FleetVerdict(w, p, id, fleet).Some? then n == w
      else n == w.(fleets := w.fleets[id :=
                     fleet.(code := NormalizeCode(fleet.code), state := Standby, version := 1, updatedAt := now)])
    case AddVessel(id, v) =>
      if RegisterVerdict(w, p, id, v).Some? then n == w
      else n == w.(vessels := w.vessels[id := v.(state := Berthed, version := 1, updatedAt := now)])
    case CheckVessel(id) =>
      if VerifyVerdict(w, p, id, now).Some? then n == w
      else id in w.vessels
           && n == w.(vessels := w.vessels[id :=
                        w.vessels[id].(state := SeaReady, updatedAt := now, version := w.vessels[id].version + 1)])
  }

  predicate TasksSwept(w: World, n: World, sweep: set<Id>, now: int) {
    && n.tasks.Keys == w.tasks.Keys
    && forall t | t in w.tasks ::
         n.tasks[t] == if t in sweep
                       then w.tasks[t].(status := TaskStatus.Expired, resolvedAt := Some(now), updatedAt := now,
                                        note := "catch_landing_task expired before acceptance",
                                        version := w.tasks[t].version + 1)
                       else w.tasks[t]
  }

  ghost predicate JobsRun(w: World, n: World, claim: set<Id>, now: int) {
    && n.jobs.Keys == w.jobs.Keys
    && forall j | j in w.jobs :: if j in claim then Attempted(w.jobs[j], n.jobs[j], now) else n.jobs[j] == w.jobs[j]
  }

  function DueTasks(tasks: map<Id, CatchLandingTask>, now: int): set<Id> {
    set t | t in tasks && tasks[t].status == TaskStatus.Pending && tasks[t].expiresAt < now
  }

  function Expiries(tasks: map<Id, CatchLandingTask>): map<Id, int> { map t | t in tasks :: tasks[t].expiresAt }

  function DueJobs(jobs: map<Id, OutboxJob>, now: int): set<Id> {
    set j | j in jobs && (jobs[j].status == JobStatus.Pending || jobs[j].status == Failed) && jobs[j].availableAt <= now
  }

  function Ages(jobs: map<Id, OutboxJob>): map<Id, int> { map j | j in jobs :: jobs[j].createdAt }

  /** A pass expires the earliest overdue tasks and runs the oldest jobs that wait, pending or failed. */
  ghost predicate LawfulPass(w: World, n: World, batch: nat, sweep: set<Id>, claim: set<Id>, now: int) {
    && n == w.(tasks := n.tasks, jobs := n.jobs) && TasksSwept(w, n, sweep, now) && JobsRun(w, n, claim, now)
    && FirstByTime(sweep, batch, DueTasks(w.tasks, now), Expiries(w.tasks))
    && FirstByTime(claim, batch, DueJobs(w.jobs, now), Ages(w.jobs))
  }

  /** As many of the due rows as the batch allows, none later than one left behind. */
  ghost predicate FirstByTime(chosen: set<Id>, batch: nat, due: set<Id>, times: map<Id, int>) {
    && chosen <= due && due <= times.Keys && |chosen| == (if |due| < batch then |due| else batch)
    && forall a, b | a in chosen && b in due && b !in chosen :: times[a] <= times[b]
  }

  /** One more attempt: a delivered job succeeds, another waits for the square of its attempts in seconds, or
      is dead at its last. */
  ghost predicate Attempted(job: OutboxJob, after: OutboxJob, now: int) {
    var k := job.attempts + 1;
    && after == job.(status := after.status, attempts := k, availableAt := after.availableAt, lockedAt := None,
                     claimedAt := job.claimedAt + [now])
    && (if Deliverable(job.kind, job.payload) then after.status == Succeeded && after.availableAt == job.availableAt
        else after.availableAt == now + k * k && after.status == if k >= job.maxAttempts then Dead else Failed)
  }

  ghost predicate Lawful(w: World, e: Issue, n: World) {
    match e.command
    case PlanVoyage(input, y, job) => exists crew :: LawfulPlan(w, n, e.actor, input, e.now, y, job, crew)
    case AdvanceVoyage(y, target) => exists crew :: LawfulMove(w, n, e.actor, y, target, e.now, crew)
    case CancelVoyage(y) => exists crew :: LawfulCancel(w, n, e.actor, y, e.now, crew)
    case SubmitDeclaration(d, id, a, job) => LawfulSubmit(w, n, e.actor, d.(receivedAt := e.now), e.now, id, a, job)
    case BeginReview(a) => LawfulReview(w, n, e.actor, a, e.now)
    case DecideAnomaly(a, decision, rationale, k) => LawfulDecision(w, n, e.actor, a, decision, rationale, e.now, k)
    case OpenTask(task, ttl, id) => LawfulTask(w, n, e.actor, task, ttl, e.now, id)
    case SettleTask(t, accepted, note) => LawfulAnswer(w, n, e.actor, t, accepted, note, e.now)
    case AlterFleet(f, change) => LawfulChange(w, n, e.actor, f, change, e.now)
    case Work(batch, sweep, claim) => LawfulPass(w, n, batch, sweep, claim, e.now)
    case _ => LawfulCatalog(w, n, e.actor, e.command, e.now)
  }

  // ---- command by command ----

  lemma PlanIsLawful(w: World, p: Principal, input: PlanInput, now: int, y: Id, job: Id)
    ensures LawfulPlan(w, Plan(w, p, input, now, y, job).After(w), p, input, now, y, job,
            VesselObjection(w, input, 0, now))
  {
    var o := Plan(w, p, input, now, y, job);
    PlanAnswers(w, p, input, now, y, job);
    if o.Commit? { PlanDoes(w, p, input, now, y, job); }
  }

  lemma MoveIsLawful(w: World, p: Principal, y: Id, target: VoyageState, now: int)
    requires target in {VoyageState.Cleared, Departed, VoyageState.Landed, Closed}
    ensures LawfulMove(w, Advance(w, p, y, target, now).After(w), p, y, target, now, CarryRefusal(w, y, target, now))
  {
    var o := Advance(w, p, y, target, now);
    AdvanceAnswers(w, p, y, target, now);
    if o.Commit? { AdvanceDoes(w, p, y, target, now); }
  }

  lemma CancelIsLawful(w: World, p: Principal, y: Id, now: int)
    ensures LawfulCancel(w, Cancel(w, p, y, now).After(w), p, y, now, ReleaseRefusal(w, y, now))
  {
    var o := Cancel(w, p, y, now);
    CancelAnswers(w, p, y, now);
    if o.Commit? { CancelDoes(w, p, y, now); }
  }

  lemma SubmitIsLawful(w: World, p: Principal, d: CatchDeclaration, now: int, id: Id, a: Id, job: Id)
    ensures LawfulSubmit(w, Submit(w, p, d, now, id, a, job).After(w), p, d, now, id, a, job)
  {
    var o := Submit(w, p, d, now, id, a, job);
    SubmitAnswers(w, p, d, now, id, a, job);
    if o.Commit? { SubmitDoes(w, p, d, now, id, a, job); }
  }

  lemma ReviewIsLawful(w: World, p: Principal, a: Id, now: int)
    ensures LawfulReview(w, StartReview(w, p, a, now).After(w), p, a, now)
  {
    ReviewAnswers(w, p, a, now);
    if StartReview(w, p, a, now).Commit? { ReviewDoes(w, p, a, now); }
  }

  lemma DecisionIsLawful(w: World, p: Principal, a: Id, decision: AnomalyStatus, rationale: string, now: int, k: Id)
    ensures LawfulDecision(w, Decide(w, p, a, decision, rationale, now, k).After(w), p, a, decision, rationale, now, k)
  {
    DecideAnswers(w, p, a, decision, rationale, now, k);
    if Decide(w, p, a, decision, rationale, now, k).Commit? { DecideDoes(w, p, a, decision, rationale, now, k); }
  }

  lemma TaskIsLawful(w: World, p: Principal, input: TaskInput, ttl: int, now: int, id: Id)
    ensures LawfulTask(w, CreateTask(w, p, input, ttl, now, id).After(w), p, input, ttl, now, id)
  {
    TaskAnswers(w, p, input, ttl, now, id);
    if CreateTask(w, p, input, ttl, now, id).Commit? { TaskDoes(w, p, input, ttl, now, id); }
  }

  lemma AnswerIsLawful(w: World, p: Principal, t: Id, accepted: bool, note: string, now: int)
    ensures LawfulAnswer(w, ResolveTask(w, p, t, accepted, note, now).After(w), p, t, accepted, note, now)
  {
    ResolveAnswers(w, p, t, accepted, note, now);
    if ResolveTask(w, p, t, accepted, note, now).Commit? { ResolveDoes(w, p, t, accepted, note, now); }
  }

  lemma ChangeIsLawful(w: World, p: Principal, f: Id, change: FleetChange, now: int)
    ensures LawfulChange(w, ChangeFleet(w, p, f, change, now).After(w), p, f, change, now)
  {
    ChangeAnswers(w, p, f, change, now);
    if ChangeFleet(w, p, f, change, now).Commit? { ChangeDoes(w, p, f, change, now); }
  }

  lemma CatalogIsLawful(w: World, e: Issue)
    requires var c := e.command;
             c.AddPermit? || c.OpenPermit? || c.AddPort? || c.AddFleet? || c.AddVessel? || c.CheckVessel?
    ensures LawfulCatalog(w, Perform(w, e), e.actor, e.command, e.now)
  {
    var p, now := e.actor, e.now;
    match e.command
    case AddPermit(id, permit) =>
      PermitAnswers(w, p, id, permit);
      if CreatePermit(w, p, id, permit).Commit? { PermitDoes(w, p, id, permit); }
    case OpenPermit(id) =>
      ActivateAnswers(w, p, id);
      if ActivatePermit(w, p, id).Commit? { ActivateDoes(w, p, id); }
    case AddPort(id, port) =>
      PortAnswers(w, p, id, port);
      if CreatePort(w, p, id, port).Commit? { PortDoes(w, p, id, port); }
    case AddFleet(id, fleet) =>
      FleetAnswers(w, p, id, fleet, now);
      if CreateFleet(w, p, id, fleet, now).Commit? { FleetDoes(w, p, id, fleet, now); }
    case AddVessel(id, v) =>
      RegisterAnswers(w, p, id, v, now);
      if RegisterVessel(w, p, id, v, now).Commit? { RegisterDoes(w, p, id, v, now); }
    case CheckVessel(id) =>
      VerifyAnswers(w, p, id, now);
      if VerifyVessel(w, p, id, now).Commit? { VerifyDoes(w, p, id, now); }
  }

  lemma AttemptIsLawful(job: OutboxJob, now: int)
    ensures Attempted(job, Processed(job, now), now)
  {
  }

  lemma EarliestIsFirst(keys: map<Id, int>, batch: nat, chosen: set<Id>, due: set<Id>, times: map<Id, int>)
    requires IsEarliest(keys, batch, chosen) && keys.Keys == due <= times.Keys
    requires forall k | k in due :: keys[k] == times[k]
    ensures FirstByTime(chosen, batch, due, times)
  {
    assert |keys| == |keys.Keys|;
  }

  lemma SweepIsFirst(tasks: map<Id, CatchLandingTask>, batch: nat, sweep: set<Id>, now: int)
    requires IsEarliest(Overdue(tasks, now), batch, sweep)
    ensures FirstByTime(sweep, batch, DueTasks(tasks, now), Expiries(tasks))
  {
    assert Overdue(tasks, now).Keys == DueTasks(tasks, now);
    EarliestIsFirst(Overdue(tasks, now), batch, sweep, DueTasks(tasks, now), Expiries(tasks));
  }

  lemma ClaimIsFirst(jobs: map<Id, OutboxJob>, batch: nat, claim: set<Id>, now: int)
    requires IsEarliest(Ready(jobs, now), batch, claim)
    ensures FirstByTime(claim, batch, DueJobs(jobs, now), Ages(jobs))
  {
    assert Ready(jobs, now).Keys == DueJobs(jobs, now);
    EarliestIsFirst(Ready(jobs, now), batch, claim, DueJobs(jobs, now), Ages(jobs));
  }

  lemma PassRows(w: World, sweep: set<Id>, claim: set<Id>, now: int)
    ensures var n := WorkerPass(w, sweep, claim, now);
            TasksSwept(w, n, sweep, now) && JobsRun(w, n, claim, now) && n == w.(tasks := n.tasks, jobs := n.jobs)
  {
    forall j | j in w.jobs && j in claim ensures Attempted(w.jobs[j], Processed(w.jobs[j], now), now) {
      AttemptIsLawful(w.jobs[j], now);
    }
  }

  lemma PassIsLawful(w: World, batch: nat, sweep: set<Id>, claim: set<Id>, now: int)
    requires IsEarliest(Overdue(w.tasks, now), batch, sweep) && IsEarliest(Ready(w.jobs, now), batch, claim)
    ensures LawfulPass(w, WorkerPass(w, sweep, claim, now), batch, sweep, claim, now)
  {
    SweepIsFirst(w.tasks, batch, sweep, now);
    ClaimIsFirst(w.jobs, batch, claim, now);
    PassRows(w, sweep, claim, now);
  }

  lemma VoyageIsLawful(w: World, e: Issue)
    requires Admissible(w, e) && MovesVoyages(e.command)
    ensures Lawful(w, e, Perform(w, e))
  {
    match e.command
    case PlanVoyage(input, y, job) => PlanIsLawful(w, e.actor, input, e.now, y, job);
    case AdvanceVoyage(y, target) => MoveIsLawful(w, e.actor, y, target, e.now);
    case CancelVoyage(y) => CancelIsLawful(w, e.actor, y, e.now);
  }

  lemma AnomalyIsLawful(w: World, e: Issue)
    requires MovesAnomalies(e.command)
    ensures Lawful(w, e, Perform(w, e))
  {
    match e.command
    case SubmitDeclaration(d, id, a, job) => SubmitIsLawful(w, e.actor, Received(d, e.now), e.now, id, a, job);
    case BeginReview(a) => ReviewIsLawful(w, e.actor, a, e.now);
    case DecideAnomaly(a, decision, rationale, k) => DecisionIsLawful(w, e.actor, a, decision, rationale, e.now, k);
  }

  lemma CommandIsLawful(w: World, e: Issue)
    requires Admissible(w, e)
    ensures Lawful(w, e, Perform(w, e))
  {
    if MovesVoyages(e.command) { VoyageIsLawful(w, e); }
    else if MovesAnomalies(e.command) { AnomalyIsLawful(w, e); }
    else {
      match e.command
      case OpenTask(task, ttl, id) => TaskIsLawful(w, e.actor, task, ttl, e.now, id);
      case SettleTask(t, accepted, note) => AnswerIsLawful(w, e.actor, t, accepted, note, e.now);
      case AlterFleet(f, change) => ChangeIsLawful(w, e.actor, f, change, e.now);
      case Work(batch, sweep, claim) => PassIsLawful(w, batch, sweep, claim, e.now);
      case _ => CatalogIsLawful(w, e);
    }
  }

  // ---- over every run ----

  /** No run ever takes an unlawful step. */
  lemma EveryStepIsLawful(worlds: seq<World>, issues: seq<Issue>, i: nat)
    requires IsRun(worlds, issues) && i < |issues|
    ensures Lawful(worlds[i], issues[i], worlds[i + 1])
  {
    StepInRun(worlds, issues, i);
    StepOpens(worlds[i], issues[i], worlds[i + 1]);
    CommandIsLawful(worlds[i], issues[i]);
  }

  /** A plan carried out has an escort whose certificate outlasts the opening and that was inspected by then,
      and opens at most a quarter of an hour ago. */
  lemma EscortIsCertified(worlds: seq<World>, issues: seq<Issue>, i: nat)
    requires IsRun(worlds, issues) && i < |issues| && PlansAfresh(worlds[i], issues[i])
    ensures var w, input := worlds[i], issues[i].command.input;
            && input.fleetId in w.fleets && w.fleets[input.fleetId].state == Standby
            && w.fleets[input.fleetId].inspectedAt <= input.opensAt < w.fleets[input.fleetId].certifiedUntil
            && issues[i].now - 900 <= input.opensAt
  {
    var e := issues[i];
    PlanCommits(worlds[i], e.actor, e.command.input, e.now, e.command.voyageId, e.command.jobId);
  }

  /** After a committed decision every vessel of the voyage that was quarantined is released with an empty
      note, or retired with the reasons given, and every other vessel row is as it was. */
  lemma DecisionOnRows(worlds: seq<World>, issues: seq<Issue>, i: nat, x: Id)
    requires IsRun(worlds, issues) && i < |issues| && issues[i].command.DecideAnomaly? && x in worlds[i].vessels
    requires var c, e := issues[i].command, issues[i];
             Decide(worlds[i], e.actor, c.anomalyId, c.decision, c.rationale, e.now, c.dispositionId).Commit?
    ensures var w, n, c := worlds[i], worlds[i + 1], issues[i].command; var v := w.vessels[x];
            && c.anomalyId in w.anomalies && x in n.vessels
            && n.vessels[x] ==
               if v.state != Quarantined || !OnBoard(w, w.anomalies[c.anomalyId].voyageId, x) then v
               else if c.decision == AnomalyStatus.Cleared then
                 v.(state := Reinspected, note := "", updatedAt := issues[i].now, version := v.version + 1)
               else v.(state := VesselState.Retired, note := TrimSpace(c.rationale), updatedAt := issues[i].now,
                       version := v.version + 1)
  {
    var w, c, e := worlds[i], issues[i].command, issues[i];
    RunIsSound(worlds, issues, i);
    StepInRun(worlds, issues, i);
    StepOpens(w, e, worlds[i + 1]);
    DecideDoes(w, e.actor, c.anomalyId, c.decision, c.rationale, e.now, c.dispositionId);
    DecideCommits(w, e.actor, c.anomalyId, c.decision, c.rationale, e.now, c.dispositionId);
    JudgedRow(w, worlds[i + 1], c.anomalyId, c.decision, c.rationale, e.now, x);
  }

  lemma JudgedRow(w: World, n: World, a: Id, decision: AnomalyStatus, rationale: string, now: int, x: Id)
    requires Sound(w) && a in w.anomalies && w.anomalies[a].IsActive() && x in w.vessels
    requires VesselsJudged(w, n, w.anomalies[a].voyageId, a, decision, rationale, now)
    ensures var v := w.vessels[x];
            x in n.vessels
            && n.vessels[x] ==
               if v.state != Quarantined || !OnBoard(w, w.anomalies[a].voyageId, x) then v
               else if decision == AnomalyStatus.Cleared then
                 v.(state := Reinspected, note := "", updatedAt := now, version := v.version + 1)
               else v.(state := VesselState.Retired, note := TrimSpace(rationale), updatedAt := now,
                 version := v.version + 1)
  {
    SoundNotes(w);
    if w.vessels[x].state == Quarantined && OnBoard(w, w.anomalies[a].voyageId, x) {
      NotesTheOneActive(w.vessels, w.voyages, w.links, w.anomalies, a, x);
    }
  }

  lemma SoundNotes(w: World)
    requires Sound(w)
    ensures AnomaliesFit(w.anomalies, w.voyages) && Quarantines(w.vessels, w.links, w.anomalies)
  {
    assert Inv(w);
  }
}
