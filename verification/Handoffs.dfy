/** Catch landing tasks over whole runs: deadlines, finality, and what a sweep resolves. */
module Handoffs {
  import opened Basics
  import opened Domain
  import opened Commands
  import opened Invariants
  import opened Selection
  import opened Frames
  import opened Runs

  /** Only pending tasks change, and none changes voyage. */
  predicate OnlyPendingMove(tasks: map<Id, CatchLandingTask>, tasks': map<Id, CatchLandingTask>) {
    tasks'.Keys == tasks.Keys
    && forall t | t in tasks ::
         tasks'[t] == tasks[t] || (tasks[t].status == TaskStatus.Pending && tasks'[t].voyageId == tasks[t].voyageId)
  }

  predicate SettledStay(tasks: map<Id, CatchLandingTask>, tasks': map<Id, CatchLandingTask>) {
    forall t | t in tasks && tasks[t].status != TaskStatus.Pending :: t in tasks' && tasks'[t] == tasks[t]
  }

  lemma ResolveMovesPending(w: World, p: Principal, id: Id, accepted: bool, note: string, now: int)
    ensures OnlyPendingMove(w.tasks, ResolveTask(w, p, id, accepted, note, now).After(w).tasks)
  {
    if ResolveTask(w, p, id, accepted, note, now).Commit? { ResolveTaskCommits(w, p, id, accepted, note, now); }
  }

  lemma SweepMovesPending(tasks: map<Id, CatchLandingTask>, sweep: set<Id>, now: int)
    requires sweep <= Overdue(tasks, now).Keys
    ensures OnlyPendingMove(tasks, SweptTasks(tasks, sweep, now))
  {
  }

  lemma CreateKeepsSettled(w: World, p: Principal, task: TaskInput, ttl: int, now: int, id: Id)
    ensures SettledStay(w.tasks, CreateTask(w, p, task, ttl, now, id).After(w).tasks)
  {
  }

  lemma PendingMovesKeepSettled(tasks: map<Id, CatchLandingTask>, tasks': map<Id, CatchLandingTask>)
    requires OnlyPendingMove(tasks, tasks')
    ensures SettledStay(tasks, tasks')
  {
  }

  lemma TaskCommandKeepsSettled(w: World, e: Issue)
    requires Admissible(w, e) && MovesTasks(e.command)
    ensures SettledStay(w.tasks, Perform(w, e).tasks)
  {
    match e.command
    case OpenTask(task, ttl, id) => CreateKeepsSettled(w, e.actor, task, ttl, e.now, id);
    case SettleTask(id, accepted, note) =>
      ResolveMovesPending(w, e.actor, id, accepted, note, e.now);
      PendingMovesKeepSettled(w.tasks, ResolveTask(w, e.actor, id, accepted, note, e.now).After(w).tasks);
    case Work(batch, sweep, claim) =>
      SweepMovesPending(w.tasks, sweep, e.now);
      PendingMovesKeepSettled(w.tasks, SweptTasks(w.tasks, sweep, e.now));
  }

  lemma StepKeepsSettled(w: World, e: Issue, n: World)
    requires Step(w, e, n)
    ensures SettledStay(w.tasks, n.tasks)
  {
    StepOpens(w, e, n);
    if MovesTasks(e.command) { TaskCommandKeepsSettled(w, e); } else { Spares(w, e); }
  }

  lemma StepAtKeepsSettled(worlds: seq<World>, issues: seq<Issue>, i: nat)
    requires IsRun(worlds, issues) && i < |issues|
    ensures SettledStay(worlds[i].tasks, worlds[i + 1].tasks)
  {
    StepInRun(worlds, issues, i);
    StepKeepsSettled(worlds[i], issues[i], worlds[i + 1]);
  }

  /** A task that has been answered or has expired never changes again. */
  lemma {:induction false} SettledTasksNeverChange(worlds: seq<World>, issues: seq<Issue>, i: nat, j: nat, t: Id)
    requires IsRun(worlds, issues) && i <= j < |worlds| && t in worlds[i].tasks
             && worlds[i].tasks[t].status != TaskStatus.Pending
    ensures t in worlds[j].tasks && worlds[j].tasks[t] == worlds[i].tasks[t]
  {
    if i < j {
      SettledTasksNeverChange(worlds, issues, i, j - 1, t);
      StepAtKeepsSettled(worlds, issues, j - 1);
    }
  }

  /** Answers come by the deadline and expiries after it, and a voyage has one pending task at most. */
  lemma TasksMeetDeadlines(worlds: seq<World>, issues: seq<Issue>, i: nat, t: Id, y: Id)
    requires IsRun(worlds, issues) && i < |worlds|
    ensures t in worlds[i].tasks ==> InTime(worlds[i].tasks[t])
    ensures |PendingTasks(worlds[i].tasks, y)| <= 1
  {
    RunKeepsInv(worlds, issues, i);
    TasksInTime(worlds[i].tasks, worlds[i].voyages, t);
    OnePending(worlds[i].tasks, worlds[i].voyages, y);
  }

  predicate InTime(task: CatchLandingTask) {
    && (task.resolvedAt.None? <==> task.status == TaskStatus.Pending)
    && (task.status in {Approved, TaskStatus.Denied} ==> task.resolvedAt.value <= task.expiresAt)
    && (task.status == TaskStatus.Expired ==> task.resolvedAt.value > task.expiresAt)
  }

  lemma TasksInTime(tasks: map<Id, CatchLandingTask>, voyages: Voyages, t: Id)
    requires TasksFit(tasks, voyages)
    ensures t in tasks ==> InTime(tasks[t])
  {
  }

  lemma OnePending(tasks: map<Id, CatchLandingTask>, voyages: Voyages, y: Id)
    requires TasksFit(tasks, voyages)
    ensures |PendingTasks(tasks, y)| <= 1
  {
    var pending := PendingTasks(tasks, y);
    if pending != {} {
      var t :| t in pending;
      assert pending == {t};
    }
  }

  /** A sweep with batch b over n overdue tasks expires exactly min(b, n) of them, none of which
      was due later than one it leaves behind, and changes no other task. */
  lemma SweepIsExact(w: World, batch: nat, sweep: set<Id>, claim: set<Id>, now: int)
    requires IsEarliest(Overdue(w.tasks, now), batch, sweep)
    ensures var n := WorkerPass(w, sweep, claim, now);
            var expired := set t | t in w.tasks && w.tasks[t].status == TaskStatus.Pending
              && n.tasks[t].status == TaskStatus.Expired;
            && |expired| == Min(batch, |Overdue(w.tasks, now)|)
            && (forall t | t in expired :: w.tasks[t].expiresAt < now && n.tasks[t].resolvedAt == Some(now))
            && (forall t | t in w.tasks && t !in expired :: n.tasks[t] == w.tasks[t])
            && (forall s, t | s in expired
              && t in Overdue(n.tasks, now) :: w.tasks[s].expiresAt <= n.tasks[t].expiresAt)
  {
    var n := WorkerPass(w, sweep, claim, now);
    var expired := set t | t in w.tasks && w.tasks[t].status == TaskStatus.Pending
      && n.tasks[t].status == TaskStatus.Expired;
    assert forall t | t in sweep :: t in Overdue(w.tasks, now);
    assert expired == sweep;
    forall s, t | s in expired && t in Overdue(n.tasks, now) ensures w.tasks[s].expiresAt <= n.tasks[t].expiresAt {
      assert t in Overdue(w.tasks, now) && t !in sweep;
    }
  }
}
