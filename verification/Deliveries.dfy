/** Jobs are not only bounded, they are run: a pass takes the oldest waiting jobs, failed ones included,
    and five passes spaced by the backoff settle any job (internal/worker, internal/storage/sqlite/jobs.go). */
module Deliveries {
  import opened Basics
  import opened Domain
  import opened Commands
  import opened Invariants
  import opened Selection
  import opened Runs
  import opened Conduct
  import opened Outbox

  /** Of the n jobs that wait at a pass with batch b, exactly min(b, n) get one more attempt, none of them
      created later than one left behind, and no other job changes. */
  lemma ClaimIsExact(worlds: seq<World>, issues: seq<Issue>, i: nat)
    requires IsRun(worlds, issues) && i < |issues| && issues[i].command.Work?
    ensures var w, n, c, now := worlds[i], worlds[i + 1], issues[i].command, issues[i].now;
            var due := DueJobs(w.jobs, now);
            && c.claim <= due && |c.claim| == Min(c.batch, |due|) && n.jobs.Keys == w.jobs.Keys
            && (forall a, b | a in c.claim && b in due && b !in c.claim :: w.jobs[a].createdAt <= w.jobs[b].createdAt)
            && (forall j | j in c.claim :: Attempted(w.jobs[j], n.jobs[j], now))
            && (forall j | j in w.jobs && j !in c.claim :: n.jobs[j] == w.jobs[j])
  {
    EveryStepIsLawful(worlds, issues, i);
    ClaimsOldest(worlds[i].jobs, issues[i].command.batch, issues[i].command.claim, issues[i].now);
  }

  lemma ClaimsOldest(jobs: Jobs, batch: nat, claim: set<Id>, now: int)
    requires FirstByTime(claim, batch, DueJobs(jobs, now), Ages(jobs))
    ensures claim <= DueJobs(jobs, now) <= jobs.Keys && |claim| == Min(batch, |DueJobs(jobs, now)|)
    ensures forall a, b | a in claim && b in DueJobs(jobs, now) && b !in claim ::
              jobs[a].createdAt <= jobs[b].createdAt
  {
    forall a, b | a in claim && b in DueJobs(jobs, now) && b !in claim ensures jobs[a].createdAt <= jobs[b].createdAt {
      assert Ages(jobs)[a] <= Ages(jobs)[b];
    }
  }

  /** A pass with room for every job that waits. */
  ghost predicate Roomy(w: World, e: Issue) { e.command.Work? && |DueJobs(w.jobs, e.now)| <= e.command.batch }

  predicate Done(job: OutboxJob) { job.status == Succeeded || job.status == Dead }

  ghost predicate RunNow(w: World, n: World, e: Issue, j: Id) {
    j in w.jobs && j in n.jobs && Attempted(w.jobs[j], n.jobs[j], e.now)
  }

  lemma {:induction false} AllOfThem<T>(a: set<T>, b: set<T>)
    requires a <= b && |a| == |b|
    ensures a == b
  {
    if x :| x in b && x !in a {
      SubsetSize(a, b - {x});
    }
  }

  /** Between its claim and its end a job is running, locked at the time of the pass. */
  lemma ClaimedRow(job: OutboxJob, now: int)
    ensures var c := Claimed(job, now);
            && c.status == Running && c.attempts == job.attempts + 1 && c.lockedAt == Some(now)
            && c == job.(status := c.status, attempts := c.attempts, lockedAt := c.lockedAt,
                         claimedAt := job.claimedAt + [now])
  {
  }

  /** A roomy pass runs every job that waits. */
  lemma WaitingJobIsRun(worlds: seq<World>, issues: seq<Issue>, i: nat, j: Id)
    requires IsRun(worlds, issues) && i < |issues| && Roomy(worlds[i], issues[i])
    requires j in DueJobs(worlds[i].jobs, issues[i].now)
    ensures RunNow(worlds[i], worlds[i + 1], issues[i], j)
  {
    ClaimIsExact(worlds, issues, i);
    AllOfThem(issues[i].command.claim, DueJobs(worlds[i].jobs, issues[i].now));
  }

  lemma PlanKeepsRow(w: World, p: Principal, input: PlanInput, now: int, y: Id, job: Id, j: Id)
    requires j in w.jobs
    ensures var n := Plan(w, p, input, now, y, job).After(w); j in n.jobs && n.jobs[j] == w.jobs[j]
  {
  }

  lemma SubmitKeepsRow(w: World, p: Principal, d: CatchDeclaration, now: int, id: Id, a: Id, job: Id, j: Id)
    requires j in w.jobs
    ensures var n := Submit(w, p, d, now, id, a, job).After(w); j in n.jobs && n.jobs[j] == w.jobs[j]
  {
    SubmitJobs(w, p, d, now, id, a, job);
  }

  lemma PassKeepsRow(jobs: Jobs, claim: set<Id>, now: int, j: Id)
    requires j in jobs && j !in claim
    ensures ProcessedJobs(jobs, claim, now)[j] == jobs[j]
  {
  }

  lemma CommandKeepsRow(w: World, e: Issue, j: Id)
    requires Admissible(w, e) && j in w.jobs && (e.command.Work? ==> j !in e.command.claim)
    ensures j in Perform(w, e).jobs && Perform(w, e).jobs[j] == w.jobs[j]
  {
    match e.command
    case PlanVoyage(input, y, job) => PlanKeepsRow(w, e.actor, input, e.now, y, job, j);
    case SubmitDeclaration(d, id, a, job) => SubmitKeepsRow(w, e.actor, Received(d, e.now), e.now, id, a, job, j);
    case Work(batch, sweep, claim) => PassKeepsRow(w.jobs, claim, e.now, j);
    case _ => Spares(w, e);
  }

  lemma StepKeepsRow(worlds: seq<World>, issues: seq<Issue>, i: nat, j: Id)
    requires IsRun(worlds, issues) && i < |issues| && j in worlds[i].jobs
    requires issues[i].command.Work? ==> j !in issues[i].command.claim
    ensures j in worlds[i + 1].jobs && worlds[i + 1].jobs[j] == worlds[i].jobs[j]
  {
    StepInRun(worlds, issues, i);
    StepOpens(worlds[i], issues[i], worlds[i + 1]);
    CommandKeepsRow(worlds[i], issues[i], j);
  }

  /** No pass between two commands claims the job. */
  predicate LeftAlone(issues: seq<Issue>, j: Id, from: nat, to: nat)
    requires to <= |issues|
  {
    forall k | from <= k < to :: issues[k].command.Work? ==> j !in issues[k].command.claim
  }

  lemma {:induction false} RowStays(worlds: seq<World>, issues: seq<Issue>, j: Id, from: nat, to: nat)
    requires IsRun(worlds, issues) && from <= to < |worlds| && j in worlds[from].jobs
    requires LeftAlone(issues, j, from, to)
    ensures j in worlds[to].jobs && worlds[to].jobs[j] == worlds[from].jobs[j]
  {
    if from < to {
      RowStays(worlds, issues, j, from, to - 1);
      StepKeepsRow(worlds, issues, to - 1, j);
    }
  }

  /** A finished job waits no more. */
  lemma DoneStays(worlds: seq<World>, issues: seq<Issue>, i: nat, j: Id)
    requires IsRun(worlds, issues) && i < |issues| && j in worlds[i].jobs && Done(worlds[i].jobs[j])
    ensures j in worlds[i + 1].jobs && worlds[i + 1].jobs[j] == worlds[i].jobs[j]
  {
    if issues[i].command.Work? { ClaimIsExact(worlds, issues, i); }
    StepKeepsRow(worlds, issues, i, j);
  }

  /** Roomy passes, the q-th at least q * q seconds after the one before, and none between them that
      takes the job. */
  ghost predicate Spaced(worlds: seq<World>, issues: seq<Issue>, j: Id, passes: seq<nat>)
    requires |worlds| == |issues| + 1
  {
    && (forall q | 0 <= q < |passes| :: passes[q] < |issues| && Roomy(worlds[passes[q]], issues[passes[q]]))
    && (forall q | 0 < q < |passes| :: NextPass(issues, j, passes[q - 1], passes[q], q))
  }

  predicate NextPass(issues: seq<Issue>, j: Id, before: nat, pass: nat, q: nat)
    requires before < |issues| && pass < |issues|
  {
    before < pass && issues[before].now + q * q <= issues[pass].now && LeftAlone(issues, j, before + 1, pass)
  }

  /** The job has had q attempts and waits to be run, or is done. */
  ghost predicate Awaits(w: World, j: Id, q: nat, now: int) {
    j in w.jobs && (Done(w.jobs[j]) || (w.jobs[j].attempts == q && j in DueJobs(w.jobs, now)))
  }

  /** After q attempts it is done, or ready again q * q seconds after the last. */
  ghost predicate Tried(job: OutboxJob, q: nat, now: int) {
    Done(job) || (job.attempts == q && job.status == Failed && job.availableAt == now + q * q && q < job.maxAttempts)
  }

  lemma PassTries(worlds: seq<World>, issues: seq<Issue>, i: nat, j: Id, q: nat)
    requires IsRun(worlds, issues) && i < |issues| && Roomy(worlds[i], issues[i])
    requires Awaits(worlds[i], j, q, issues[i].now)
    ensures j in worlds[i + 1].jobs && Tried(worlds[i + 1].jobs[j], q + 1, issues[i].now)
  {
    if Done(worlds[i].jobs[j]) {
      DoneStays(worlds, issues, i, j);
    } else {
      WaitingJobIsRun(worlds, issues, i, j);
    }
  }

  lemma TriedAwaits(worlds: seq<World>, issues: seq<Issue>, j: Id, before: nat, pass: nat, q: nat)
    requires IsRun(worlds, issues) && before < |issues| && pass < |issues| && NextPass(issues, j, before, pass, q)
    requires j in worlds[before + 1].jobs && Tried(worlds[before + 1].jobs[j], q, issues[before].now)
    ensures Awaits(worlds[pass], j, q, issues[pass].now)
  {
    RowStays(worlds, issues, j, before + 1, pass);
  }

  lemma {:induction false} SpacedPassesTry(worlds: seq<World>, issues: seq<Issue>, j: Id, passes: seq<nat>, q: nat)
    requires IsRun(worlds, issues) && Spaced(worlds, issues, j, passes) && q < |passes|
    requires Awaits(worlds[passes[0]], j, 0, issues[passes[0]].now)
    ensures j in worlds[passes[q] + 1].jobs && Tried(worlds[passes[q] + 1].jobs[j], q + 1, issues[passes[q]].now)
  {
    if q > 0 {
      SpacedPassesTry(worlds, issues, j, passes, q - 1);
      TriedAwaits(worlds, issues, j, passes[q - 1], passes[q], q);
    }
    PassTries(worlds, issues, passes[q], j, q);
  }

  /** Five such passes settle a new job for good: a planning job has succeeded and a review job is dead. */
  lemma FivePassesSettle(worlds: seq<World>, issues: seq<Issue>, j: Id, passes: seq<nat>)
    requires IsRun(worlds, issues) && |passes| == 5 && Spaced(worlds, issues, j, passes)
    requires j in worlds[passes[0]].jobs && worlds[passes[0]].jobs[j].attempts == 0
    requires worlds[passes[0]].jobs[j].availableAt <= issues[passes[0]].now
    ensures j in worlds[passes[4] + 1].jobs
    ensures var job := worlds[passes[4] + 1].jobs[j];
            && Done(job) && (job.kind == VoyagePlanned ==> job.status == Succeeded)
            && (job.kind == AnomalyReview ==> job.status == Dead)
  {
    FirstAwaits(worlds, issues, passes[0], j);
    SpacedPassesTry(worlds, issues, j, passes, 4);
    SettledAtTheEnd(worlds, issues, passes[4] + 1, j, issues[passes[4]].now);
  }

  lemma FirstAwaits(worlds: seq<World>, issues: seq<Issue>, i: nat, j: Id)
    requires IsRun(worlds, issues) && i < |issues| && j in worlds[i].jobs
    requires worlds[i].jobs[j].attempts == 0 && worlds[i].jobs[j].availableAt <= issues[i].now
    ensures Awaits(worlds[i], j, 0, issues[i].now)
  {
    OutboxIsInOrder(worlds, issues, i);
    assert JobFits(worlds[i].jobs[j]);
  }

  lemma SettledAtTheEnd(worlds: seq<World>, issues: seq<Issue>, i: nat, j: Id, last: int)
    requires IsRun(worlds, issues) && i < |worlds| && j in worlds[i].jobs && Tried(worlds[i].jobs[j], 5, last)
    ensures var job := worlds[i].jobs[j];
            && Done(job) && (job.kind == VoyagePlanned ==> job.status == Succeeded)
            && (job.kind == AnomalyReview ==> job.status == Dead)
  {
    OutboxIsInOrder(worlds, issues, i);
    assert JobFits(worlds[i].jobs[j]);
    SettledAfterEveryPass(worlds, issues, i, j);
  }
}
