/** The outbox over whole runs: attempts are conserved, passes run out, and jobs that die take
    the time the backoff prescribes (internal/worker, internal/storage/sqlite/jobs.go). */
module Outbox {
  import opened Basics
  import opened Domain
  import opened Commands
  import opened Invariants
  import opened Selection
  import opened Planning
  import opened Frames
  import opened Runs

  type Jobs = map<Id, OutboxJob>

  // ---- attempts are conserved ----

  /** The attempts each job has left. */
  function Remaining(jobs: Jobs): map<Id, int> { map j | j in jobs :: jobs[j].maxAttempts - jobs[j].attempts }

  ghost function Credit(jobs: Jobs): int { Sum(Remaining(jobs)) }

  lemma {:induction false} SumLowered(m: map<Id, int>, m': map<Id, int>, claim: set<Id>)
    requires m'.Keys == m.Keys && claim <= m.Keys
    requires forall k | k in m :: m'[k] == if k in claim then m[k] - 1 else m[k]
    ensures Sum(m') == Sum(m) - |claim|
    decreases |claim|
  {
    if claim == {} {
      assert m' == m;
    } else {
      var k :| k in claim;
      var rest := claim - {k};
      var between := m'[k := m[k]];
      SumLowered(m, between, rest);
      SumReplace(between, k, m'[k]);
      assert between[k := m'[k]] == m';
    }
  }

  lemma PassSpends(jobs: Jobs, claim: set<Id>, now: int)
    requires claim <= jobs.Keys
    ensures Credit(ProcessedJobs(jobs, claim, now)) == Credit(jobs) - |claim|
  {
    SumLowered(Remaining(jobs), Remaining(ProcessedJobs(jobs, claim, now)), claim);
  }

  lemma NewJobCredits(jobs: Jobs, id: Id, kind: JobKind, aggregate: Id, payload: Payload, now: int)
    requires id !in jobs
    ensures var after := jobs[id := NewJob(kind, aggregate, payload, now)];
            Credit(after) == Credit(jobs) + 5 && |after| == |jobs| + 1
  {
    RemainingGrows(jobs, id, NewJob(kind, aggregate, payload, now));
    OneMoreJob(jobs, id, NewJob(kind, aggregate, payload, now));
    SumInsert(Remaining(jobs), id, 5);
  }

  lemma RemainingGrows(jobs: Jobs, id: Id, job: OutboxJob)
    requires id !in jobs
    ensures Remaining(jobs[id := job]) == Remaining(jobs)[id := job.maxAttempts - job.attempts]
  {
  }

  lemma OneMoreJob(jobs: Jobs, id: Id, job: OutboxJob)
    requires id !in jobs
    ensures |jobs[id := job]| == |jobs| + 1 && id !in Remaining(jobs)
  {
  }

  lemma CreditIsNonNegative(jobs: Jobs)
    requires JobsFit(jobs)
    ensures Credit(jobs) >= 0
  {
    SumNonNegative(Remaining(jobs));
  }

  /** What one command does to the outbox. */
  ghost predicate Accounted(jobs: Jobs, jobs': Jobs, claimed: nat) {
    Credit(jobs') + claimed == Credit(jobs) + 5 * (|jobs'| - |jobs|)
  }

  lemma PlanAccounts(w: World, p: Principal, input: PlanInput, now: int, y: Id, jobId: Id)
    ensures Accounted(w.jobs, Plan(w, p, input, now, y, jobId).After(w).jobs, 0)
  {
    if Plan(w, p, input, now, y, jobId).Commit? && !KeyHeld(w, input.key, now) {
      PlanCommits(w, p, input, now, y, jobId);
      PlannedJobs(w, input, now, y, jobId);
    }
  }

  lemma PlannedJobs(w: World, input: PlanInput, now: int, y: Id, jobId: Id)
    requires input.fleetId in w.fleets && jobId !in w.jobs
    ensures Accounted(w.jobs, PlannedWorld(w, input, now, y, jobId).jobs, 0)
  {
    NewJobCredits(w.jobs, jobId, VoyagePlanned, y,
      VoyageBody(NewVoyage(input, Volume(w, input.vesselIds, |input.vesselIds|), now)), now);
  }

  lemma SubmitJobs(w: World, p: Principal, d: CatchDeclaration, now: int, id: Id, a: Id, jobId: Id)
    ensures var n, target := Submit(w, p, d, now, id, a, jobId).After(w), TargetAnomaly(w, d.voyageId, a);
            n.jobs == w.jobs || (jobId !in w.jobs
              && n.jobs == w.jobs[jobId := NewJob(AnomalyReview, target, BareId(target), now)])
  {
    SubmitEnds(w, p, d, now, id, a, jobId);
    if d.voyageId in w.voyages && w.voyages[d.voyageId].permitId in w.permits {
      FlagFrame(w, d, w.permits[w.voyages[d.voyageId].permitId].reviewDeadline, now, id,
        TargetAnomaly(w, d.voyageId, a), jobId);
    }
  }

  lemma SubmitAccounts(w: World, p: Principal, d: CatchDeclaration, now: int, id: Id, a: Id, jobId: Id)
    ensures Accounted(w.jobs, Submit(w, p, d, now, id, a, jobId).After(w).jobs, 0)
  {
    SubmitJobs(w, p, d, now, id, a, jobId);
    if jobId !in w.jobs {
      var target := TargetAnomaly(w, d.voyageId, a);
      NewJobCredits(w.jobs, jobId, AnomalyReview, target, BareId(target), now);
    }
  }

  function ClaimedBy(e: Issue): nat { if e.command.Work? then |e.command.claim| else 0 }

  lemma CommandAccounts(w: World, e: Issue)
    requires Admissible(w, e)
    ensures Accounted(w.jobs, Perform(w, e).jobs, ClaimedBy(e))
  {
    match e.command
    case PlanVoyage(input, y, job) => PlanAccounts(w, e.actor, input, e.now, y, job);
    case SubmitDeclaration(d, id, a, job) => SubmitAccounts(w, e.actor, Received(d, e.now), e.now, id, a, job);
    case Work(batch, sweep, claim) => PassAccounts(w.jobs, batch, claim, e.now);
    case _ => QuietAccounts(w, e);
  }

  lemma QuietAccounts(w: World, e: Issue)
    requires !MovesJobs(e.command)
    ensures Accounted(w.jobs, Perform(w, e).jobs, ClaimedBy(e))
  {
    Spares(w, e);
  }

  lemma PassAccounts(jobs: Jobs, batch: nat, claim: set<Id>, now: int)
    requires IsEarliest(Ready(jobs, now), batch, claim)
    ensures Accounted(jobs, ProcessedJobs(jobs, claim, now), |claim|)
  {
    assert claim <= jobs.Keys;
    PassSpends(jobs, claim, now);
    assert ProcessedJobs(jobs, claim, now).Keys == jobs.Keys;
  }

  lemma StepAccounts(worlds: seq<World>, issues: seq<Issue>, i: nat)
    requires IsRun(worlds, issues) && i < |issues|
    ensures Accounted(worlds[i].jobs, worlds[i + 1].jobs, ClaimedBy(issues[i]))
  {
    StepInRun(worlds, issues, i);
    StepOpens(worlds[i], issues[i], worlds[i + 1]);
    CommandAccounts(worlds[i], issues[i]);
  }

  /** The jobs claimed by the passes from step i to step j, and the passes that claimed any. */
  function Claims(issues: seq<Issue>, i: nat, j: nat): nat
    requires i <= j <= |issues|
  {
    if i == j then 0 else Claims(issues, i, j - 1) + ClaimedBy(issues[j - 1])
  }

  function BusyPasses(issues: seq<Issue>, i: nat, j: nat): nat
    requires i <= j <= |issues|
  {
    if i == j then 0 else BusyPasses(issues, i, j - 1) + if ClaimedBy(issues[j - 1]) > 0 then 1 else 0
  }

  lemma {:induction false} BusyPassesClaim(issues: seq<Issue>, i: nat, j: nat)
    requires i <= j <= |issues|
    ensures BusyPasses(issues, i, j) <= Claims(issues, i, j)
  {
    if i < j { BusyPassesClaim(issues, i, j - 1); }
  }

  lemma {:induction false} AttemptsConserved(worlds: seq<World>, issues: seq<Issue>, i: nat, j: nat)
    requires IsRun(worlds, issues) && i <= j < |worlds|
    ensures Credit(worlds[j].jobs) + Claims(issues, i, j)
            == Credit(worlds[i].jobs) + 5 * (|worlds[j].jobs| - |worlds[i].jobs|)
  {
    if i < j {
      AttemptsConserved(worlds, issues, i, j - 1);
      StepAccounts(worlds, issues, j - 1);
    }
  }

  /** Between any two states, the passes that claim anything are at most the attempts left at the
      start and five for every job added since. */
  lemma PassesRunOut(worlds: seq<World>, issues: seq<Issue>, i: nat, j: nat)
    requires IsRun(worlds, issues) && i <= j < |worlds|
    ensures BusyPasses(issues, i, j) <= Credit(worlds[i].jobs) + 5 * (|worlds[j].jobs| - |worlds[i].jobs|)
  {
    AttemptsConserved(worlds, issues, i, j);
    BusyPassesClaim(issues, i, j);
    OutboxIsInOrder(worlds, issues, j);
    CreditIsNonNegative(worlds[j].jobs);
  }

  // ---- what a job looks like after a pass ----

  lemma OutboxIsInOrder(worlds: seq<World>, issues: seq<Issue>, i: nat)
    requires IsRun(worlds, issues) && i < |worlds|
    ensures JobsFit(worlds[i].jobs)
  {
    RunKeepsInv(worlds, issues, i);
  }

  ghost predicate Settled(job: OutboxJob) {
    && job.status != Running && job.lockedAt.None?
    && (job.status == Failed ==> job.attempts < job.maxAttempts)
    && (job.status == Dead <==> job.attempts == job.maxAttempts)
    && (job.kind == VoyagePlanned ==> job.status == if job.attempts == 0 then JobStatus.Pending else Succeeded)
    && (job.kind == AnomalyReview ==>
          job.status == if job.attempts == 0 then JobStatus.Pending else if job.attempts < 5 then Failed else Dead)
  }

  lemma FittingIsSettled(job: OutboxJob)
    requires JobFits(job) && (job.kind == AnomalyReview ==> Generated(job.aggregateId))
    ensures Settled(job)
  {
    if job.kind == AnomalyReview { GeneratedNeverDecodes(job.aggregateId); }
  }

  lemma JobsAreNamed(w: World, j: Id)
    requires Inv(w) && j in w.jobs
    ensures JobFits(w.jobs[j]) && (w.jobs[j].kind == AnomalyReview ==> Generated(w.jobs[j].aggregateId))
  {
  }

  /** No job is left running; a failed one has attempts left and a dead one has none; a planning
      job succeeds at its first attempt; a review job never does, for its payload is a generated
      identifier and that is no JSON string, and so it dies at its fifth. */
  lemma SettledAfterEveryPass(worlds: seq<World>, issues: seq<Issue>, i: nat, j: Id)
    requires IsRun(worlds, issues) && i < |worlds| && j in worlds[i].jobs
    ensures Settled(worlds[i].jobs[j])
  {
    RunKeepsInv(worlds, issues, i);
    JobsAreNamed(worlds[i], j);
    FittingIsSettled(worlds[i].jobs[j]);
  }

  // ---- time ----

  /** The attempts of a job are as far apart as the squares say. */
  lemma {:induction false} BackoffAdds(job: OutboxJob, n: nat)
    requires JobFits(job) && 1 <= n <= |job.claimedAt|
    ensures 6 * (job.claimedAt[n - 1] - job.claimedAt[0]) >= (n - 1) * n * (2 * n - 1)
  {
    if n > 1 {
      BackoffAdds(job, n - 1);
      var k := n - 1;
      assert job.claimedAt[k - 1] + k * k <= job.claimedAt[k];
      assert (n - 1) * n * (2 * n - 1) == (k - 1) * k * (2 * k - 1) + 6 * (k * k) by {
        assert (n - 1) * n == k * k + k && (k - 1) * k == k * k - k;
        assert (k * k + k) * (2 * k + 1) == 2 * (k * k * k) + 3 * (k * k) + k;
        assert (k * k - k) * (2 * k - 1) == 2 * (k * k * k) - 3 * (k * k) + k;
      }
    }
  }

  /** A job that dies on attempt n dies at least (n-1)n(2n-1)/6 seconds after its first attempt. */
  lemma DeathTakesTime(worlds: seq<World>, issues: seq<Issue>, i: nat, j: Id)
    requires IsRun(worlds, issues) && i < |worlds| && j in worlds[i].jobs && worlds[i].jobs[j].status == Dead
    ensures var job, n := worlds[i].jobs[j], worlds[i].jobs[j].attempts;
            n == |job.claimedAt| == 5 && 6 * (job.claimedAt[n - 1] - job.claimedAt[0]) >= (n - 1) * n * (2 * n - 1)
  {
    OutboxIsInOrder(worlds, issues, i);
    assert JobFits(worlds[i].jobs[j]);
    BackoffAdds(worlds[i].jobs[j], 5);
  }

  /** The times of the passes among the first n commands that claimed job j. */
  function ClaimTimes(issues: seq<Issue>, j: Id, n: nat): seq<int>
    requires n <= |issues|
  {
    if n == 0 then []
    else ClaimTimes(issues, j, n - 1) + ClaimOf(issues[n - 1], j)
  }

  /** A command other than a pass keeps every job and adds only unclaimed ones. */
  ghost predicate KeepsJob(jobs: Jobs, jobs': Jobs, j: Id, claimed: seq<int>) {
    && (j in jobs ==> j in jobs' && jobs'[j].claimedAt == jobs[j].claimedAt + claimed)
    && (j !in jobs ==> claimed == [] && (j in jobs' ==> jobs'[j].claimedAt == []))
  }

  lemma PlanKeepsJobs(w: World, p: Principal, input: PlanInput, now: int, y: Id, jobId: Id, j: Id)
    ensures KeepsJob(w.jobs, Plan(w, p, input, now, y, jobId).After(w).jobs, j, [])
  {
  }

  lemma SubmitKeepsJobs(w: World, p: Principal, d: CatchDeclaration, now: int, id: Id, a: Id, jobId: Id, j: Id)
    ensures KeepsJob(w.jobs, Submit(w, p, d, now, id, a, jobId).After(w).jobs, j, [])
  {
    SubmitJobs(w, p, d, now, id, a, jobId);
  }

  lemma QuietKeepsJobs(w: World, e: Issue, j: Id)
    requires !MovesJobs(e.command)
    ensures KeepsJob(w.jobs, Perform(w, e).jobs, j, ClaimOf(e, j))
  {
    Spares(w, e);
  }

  lemma PassKeepsJobs(jobs: Jobs, batch: nat, claim: set<Id>, now: int, j: Id)
    requires IsEarliest(Ready(jobs, now), batch, claim)
    ensures KeepsJob(jobs, ProcessedJobs(jobs, claim, now), j, if j in claim then [now] else [])
  {
  }

  function ClaimOf(e: Issue, j: Id): seq<int> { if e.command.Work? && j in e.command.claim then [e.now] else [] }

  lemma CommandKeepsJobs(w: World, e: Issue, j: Id)
    requires Admissible(w, e)
    ensures KeepsJob(w.jobs, Perform(w, e).jobs, j, ClaimOf(e, j))
  {
    match e.command
    case PlanVoyage(input, y, job) => PlanKeepsJobs(w, e.actor, input, e.now, y, job, j);
    case SubmitDeclaration(d, id, a, job) => SubmitKeepsJobs(w, e.actor, Received(d, e.now), e.now, id, a, job, j);
    case Work(batch, sweep, claim) => PassKeepsJobs(w.jobs, batch, claim, e.now, j);
    case _ => QuietKeepsJobs(w, e, j);
  }

  lemma StepRecordsClaims(worlds: seq<World>, issues: seq<Issue>, i: nat, j: Id)
    requires IsRun(worlds, issues) && i < |issues|
    ensures KeepsJob(worlds[i].jobs, worlds[i + 1].jobs, j, ClaimOf(issues[i], j))
  {
    StepInRun(worlds, issues, i);
    StepOpens(worlds[i], issues[i], worlds[i + 1]);
    CommandKeepsJobs(worlds[i], issues[i], j);
  }

  lemma OutboxStartsEmpty(worlds: seq<World>, issues: seq<Issue>)
    requires IsRun(worlds, issues)
    ensures worlds[0].jobs == map[]
  {
  }

  predicate Recounts(jobs: Jobs, j: Id, times: seq<int>) {
    if j in jobs then jobs[j].claimedAt == times else times == []
  }

  lemma RecountsOn(jobs: Jobs, jobs': Jobs, j: Id, times: seq<int>, claimed: seq<int>)
    requires Recounts(jobs, j, times) && KeepsJob(jobs, jobs', j, claimed)
    ensures Recounts(jobs', j, times + claimed)
  {
  }

  lemma RecountsNext(worlds: seq<World>, issues: seq<Issue>, n: nat, j: Id)
    requires IsRun(worlds, issues) && n < |issues| && Recounts(worlds[n].jobs, j, ClaimTimes(issues, j, n))
    ensures Recounts(worlds[n + 1].jobs, j, ClaimTimes(issues, j, n + 1))
  {
    StepRecordsClaims(worlds, issues, n, j);
    RecountsOn(worlds[n].jobs, worlds[n + 1].jobs, j, ClaimTimes(issues, j, n), ClaimOf(issues[n], j));
  }

  /** The history column tells the truth: it lists exactly the passes that claimed the job. */
  lemma {:induction false} HistoryIsFaithful(worlds: seq<World>, issues: seq<Issue>, n: nat, j: Id)
    requires IsRun(worlds, issues) && n < |worlds|
    ensures Recounts(worlds[n].jobs, j, ClaimTimes(issues, j, n))
  {
    if n == 0 {
      OutboxStartsEmpty(worlds, issues);
    } else {
      HistoryIsFaithful(worlds, issues, n - 1, j);
      RecountsNext(worlds, issues, n - 1, j);
    }
  }
}
