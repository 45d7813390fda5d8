/** The multi-worker lease queue of internal/runtimeops: jobs are claimed under a lease, and the
    attempt number handed out with a claim is the token later calls must present. */
module Leases {
  import opened Basics
  import opened Selection

  type Id = string

  /** The state column is text; `Other` holds the texts the code gives no meaning to. */
  type OtherState = s: string | s !in {"pending", "running", "failed", "done", "dead"} witness ""

  datatype JobState = Pending | Running | Failed | Done | Dead | Other(text: OtherState)

  datatype Job = Job(tenant: Id, state: JobState, payload: string, attempts: int, maxAttempts: int,
                     availableAt: int, leaseUntil: Option<int>)

  datatype OutboxRow = OutboxRow(tenant: Id, entity: Id, payload: string)

  datatype Queue = Queue(jobs: map<Id, Job>, outbox: seq<OutboxRow>)

  const MINUTE := 60

  // ---- what each call does to the tables ----

  function Created(q: Queue, id: Id, job: Job): Result<Queue> {
    if id in q.jobs then Failure(Constraint)
    else Success(q.(jobs := q.jobs[id := job.(leaseUntil := None)]))
  }

  predicate Due(job: Job, tenant: Id, now: int) {
    && job.tenant == tenant && job.state in {Pending, Failed} && job.availableAt <= now
    && (job.leaseUntil.None? || job.leaseUntil.value <= now)
  }

  function DueKeys(q: Queue, tenant: Id, now: int): map<Id, int> {
    map id | id in q.jobs && Due(q.jobs[id], tenant, now) :: q.jobs[id].availableAt
  }

  function Limit(limit: int): nat { if limit < 1 then 1 else limit }

  function Leased(job: Job, until: int): Job {
    job.(state := Running, attempts := job.attempts + 1, leaseUntil := Some(until))
  }

  function Claimed(q: Queue, ids: seq<Id>, until: int): Queue {
    q.(jobs := map id | id in q.jobs :: if id in ids then Leased(q.jobs[id], until) else q.jobs[id])
  }

  /** The predicate of every fenced UPDATE: the row is running under exactly this attempt. */
  predicate Owns(q: Queue, tenant: Id, id: Id, attempt: int) {
    id in q.jobs && q.jobs[id].tenant == tenant && q.jobs[id].state == Running && q.jobs[id].attempts == attempt
  }

  function Finished(job: Job): Job { job.(state := Done, leaseUntil := None) }

  function Completed(q: Queue, tenant: Id, id: Id, attempt: int): Result<Queue> {
    if Owns(q, tenant, id, attempt) then
      Success(Queue(q.jobs[id := Finished(q.jobs[id])], q.outbox + [OutboxRow(tenant, id, "job_done")]))
    else Failure(Conflict)
  }

  function Rejected(job: Job, attempt: int, now: int): Job {
    job.(state := if attempt >= job.maxAttempts then Dead else Failed,
         availableAt := now + attempt * MINUTE, leaseUntil := None)
  }

  function Unfulfilled(q: Queue, tenant: Id, id: Id, attempt: int, now: int): Result<Queue> {
    if Owns(q, tenant, id, attempt) then Success(q.(jobs := q.jobs[id := Rejected(q.jobs[id], attempt, now)]))
    else Failure(NotFound)
  }

  predicate Lapsed(job: Job, tenant: Id, now: int) {
    job.tenant == tenant && job.state == Running && job.leaseUntil.Some? && job.leaseUntil.value <= now
  }

  function Reclaimed(q: Queue, tenant: Id, now: int): Queue {
    q.(jobs := map id | id in q.jobs ::
                 if Lapsed(q.jobs[id], tenant, now) then q.jobs[id].(state := Failed, leaseUntil := None)
                   else q.jobs[id])
  }

  ghost predicate LeasedSoFar(before: map<Id, Job>, after: map<Id, Job>, done: seq<Id>, until: int) {
    && after.Keys == before.Keys
    && forall id | id in before :: after[id] == if id in done then Leased(before[id], until) else before[id]
  }

  lemma LeaseNext(before: map<Id, Job>, after: map<Id, Job>, done: seq<Id>, id: Id, until: int)
    requires LeasedSoFar(before, after, done, until) && id in before && id !in done
    ensures after[id] == before[id] && LeasedSoFar(before, after[id := Leased(after[id], until)], done + [id], until)
  {
  }

  lemma LeasedAll(q: Queue, after: map<Id, Job>, ids: seq<Id>, until: int)
    requires LeasedSoFar(q.jobs, after, ids, until)
    ensures Queue(after, q.outbox) == Claimed(q, ids, until)
  {
  }

  // ---- the store and the worker ----

  class RuntimeStore {
    var jobs: map<Id, Job>
    var outbox: seq<OutboxRow>

    ghost function Contents(): (q: Queue)
      reads this
    {
      Queue(jobs, outbox)
    }

    constructor ()
      ensures Contents() == Queue(map[], [])
    {
      jobs, outbox := map[], [];
    }

    method CreateJob(id: Id, job: Job) returns (r: Result<()>)
      modifies this
      ensures match Created(old(Contents()), id, job)
              case Success(q) => r.Success? && Contents() == q
              case Failure(e) => r == Failure(e) && Contents() == old(Contents())
    {
      if id in jobs { return Failure(Constraint); }
      jobs := jobs[id := job.(leaseUntil := None)];
      return Success(());
    }

    method ClaimJobs(tenant: Id, now: int, limit: int, lease: int) returns (out: seq<(Id, Job)>)
      modifies this
      ensures var ids := seq(|out|, i requires 0 <= i < |out| => out[i].0);
              && IsFirst(DueKeys(old(Contents()), tenant, now), Limit(limit), ids)
              && Contents() == Claimed(old(Contents()), ids, now + lease)
              && forall i | 0 <= i < |out| :: out[i].0 in jobs && out[i].1 == jobs[out[i].0]
    {
      var due := map id | id in jobs && Due(jobs[id], tenant, now) :: jobs[id].availableAt;
      assert due == DueKeys(Contents(), tenant, now);
      var ids := TakeFirst(due, Limit(limit));
      DistinctSize(due, ids);
      out := LeaseRows(ids, now + lease);
      assert ids == seq(|out|, i requires 0 <= i < |out| => out[i].0);
    }

    /** Each row is updated and read back, one after the other. */
    method LeaseRows(ids: seq<Id>, until: int) returns (out: seq<(Id, Job)>)
      requires forall i | 0 <= i < |ids| :: ids[i] in jobs
      requires forall i, j | 0 <= i < j < |ids| :: ids[i] != ids[j]
      modifies this
      ensures Contents() == Claimed(old(Contents()), ids, until) && |out| == |ids|
      ensures forall i | 0 <= i < |out| :: out[i].0 == ids[i] && ids[i] in jobs && out[i].1 == jobs[ids[i]]
    {
      ghost var before := Contents();
      out := [];
      for n := 0 to |ids|
        invariant |out| == n
        invariant forall i | 0 <= i < n :: out[i] == (ids[i], Leased(before.jobs[ids[i]], until))
        invariant outbox == before.outbox && LeasedSoFar(before.jobs, jobs, ids[..n], until)
      {
        var id := ids[n];
        assert ids[..n + 1] == ids[..n] + [id];
        LeaseNext(before.jobs, jobs, ids[..n], id, until);
        jobs := jobs[id := Leased(jobs[id], until)];
        out := out + [(id, jobs[id])];
      }
      assert ids[..|ids|] == ids;
      LeasedAll(before, jobs, ids, until);
    }

    method CompleteJob(tenant: Id, id: Id, attempt: int) returns (r: Result<()>)
      modifies this
      ensures match Completed(old(Contents()), tenant, id, attempt)
              case Success(q) => r.Success? && Contents() == q
              case Failure(e) => r == Failure(e) && Contents() == old(Contents())
    {
      if !(id in jobs && jobs[id].tenant == tenant && jobs[id].state == Running && jobs[id].attempts == attempt) {
        return Failure(Conflict);
      }
      jobs := jobs[id := jobs[id].(state := Done, leaseUntil := None)];
      outbox := outbox + [OutboxRow(tenant, id, "job_done")];
      return Success(());
    }

    method FailJob(tenant: Id, id: Id, attempt: int, now: int) returns (r: Result<()>)
      modifies this
      ensures match Unfulfilled(old(Contents()), tenant, id, attempt, now)
              case Success(q) => r.Success? && Contents() == q
              case Failure(e) => r == Failure(e) && Contents() == old(Contents())
    {
      if !(id in jobs && jobs[id].tenant == tenant && jobs[id].state == Running && jobs[id].attempts == attempt) {
        return Failure(NotFound);
      }
      var state := Failed;
      if attempt >= jobs[id].maxAttempts { state := Dead; }
      var next := now + attempt * MINUTE;
      jobs := jobs[id := jobs[id].(state := state, availableAt := next, leaseUntil := None)];
      return Success(());
    }

    method ReclaimJobs(tenant: Id, now: int) returns (count: nat)
      modifies this
      ensures Contents() == Reclaimed(old(Contents()), tenant, now)
      ensures count == |set id | id in old(jobs) && Lapsed(old(jobs)[id], tenant, now)|
    {
      var lapsed := set id | id in jobs && Lapsed(jobs[id], tenant, now);
      count := |lapsed|;
      jobs := map id | id in jobs :: if id in lapsed then jobs[id].(state := Failed, leaseUntil := None) else jobs[id];
    }

    /** One worker pass with nobody interfering: the single due job is claimed and then
        completed or failed with the token the claim handed out, which is always accepted. */
    method RunOnce(tenant: Id, now: int, lease: int, handled: map<Id, Result<()>>) returns (r: Result<()>)
      requires forall id | id in jobs :: id in handled
      modifies this
      ensures DueKeys(old(Contents()), tenant, now) == map[] ==> r.Success? && Contents() == old(Contents())
      ensures DueKeys(old(Contents()), tenant, now) != map[] ==>
                exists id :: id in old(jobs) && IsFirst(DueKeys(old(Contents()), tenant, now), 1, [id])
                  && (var taken := Claimed(old(Contents()), [id], now + lease);
                      var token := taken.jobs[id].attempts;
                      var outcome := if handled[id].Success? then Completed(taken, tenant, id, token)
                                     else Unfulfilled(taken, tenant, id, token, now);
                      outcome.Success? && Contents() == outcome.value && r == handled[id])
    {
      ghost var before := Contents();
      var claimed := ClaimJobs(tenant, now, 1, lease);
      ghost var ids := seq(|claimed|, i requires 0 <= i < |claimed| => claimed[i].0);
      r := Success(());
      if |claimed| == 0 {
        assert DueKeys(before, tenant, now) == map[];
        assert Contents() == before;
        return;
      }
      var (id, job) := claimed[0];
      assert ids == [id];
      assert id in DueKeys(before, tenant, now);
      assert Contents() == Claimed(before, [id], now + lease);
      assert Owns(Contents(), tenant, id, job.attempts);
      r := handled[id];
      if r.Success? {
        var completed := CompleteJob(tenant, id, job.attempts);
      } else {
        var failed := FailJob(tenant, id, job.attempts, now);
      }
    }
  }

  // ---- runs: any interleaving of calls by workers holding current or stale tokens ----

  datatype Call =
    | Create(id: Id, job: Job)
    | Claim(tenant: Id, limit: int, lease: int, ids: seq<Id>)
    | Complete(tenant: Id, id: Id, attempt: int)
    | Fail(tenant: Id, id: Id, attempt: int)
    | Reclaim(tenant: Id)

  /** What happened to one job: a claim with its lease, or the end of that claim. */
  datatype Entry =
    | Taken(attempt: int, at: int, until: int)
    | Released(attempt: int, at: int, byHolder: bool)

  /** The tables together with each job's history and its row at creation. */
  datatype Ledger = Ledger(queue: Queue, history: map<Id, seq<Entry>>, born: map<Id, Job>)

  const EMPTY := Ledger(Queue(map[], []), map[], map[])

  /** A claim takes what its query returns. Times are those the callers read, in any order. */
  ghost predicate Admissible(l: Ledger, c: Call, now: int) {
    && (c.Claim? ==> IsFirst(DueKeys(l.queue, c.tenant, now), Limit(c.limit), c.ids))
    && l.history.Keys == l.queue.jobs.Keys
  }

  function OrSame(r: Result<Queue>, q: Queue): Queue { if r.Success? then r.value else q }

  function TablesAfter(q: Queue, c: Call, now: int): Queue {
    match c
    case Create(id, job) => OrSame(Created(q, id, job), q)
    case Claim(tenant, limit, lease, ids) => Claimed(q, ids, now + lease)
    case Complete(tenant, id, attempt) => OrSame(Completed(q, tenant, id, attempt), q)
    case Fail(tenant, id, attempt) => OrSame(Unfulfilled(q, tenant, id, attempt, now), q)
    case Reclaim(tenant) => Reclaimed(q, tenant, now)
  }

  /** The entry a call adds to the history of job `id`, read off the row before the call. */
  function NewEntries(q: Queue, c: Call, now: int, id: Id): seq<Entry>
    requires id in q.jobs
  {
    var job := q.jobs[id];
    match c
    case Create(_, _) => []
    case Claim(tenant, limit, lease, ids) => if id in ids then [Taken(job.attempts + 1, now, now + lease)] else []
    case Complete(tenant, target, attempt) =>
      if target == id && Owns(q, tenant, id, attempt) then [Released(attempt, now, true)] else []
    case Fail(tenant, target, attempt) =>
      if target == id && Owns(q, tenant, id, attempt) then [Released(attempt, now, true)] else []
    case Reclaim(tenant) => if Lapsed(job, tenant, now) then [Released(job.attempts, now, false)] else []
  }

  ghost function Step(l: Ledger, c: Call, now: int): Ledger
    requires Admissible(l, c, now)
  {
    var kept := map id | id in l.queue.jobs :: l.history[id] + NewEntries(l.queue, c, now, id);
    var added := c.Create? && c.id !in l.queue.jobs;
    Ledger(TablesAfter(l.queue, c, now),
           if added then kept[c.id := []] else kept,
           if added then l.born[c.id := c.job.(leaseUntil := None)] else l.born)
  }

  ghost predicate StepAt(ledgers: seq<Ledger>, calls: seq<Call>, times: seq<int>, i: int) {
    && 0 <= i < |calls| && i < |times| && i + 1 < |ledgers|
    && Admissible(ledgers[i], calls[i], times[i]) && ledgers[i + 1] == Step(ledgers[i], calls[i], times[i])
  }

  ghost predicate IsRun(ledgers: seq<Ledger>, calls: seq<Call>, times: seq<int>) {
    && |ledgers| == |calls| + 1 && |times| == |calls| && ledgers[0] == EMPTY
    && forall i | 0 <= i < |calls| :: StepAt(ledgers, calls, times, i)
  }

  predicate Monotone(times: seq<int>) {
    forall i, j | 0 <= i <= j < |times| :: times[i] <= times[j]
  }

  // ---- the invariant, one job at a time ----

  function DoneRows(q: Queue, id: Id, tenant: Id): nat {
    multiset(q.outbox)[OutboxRow(tenant, id, "job_done")]
  }

  function Reclaims(h: seq<Entry>): nat {
    if h == [] then 0
    else Reclaims(h[..|h| - 1]) + if h[|h| - 1].Released? && !h[|h| - 1].byHolder then 1 else 0
  }

  /** Claims and releases alternate, each release ends the claim before it, tokens count up,
      and a claim is taken away from its holder only once its lease has run out. */
  ghost predicate Alternates(h: seq<Entry>, firstToken: int) {
    && (forall i | 0 <= i < |h| :: h[i].Taken? <==> i % 2 == 0)
    && (forall i | 0 <= i < |h| :: h[i].attempt == firstToken + i / 2)
    && (forall i | 0 < i < |h| && h[i].Released? && !h[i].byHolder :: h[i - 1].Taken? && h[i - 1].until <= h[i].at)
  }

  /** The holder gives up its last attempt only for good. */
  ghost predicate HolderKeepsMaximum(job: Job, h: seq<Entry>) {
    && (forall i | 0 <= i < |h| - 1 && h[i].Released? && h[i].byHolder :: h[i].attempt < job.maxAttempts)
    && (h != [] && h[|h| - 1].Released? && h[|h| - 1].byHolder && h[|h| - 1].attempt >= job.maxAttempts ==>
          job.state in {Done, Dead})
  }

  /** The history of a job with a first claim for one inserted as already running: its holder is
      whoever knows the attempt number it was inserted with. */
  function Full(born: Job, h: seq<Entry>): seq<Entry> {
    if born.state == Running then [Taken(born.attempts, 0, 0)] + h else h
  }

  function FirstToken(born: Job): int { if born.state == Running then born.attempts else born.attempts + 1 }

  /** Inserted as running and never reported on since. */
  predicate BornHeld(born: Job, h: seq<Entry>) { born.state == Running && |h| == 1 }

  /** The row of a job fits its full history. */
  ghost predicate JobFits(job: Job, h: seq<Entry>, born: Job, rows: nat) {
    && job.tenant == born.tenant && job.maxAttempts == born.maxAttempts && job.payload == born.payload
    && born.leaseUntil.None? && (born.state == Running ==> h != [])
    && Alternates(h, FirstToken(born)) && HolderKeepsMaximum(job, h)
    && job.attempts == FirstToken(born) - 1 + (|h| + 1) / 2
    && (job.state == Running <==> |h| % 2 == 1)
    && (if |h| % 2 == 1 && !BornHeld(born, h) then job.leaseUntil == Some(h[|h| - 1].until) else job.leaseUntil.None?)
    && (born.state != Done ==> rows == if job.state == Done then 1 else 0)
    && (born.state in {Pending, Failed} && born.attempts < born.maxAttempts ==>
          && job.attempts <= job.maxAttempts + Reclaims(h)
          && (job.state in {Pending, Failed} ==> job.attempts < job.maxAttempts + Reclaims(h)))
  }

  ghost predicate DoneRowsOwned(q: Queue) {
    forall row | row in q.outbox && row.payload == "job_done" :: row.entity in q.jobs
  }

  ghost predicate KeysFit(l: Ledger) {
    && l.history.Keys == l.queue.jobs.Keys == l.born.Keys
    && DoneRowsOwned(l.queue)
  }

  ghost predicate RowFits(l: Ledger, id: Id)
    requires Tracked(l, id)
  {
    JobFits(l.queue.jobs[id], Full(l.born[id], l.history[id]), l.born[id], DoneRows(l.queue, id, l.born[id].tenant))
  }

  /** The row of every job fits its history. */
  ghost predicate Inv(l: Ledger) {
    KeysFit(l) && forall id {:trigger RowFits(l, id)} | Tracked(l, id) :: RowFits(l, id)
  }

  ghost predicate Tracked(l: Ledger, id: Id) {
    id in l.queue.jobs && id in l.history && id in l.born
  }

  lemma TakeFits(job: Job, h: seq<Entry>, born: Job, rows: nat, now: int, until: int)
    requires JobFits(job, h, born, rows) && job.state in {Pending, Failed}
    ensures JobFits(Leased(job, until), h + [Taken(job.attempts + 1, now, until)], born, rows)
  {
  }

  lemma ReleaseFits(job: Job, h: seq<Entry>, born: Job, rows: nat, now: int, byHolder: bool, after: Job, rows': nat)
    requires JobFits(job, h, born, rows) && job.state == Running
    requires byHolder || (job.leaseUntil.Some? && job.leaseUntil.value <= now)
    requires after.tenant == job.tenant && after.payload == job.payload && after.maxAttempts == job.maxAttempts
    requires after.attempts == job.attempts && after.leaseUntil.None? && after.state in {Done, Dead, Failed}
    requires rows' == if after.state == Done then rows + 1 else rows
    requires after.state == Failed ==> !byHolder || job.attempts < job.maxAttempts
    ensures JobFits(after, h + [Released(job.attempts, now, byHolder)], born, rows')
  {
  }

  /** The effect of a call on one row and on its job_done count. */
  lemma CallOnJob(q: Queue, c: Call, now: int, id: Id)
    requires id in q.jobs
    ensures id in TablesAfter(q, c, now).jobs
    ensures TablesAfter(q, c, now).jobs[id] == JobAfter(q, c, now, id)
    ensures DoneRows(TablesAfter(q, c, now), id, q.jobs[id].tenant)
         == DoneRows(q, id, q.jobs[id].tenant) + if c.Complete? && c.id == id && Owns(q, c.tenant, id, c.attempt)
           then 1 else 0
  {
  }

  function JobAfter(q: Queue, c: Call, now: int, id: Id): Job
    requires id in q.jobs
  {
    var job := q.jobs[id];
    match c
    case Create(_, _) => job
    case Claim(tenant, limit, lease, ids) => if id in ids then Leased(job, now + lease) else job
    case Complete(tenant, target, attempt) =>
      if target == id && Owns(q, tenant, id, attempt) then Finished(job) else job
    case Fail(tenant, target, attempt) =>
      if target == id && Owns(q, tenant, id, attempt) then Rejected(job, attempt, now) else job
    case Reclaim(tenant) => if Lapsed(job, tenant, now) then job.(state := Failed, leaseUntil := None) else job
  }

  lemma FullGrows(born: Job, h: seq<Entry>, e: seq<Entry>)
    ensures Full(born, h + e) == Full(born, h) + e
  {
  }

  lemma StepFitsJob(l: Ledger, c: Call, now: int, id: Id)
    requires Tracked(l, id) && RowFits(l, id) && Admissible(l, c, now)
    ensures Tracked(Step(l, c, now), id) && RowFits(Step(l, c, now), id)
  {
    var job, born, rows := l.queue.jobs[id], l.born[id], DoneRows(l.queue, id, l.born[id].tenant);
    var h, e := Full(born, l.history[id]), NewEntries(l.queue, c, now, id);
    CallOnJob(l.queue, c, now, id);
    assert Step(l, c, now).history[id] == l.history[id] + e;
    FullGrows(born, l.history[id], e);
    AfterFits(l.queue, c, now, id, h, born, rows) by {
      if c.Claim? && id in c.ids { assert id in DueKeys(l.queue, c.tenant, now); }
    }
  }

  /** The claim on a job has just ended: the holder reported, or the lease ran out. */
  lemma EndFits(q: Queue, c: Call, now: int, id: Id, h: seq<Entry>, born: Job, rows: nat)
    requires id in q.jobs && JobFits(q.jobs[id], h, born, rows)
    requires !c.Claim? && NewEntries(q, c, now, id) != []
    ensures JobFits(JobAfter(q, c, now, id), h + NewEntries(q, c, now, id), born,
                    rows + if c.Complete? && c.id == id && Owns(q, c.tenant, id, c.attempt) then 1 else 0)
  {
    var job := q.jobs[id];
    match c
    case Complete(_, _, attempt) => ReleaseFits(job, h, born, rows, now, true, Finished(job), rows + 1);
    case Fail(_, _, attempt) => ReleaseFits(job, h, born, rows, now, true, Rejected(job, attempt, now), rows);
    case Reclaim(_) => ReleaseFits(job, h, born, rows, now, false, job.(state := Failed, leaseUntil := None), rows);
    case _ =>
  }

  lemma IdleFits(q: Queue, c: Call, now: int, id: Id, h: seq<Entry>, born: Job, rows: nat)
    requires id in q.jobs && JobFits(q.jobs[id], h, born, rows) && NewEntries(q, c, now, id) == []
    ensures JobAfter(q, c, now, id) == q.jobs[id] && !(c.Complete? && c.id == id && Owns(q, c.tenant, id, c.attempt))
    ensures JobFits(q.jobs[id], h + [], born, rows)
  {
    assert h + [] == h;
  }

  lemma AfterFits(q: Queue, c: Call, now: int, id: Id, h: seq<Entry>, born: Job, rows: nat)
    requires id in q.jobs && JobFits(q.jobs[id], h, born, rows)
    requires c.Claim? && id in c.ids ==> q.jobs[id].state in {Pending, Failed}
    ensures JobFits(JobAfter(q, c, now, id), h + NewEntries(q, c, now, id), born,
                    rows + if c.Complete? && c.id == id && Owns(q, c.tenant, id, c.attempt) then 1 else 0)
  {
    if NewEntries(q, c, now, id) == [] {
      IdleFits(q, c, now, id, h, born, rows);
    } else if c.Claim? {
      TakeFits(q.jobs[id], h, born, rows, now, now + c.lease);
    } else {
      EndFits(q, c, now, id, h, born, rows);
    }
  }

  /** A job created by the call starts with an empty history and no outbox row. */
  lemma NewJobFits(l: Ledger, c: Call, now: int, id: Id)
    requires KeysFit(l) && Admissible(l, c, now) && id !in l.queue.jobs && Tracked(Step(l, c, now), id)
    ensures RowFits(Step(l, c, now), id)
  {
  }

  lemma CompletionIsOwned(q: Queue, tenant: Id, id: Id, attempt: int)
    requires DoneRowsOwned(q) && Owns(q, tenant, id, attempt)
    ensures DoneRowsOwned(Completed(q, tenant, id, attempt).value)
  {
  }

  lemma CallKeepsOwners(q: Queue, c: Call, now: int)
    requires DoneRowsOwned(q)
    ensures DoneRowsOwned(TablesAfter(q, c, now))
    ensures TablesAfter(q, c, now).jobs.Keys == q.jobs.Keys + if c.Create? then {c.id} else {}
  {
    if c.Complete? && Owns(q, c.tenant, c.id, c.attempt) { CompletionIsOwned(q, c.tenant, c.id, c.attempt); }
  }

  lemma StepKeepsOwners(l: Ledger, c: Call, now: int)
    requires KeysFit(l) && Admissible(l, c, now)
    ensures KeysFit(Step(l, c, now))
  {
    CallKeepsOwners(l.queue, c, now);
  }

  lemma StepKeepsInv(l: Ledger, c: Call, now: int)
    requires Inv(l) && Admissible(l, c, now)
    ensures Inv(Step(l, c, now))
  {
    var n := Step(l, c, now);
    StepKeepsOwners(l, c, now);
    forall id {:trigger RowFits(n, id)} | Tracked(n, id) ensures RowFits(n, id)
    {
      if id in l.queue.jobs { StepFitsJob(l, c, now, id); } else { NewJobFits(l, c, now, id); }
    }
  }

  lemma StepInRun(ledgers: seq<Ledger>, calls: seq<Call>, times: seq<int>, i: nat)
    requires IsRun(ledgers, calls, times) && i < |calls|
    ensures Admissible(ledgers[i], calls[i], times[i]) && ledgers[i + 1] == Step(ledgers[i], calls[i], times[i])
  {
    assert StepAt(ledgers, calls, times, i);
  }

  lemma {:induction false} RunKeepsInv(ledgers: seq<Ledger>, calls: seq<Call>, times: seq<int>, i: nat)
    requires IsRun(ledgers, calls, times) && i < |ledgers|
    ensures Inv(ledgers[i])
  {
    if i > 0 {
      RunKeepsInv(ledgers, calls, times, i - 1);
      StepInRun(ledgers, calls, times, i - 1);
      StepKeepsInv(ledgers[i - 1], calls[i - 1], times[i - 1]);
    }
  }

  lemma {:induction false} RunKeepsKeys(ledgers: seq<Ledger>, calls: seq<Call>, times: seq<int>, i: nat)
    requires IsRun(ledgers, calls, times) && i < |ledgers|
    ensures KeysFit(ledgers[i])
  {
    RunKeepsInv(ledgers, calls, times, i);
  }

  lemma RowInRun(ledgers: seq<Ledger>, calls: seq<Call>, times: seq<int>, i: nat, id: Id)
    requires IsRun(ledgers, calls, times) && i < |ledgers| && Tracked(ledgers[i], id)
    ensures RowFits(ledgers[i], id)
  {
    RunKeepsInv(ledgers, calls, times, i);
  }

  // ---- the protocol's promises, over every run ----

  /** The claim nobody has released yet, if there is one. */
  function Holder(h: seq<Entry>): Option<int> {
    if h != [] && h[|h| - 1].Taken? then Some(h[|h| - 1].attempt) else None
  }

  /** A job is running exactly when its lease is set or it was inserted as running and never
      reported on, and complete and fail accept exactly the token of the latest unreleased claim,
      the attempt number of the insertion standing for the first of a job inserted as running. */
  lemma TokenFence(ledgers: seq<Ledger>, calls: seq<Call>, times: seq<int>, i: nat, id: Id, attempt: int, now: int)
    requires IsRun(ledgers, calls, times) && i < |ledgers|
    requires Tracked(ledgers[i], id)
    ensures var l := ledgers[i]; var job, born, h := l.queue.jobs[id], l.born[id], l.history[id];
            && (job.state == Running <==> job.leaseUntil.Some? || (born.state == Running && h == []))
            && (Completed(l.queue, job.tenant, id, attempt).Success? <==> Holder(Full(born, h)) == Some(attempt))
            && (Unfulfilled(l.queue, job.tenant, id, attempt, now).Success?
                <==> Holder(Full(born, h)) == Some(attempt))
  {
    RowInRun(ledgers, calls, times, i, id);
  }

  lemma StepGrowsHistory(l: Ledger, c: Call, now: int, id: Id)
    requires KeysFit(l) && Admissible(l, c, now) && Tracked(l, id)
    ensures var n := Step(l, c, now);
            && Tracked(n, id) && n.born[id] == l.born[id]
            && n.history[id] == l.history[id] + NewEntries(l.queue, c, now, id)
  {
  }

  lemma {:induction false} HistoryGrows(ledgers: seq<Ledger>, calls: seq<Call>, times: seq<int>, i: nat, j: nat, id: Id)
    requires IsRun(ledgers, calls, times) && i <= j < |ledgers| && Tracked(ledgers[i], id)
    ensures Tracked(ledgers[j], id) && ledgers[j].born[id] == ledgers[i].born[id]
    ensures ledgers[i].history[id] <= ledgers[j].history[id]
  {
    if i < j {
      HistoryGrows(ledgers, calls, times, i, j - 1, id);
      RunKeepsKeys(ledgers, calls, times, j - 1);
      StepInRun(ledgers, calls, times, j - 1);
      StepGrowsHistory(ledgers[j - 1], calls[j - 1], times[j - 1], id);
    }
  }

  /** The entries are in the order of their times, none later than the latest call. */
  predicate InOrder(h: seq<Entry>, latest: int) {
    && (forall i, j | 0 <= i < j < |h| :: h[i].at <= h[j].at)
    && (forall i | 0 <= i < |h| :: h[i].at <= latest)
  }

  lemma OneEntryNow(q: Queue, c: Call, now: int, id: Id)
    requires id in q.jobs
    ensures var e := NewEntries(q, c, now, id); e == [] || (|e| == 1 && e[0].at == now)
  {
  }

  lemma InOrderExtends(h: seq<Entry>, latest: int, e: seq<Entry>, now: int)
    requires InOrder(h, latest) && latest <= now && (e == [] || (|e| == 1 && e[0].at == now))
    ensures InOrder(h + e, now)
  {
  }

  lemma BornWithoutHistory(l: Ledger, c: Call, now: int, id: Id)
    requires Admissible(l, c, now) && l.history.Keys == l.queue.jobs.Keys == l.born.Keys
    requires !Tracked(l, id) && Tracked(Step(l, c, now), id)
    ensures Step(l, c, now).history[id] == []
  {
  }

  function Latest(times: seq<int>, i: nat): int
    requires i <= |times|
  {
    if times == [] then 0 else if i == 0 then times[0] else times[i - 1]
  }

  lemma {:induction false} HistoryInOrder(ledgers: seq<Ledger>, calls: seq<Call>, times: seq<int>, i: nat, id: Id)
    requires IsRun(ledgers, calls, times) && Monotone(times) && i < |ledgers| && Tracked(ledgers[i], id)
    ensures InOrder(ledgers[i].history[id], Latest(times, i))
  {
    if i > 0 {
      var l, c, now := ledgers[i - 1], calls[i - 1], times[i - 1];
      RunKeepsKeys(ledgers, calls, times, i - 1);
      StepInRun(ledgers, calls, times, i - 1);
      if Tracked(l, id) {
        HistoryInOrder(ledgers, calls, times, i - 1, id);
        StepGrowsHistory(l, c, now, id);
        OneEntryNow(l.queue, c, now, id);
        InOrderExtends(l.history[id], Latest(times, i - 1), NewEntries(l.queue, c, now, id), now);
      } else {
        BornWithoutHistory(l, c, now, id);
      }
    }
  }

  lemma ClaimsDisjoint(h: seq<Entry>, first: int, a: nat, b: nat)
    requires Alternates(h, first) && a < b < |h| && h[a].Taken? && h[b].Taken?
    ensures h[a].attempt < h[b].attempt
    ensures a + 1 < b && h[a + 1].Released? && h[a + 1].attempt == h[a].attempt
    ensures h[a + 1].byHolder || h[a].until <= h[a + 1].at
  {
    assert a % 2 == 0 && b % 2 == 0 && a + 1 < b;
    assert h[a + 1].Taken? <==> (a + 1) % 2 == 0;
    assert h[a].attempt == first + a / 2 && h[a + 1].attempt == first + (a + 1) / 2 && h[b].attempt == first + b / 2;
  }

  /** Two claims of one job never overlap: before the second, the earlier holder gave the job up
      or the job was taken back once its lease had run out; and the tokens differ. */
  lemma LeasesDisjoint(ledgers: seq<Ledger>, calls: seq<Call>, times: seq<int>, i: nat, id: Id, a: nat, b: nat)
    requires IsRun(ledgers, calls, times) && i < |ledgers|
    requires Tracked(ledgers[i], id)
    requires a < b < |ledgers[i].history[id]|
    requires ledgers[i].history[id][a].Taken? && ledgers[i].history[id][b].Taken?
    ensures var h := ledgers[i].history[id];
            && h[a].attempt < h[b].attempt
            && h[a + 1].Released? && h[a + 1].attempt == h[a].attempt && a + 1 < b
            && (h[a + 1].byHolder || h[a].until <= h[a + 1].at)
            && (Monotone(times) ==> h[a + 1].at <= h[b].at)
  {
    RowInRun(ledgers, calls, times, i, id);
    var born, h := ledgers[i].born[id], ledgers[i].history[id];
    var g, d := Full(born, h), |Full(born, h)| - |h|;
    assert h[a] == g[a + d] && h[a + 1] == g[a + 1 + d] && h[b] == g[b + d];
    ClaimsDisjoint(g, FirstToken(born), a + d, b + d);
    if Monotone(times) { HistoryInOrder(ledgers, calls, times, i, id); }
  }

  lemma EndedIsStale(job: Job, h: seq<Entry>, born: Job, rows: nat, k: nat)
    requires JobFits(job, h, born, rows) && k < |h| && h[k].Released?
    ensures job.state == Running ==> h[k].attempt < job.attempts
  {
    assert h[k].Taken? <==> k % 2 == 0;
    assert h[k].attempt == FirstToken(born) + k / 2;
  }

  /** Once a claim has ended, its token is refused for the rest of the run. */
  lemma StaleForever(ledgers: seq<Ledger>, calls: seq<Call>, times: seq<int>, i: nat, j: nat, id: Id, k: nat)
    requires IsRun(ledgers, calls, times) && i <= j < |ledgers|
    requires Tracked(ledgers[i], id)
    requires k < |ledgers[i].history[id]| && ledgers[i].history[id][k].Released?
    ensures id in ledgers[j].queue.jobs
    ensures var token := ledgers[i].history[id][k].attempt; var q := ledgers[j].queue;
            !Owns(q, q.jobs[id].tenant, id, token)
  {
    HistoryGrows(ledgers, calls, times, i, j, id);
    RowInRun(ledgers, calls, times, j, id);
    var l, h := ledgers[j], ledgers[i].history[id];
    var g, d := Full(l.born[id], l.history[id]), |Full(l.born[id], [])|;
    assert h[k] == l.history[id][k] == g[k + d];
    EndedIsStale(l.queue.jobs[id], g, l.born[id], DoneRows(l.queue, id, l.born[id].tenant), k + d);
  }

  /** A worker that claimed a job reports on it later, whatever others did in between: its token
      is accepted exactly when nothing has happened to the job since the claim. */
  lemma WorkerReports(ledgers: seq<Ledger>, calls: seq<Call>, times: seq<int>, i: nat, j: nat, id: Id, now: int)
    requires IsRun(ledgers, calls, times) && i < j < |ledgers|
    requires calls[i].Claim? && id in calls[i].ids && Tracked(ledgers[i], id)
    ensures Tracked(ledgers[i + 1], id) && Tracked(ledgers[j], id)
    ensures var l := ledgers[j]; var tenant, token := l.queue.jobs[id].tenant, ledgers[i + 1].queue.jobs[id].attempts;
            && (Completed(l.queue, tenant, id, token).Success? <==> l.history[id] == ledgers[i + 1].history[id])
            && (Unfulfilled(l.queue, tenant, id, token, now).Success? <==> l.history[id] == ledgers[i + 1].history[id])
  {
    ClaimIsOnRecord(ledgers, calls, times, i, id);
    HistoryGrows(ledgers, calls, times, i + 1, j, id);
    TokenFence(ledgers, calls, times, j, id, ledgers[i + 1].queue.jobs[id].attempts, now);
    HeldSinceClaim(ledgers, calls, times, i + 1, j, id);
  }

  lemma ClaimIsOnRecord(ledgers: seq<Ledger>, calls: seq<Call>, times: seq<int>, i: nat, id: Id)
    requires IsRun(ledgers, calls, times) && i < |calls|
    requires calls[i].Claim? && id in calls[i].ids && Tracked(ledgers[i], id)
    ensures var n := ledgers[i + 1];
            Tracked(n, id) && n.history[id] != []
            && n.history[id][|n.history[id]| - 1].Taken?
  {
    RunKeepsKeys(ledgers, calls, times, i);
    StepInRun(ledgers, calls, times, i);
    StepGrowsHistory(ledgers[i], calls[i], times[i], id);
  }

  lemma HeldSinceClaim(ledgers: seq<Ledger>, calls: seq<Call>, times: seq<int>, i: nat, j: nat, id: Id)
    requires IsRun(ledgers, calls, times) && i <= j < |ledgers| && Tracked(ledgers[i], id) && Tracked(ledgers[j], id)
    requires ledgers[j].born[id] == ledgers[i].born[id]
    requires ledgers[i].history[id] <= ledgers[j].history[id]
    requires ledgers[i].history[id] != [] && ledgers[i].history[id][|ledgers[i].history[id]| - 1].Taken?
    ensures Holder(Full(ledgers[j].born[id], ledgers[j].history[id])) == Some(ledgers[i].queue.jobs[id].attempts)
            <==> ledgers[j].history[id] == ledgers[i].history[id]
  {
    RowInRun(ledgers, calls, times, i, id);
    RowInRun(ledgers, calls, times, j, id);
    var l, born := ledgers[i], ledgers[i].born[id];
    SameFull(born, l.history[id], ledgers[j].history[id]);
    HeldIffUnchanged(l.queue.jobs[id], Full(born, l.history[id]), Full(born, ledgers[j].history[id]), born,
      DoneRows(l.queue, id, born.tenant));
  }

  /** A longer history either ends in a release or in a later token. */
  lemma HeldIffUnchanged(job: Job, h: seq<Entry>, g: seq<Entry>, born: Job, rows: nat)
    requires JobFits(job, h, born, rows) && |h| % 2 == 1 && h <= g && Alternates(g, FirstToken(born))
    ensures Holder(g) == Some(job.attempts) <==> g == h
  {
    assert h[|h| - 1].attempt == FirstToken(born) + (|h| - 1) / 2;
    if Holder(g) == Some(job.attempts) { assert g[|g| - 1].attempt == FirstToken(born) + (|g| - 1) / 2; }
  }

  lemma SameFull(born: Job, h: seq<Entry>, g: seq<Entry>)
    ensures Full(born, h) == Full(born, g) <==> h == g
    ensures h <= g ==> Full(born, h) <= Full(born, g)
  {
    var first := Full(born, []);
    assert Full(born, h) == first + h && Full(born, g) == first + g;
    assert h == (first + h)[|first|..] && g == (first + g)[|first|..];
  }

  lemma StepAbsorbs(l: Ledger, c: Call, now: int, id: Id)
    requires Admissible(l, c, now) && id in l.queue.jobs && l.queue.jobs[id].state in {Done, Dead}
    ensures id in Step(l, c, now).queue.jobs && Step(l, c, now).queue.jobs[id] == l.queue.jobs[id]
  {
    CallOnJob(l.queue, c, now, id);
    if c.Claim? { assert id !in DueKeys(l.queue, c.tenant, now); }
  }

  /** Done and dead jobs never change again. */
  lemma {:induction false} Absorbing(ledgers: seq<Ledger>, calls: seq<Call>, times: seq<int>, i: nat, j: nat, id: Id)
    requires IsRun(ledgers, calls, times) && i <= j < |ledgers|
    requires id in ledgers[i].queue.jobs && ledgers[i].queue.jobs[id].state in {Done, Dead}
    ensures id in ledgers[j].queue.jobs && ledgers[j].queue.jobs[id] == ledgers[i].queue.jobs[id]
  {
    if i < j {
      Absorbing(ledgers, calls, times, i, j - 1, id);
      StepInRun(ledgers, calls, times, j - 1);
      StepAbsorbs(ledgers[j - 1], calls[j - 1], times[j - 1], id);
    }
  }

  /** A job created pending has one job_done row if it is done and none otherwise. */
  lemma OneDoneRow(ledgers: seq<Ledger>, calls: seq<Call>, times: seq<int>, i: nat, id: Id)
    requires IsRun(ledgers, calls, times) && i < |ledgers|
    requires Tracked(ledgers[i], id) && ledgers[i].born[id].state == Pending
    ensures var l := ledgers[i];
            DoneRows(l.queue, id, l.queue.jobs[id].tenant) == if l.queue.jobs[id].state == Done then 1 else 0
  {
    RowInRun(ledgers, calls, times, i, id);
  }

  // ---- attempts against the maximum ----

  /** The job was never taken back on its last attempt and claimed again after that. */
  ghost predicate SparedAtMaximum(h: seq<Entry>, maximum: int) {
    !exists k :: 0 <= k < |h| - 1 && h[k].Released? && !h[k].byHolder && h[k].attempt == maximum
  }

  lemma SparedInFull(born: Job, h: seq<Entry>, maximum: int)
    ensures SparedAtMaximum(Full(born, h), maximum) <==> SparedAtMaximum(h, maximum)
  {
    var g, d := Full(born, h), |Full(born, h)| - |h|;
    assert forall k | 0 <= k < |h| :: g[k + d] == h[k];
    assert forall k | d <= k < |g| :: g[k] == h[k - d];
  }

  lemma MaximumIff(job: Job, h: seq<Entry>, born: Job, rows: nat)
    requires JobFits(job, h, born, rows) && FirstToken(born) <= born.maxAttempts
    ensures job.attempts <= job.maxAttempts <==> SparedAtMaximum(h, job.maxAttempts)
  {
    var k := 2 * (job.maxAttempts - FirstToken(born)) + 1;
    assert k / 2 == job.maxAttempts - FirstToken(born) && k % 2 == 1;
    if job.attempts > job.maxAttempts {
      assert k < |h| - 1 && h[k].Released? && h[k].attempt == job.maxAttempts;
    }
  }

  /** For a job inserted with an attempt to spare, or running on one within the maximum: attempts stay
      within the maximum if and only if the job was never reclaimed on its last attempt and then claimed
      again: the one case ReclaimJobs does not guard against. */
  lemma AttemptsWithinMaximum(ledgers: seq<Ledger>, calls: seq<Call>, times: seq<int>, i: nat, id: Id)
    requires IsRun(ledgers, calls, times) && i < |ledgers| && Tracked(ledgers[i], id)
    requires FirstToken(ledgers[i].born[id]) <= ledgers[i].born[id].maxAttempts
    ensures var job := ledgers[i].queue.jobs[id];
            job.attempts <= job.maxAttempts <==> SparedAtMaximum(ledgers[i].history[id], job.maxAttempts)
  {
    RowInRun(ledgers, calls, times, i, id);
    var l := ledgers[i];
    SparedInFull(l.born[id], l.history[id], l.queue.jobs[id].maxAttempts);
    MaximumIff(l.queue.jobs[id], Full(l.born[id], l.history[id]), l.born[id], DoneRows(l.queue, id, l.born[id].tenant));
  }

  /** In any case they stay within the maximum plus the number of times the job was reclaimed. */
  lemma AttemptsBound(ledgers: seq<Ledger>, calls: seq<Call>, times: seq<int>, i: nat, id: Id)
    requires IsRun(ledgers, calls, times) && i < |ledgers|
    requires Tracked(ledgers[i], id)
    requires ledgers[i].born[id].state in {Pending, Failed}
             && ledgers[i].born[id].attempts < ledgers[i].born[id].maxAttempts
    ensures var l := ledgers[i]; l.queue.jobs[id].attempts <= l.queue.jobs[id].maxAttempts + Reclaims(l.history[id])
  {
    RowInRun(ledgers, calls, times, i, id);
  }

  lemma EmptyRun()
    ensures IsRun([EMPTY], [], [])
  {
  }

  lemma RunExtends(ledgers: seq<Ledger>, calls: seq<Call>, times: seq<int>, c: Call, now: int)
    requires IsRun(ledgers, calls, times) && Admissible(ledgers[|ledgers| - 1], c, now)
    ensures IsRun(ledgers + [Step(ledgers[|ledgers| - 1], c, now)], calls + [c], times + [now])
  {
    var ls, cs, ts := ledgers + [Step(ledgers[|ledgers| - 1], c, now)], calls + [c], times + [now];
    forall i | 0 <= i < |cs| ensures StepAt(ls, cs, ts, i) {
      if i < |calls| { assert StepAt(ledgers, calls, times, i); }
    }
  }

  const BRIEF := Job("t", Pending, "", 0, 1, 0, None)

  function Briefly(state: JobState, attempts: int, until: Option<int>): Queue {
    Queue(map["j" := BRIEF.(state := state, attempts := attempts, leaseUntil := until)], [])
  }

  lemma CreateBriefly()
    ensures Admissible(EMPTY, Create("j", BRIEF), 0) && Step(EMPTY, Create("j", BRIEF), 0).queue
            == Briefly(Pending, 0, None)
  {
  }

  lemma ClaimBriefly(l: Ledger, state: JobState, attempts: int, now: int)
    requires l.history.Keys == l.queue.jobs.Keys && l.queue == Briefly(state, attempts, None)
             && state in {Pending, Failed} && now >= 0
    ensures Admissible(l, Claim("t", 1, 5, ["j"]), now)
    ensures Step(l, Claim("t", 1, 5, ["j"]), now).queue == Briefly(Running, attempts + 1, Some(now + 5))
  {
    assert DueKeys(l.queue, "t", now) == map["j" := 0];
    assert Claimed(l.queue, ["j"], now + 5).jobs == Briefly(Running, attempts + 1, Some(now + 5)).jobs;
  }

  lemma ReclaimBriefly(l: Ledger)
    requires l.history.Keys == l.queue.jobs.Keys && l.queue == Briefly(Running, 1, Some(5))
    ensures Admissible(l, Reclaim("t"), 5) && Step(l, Reclaim("t"), 5).queue == Briefly(Failed, 1, None)
  {
    assert Reclaimed(l.queue, "t", 5).jobs == Briefly(Failed, 1, None).jobs;
  }

  lemma KeysAgree(ledgers: seq<Ledger>, calls: seq<Call>, times: seq<int>)
    requires IsRun(ledgers, calls, times)
    ensures var l := ledgers[|ledgers| - 1]; l.history.Keys == l.queue.jobs.Keys
  {
    RunKeepsKeys(ledgers, calls, times, |ledgers| - 1);
  }

  lemma Extended(ledgers: seq<Ledger>, calls: seq<Call>, times: seq<int>, c: Call, now: int, q: Queue)
    returns (ls: seq<Ledger>, cs: seq<Call>, ts: seq<int>)
    requires IsRun(ledgers, calls, times) && Admissible(ledgers[|ledgers| - 1], c, now)
    requires Step(ledgers[|ledgers| - 1], c, now).queue == q
    ensures IsRun(ls, cs, ts) && cs == calls + [c] && ts == times + [now]
    ensures var last := ls[|ls| - 1]; last.queue == q && last.history.Keys == last.queue.jobs.Keys
  {
    RunExtends(ledgers, calls, times, c, now);
    ls, cs, ts := ledgers + [Step(ledgers[|ledgers| - 1], c, now)], calls + [c], times + [now];
    KeysAgree(ls, cs, ts);
  }

  lemma BriefRun() returns (ledgers: seq<Ledger>, calls: seq<Call>, times: seq<int>)
    ensures IsRun(ledgers, calls, times) && calls == [Create("j", BRIEF)] && times == [0]
    ensures var last := ledgers[|ledgers| - 1];
            last.queue == Briefly(Pending, 0, None) && last.history.Keys == last.queue.jobs.Keys
  {
    EmptyRun();
    CreateBriefly();
    ledgers, calls, times := Extended([EMPTY], [], [], Create("j", BRIEF), 0, Briefly(Pending, 0, None));
  }

  lemma ClaimedRun() returns (ledgers: seq<Ledger>, calls: seq<Call>, times: seq<int>)
    ensures IsRun(ledgers, calls, times) && calls == [Create("j", BRIEF), Claim("t", 1, 5, ["j"])] && times == [0, 0]
    ensures var last := ledgers[|ledgers| - 1];
            last.queue == Briefly(Running, 1, Some(5)) && last.history.Keys == last.queue.jobs.Keys
  {
    ledgers, calls, times := BriefRun();
    ClaimBriefly(ledgers[|ledgers| - 1], Pending, 0, 0);
    ledgers, calls, times := Extended(ledgers, calls, times, Claim("t", 1, 5, ["j"]), 0, Briefly(Running, 1, Some(5)));
  }

  lemma ReclaimedRun() returns (ledgers: seq<Ledger>, calls: seq<Call>, times: seq<int>)
    ensures IsRun(ledgers, calls, times)
    ensures calls == [Create("j", BRIEF), Claim("t", 1, 5, ["j"]), Reclaim("t")] && times == [0, 0, 5]
    ensures var last := ledgers[|ledgers| - 1];
            last.queue == Briefly(Failed, 1, None) && last.history.Keys == last.queue.jobs.Keys
  {
    ledgers, calls, times := ClaimedRun();
    ReclaimBriefly(ledgers[|ledgers| - 1]);
    ledgers, calls, times := Extended(ledgers, calls, times, Reclaim("t"), 5, Briefly(Failed, 1, None));
  }

  /** The bare maximum is not a bound: a run from the empty queue in which a job allowed one
      attempt is created, claimed, reclaimed once its lease has lapsed, and claimed again. */
  lemma ReclaimExceedsMaximum() returns (ledgers: seq<Ledger>, calls: seq<Call>, times: seq<int>)
    ensures IsRun(ledgers, calls, times) && times == [0, 0, 5, 5]
    ensures calls == [Create("j", BRIEF), Claim("t", 1, 5, ["j"]), Reclaim("t"), Claim("t", 1, 5, ["j"])]
    ensures var jobs := ledgers[4].queue.jobs; "j" in jobs && jobs["j"].maxAttempts == 1 && jobs["j"].attempts == 2
  {
    ledgers, calls, times := ReclaimedRun();
    ClaimBriefly(ledgers[|ledgers| - 1], Failed, 1, 5);
    ledgers, calls, times := Extended(ledgers, calls, times, Claim("t", 1, 5, ["j"]), 5, Briefly(Running, 2, Some(10)));
  }

  // ---- the store's calls are the steps of a run ----

  /** The queue behind any number of workers. */
  class Runtime {
    const store: RuntimeStore
    ghost var ledgers: seq<Ledger>
    ghost var calls: seq<Call>
    ghost var times: seq<int>

    ghost predicate Valid()
      reads this, store
    {
      |ledgers| > 0 && IsRun(ledgers, calls, times) && ledgers[|ledgers| - 1].queue == store.Contents()
    }

    constructor ()
      ensures Valid() && fresh(store)
    {
      store := new RuntimeStore();
      ledgers, calls, times := [EMPTY], [], [];
    }

    /** Any call by any worker, with any token and any reading of the clock. */
    method Serve(c: Call, now: int)
      requires Valid()
      modifies this, store
      ensures Valid() && |calls| == |old(calls)| + 1 && calls[..|old(calls)|] == old(calls)
              && times == old(times) + [now]
      ensures !c.Claim? ==> calls[|old(calls)|] == c
      ensures c.Claim? ==> calls[|old(calls)|].Claim? && calls[|old(calls)|] == c.(ids := calls[|old(calls)|].ids)
    {
      KeysAgree(ledgers, calls, times);
      ghost var l := ledgers[|ledgers| - 1];
      ghost var f := Dispatch(store, c, now, l);
      RunExtends(ledgers, calls, times, f, now);
      ledgers, calls, times := ledgers + [Step(l, f, now)], calls + [f], times + [now];
    }
  }

  method Dispatch(store: RuntimeStore, c: Call, now: int, ghost l: Ledger) returns (ghost f: Call)
    requires l.queue == store.Contents() && l.history.Keys == l.queue.jobs.Keys
    modifies store
    ensures Admissible(l, f, now) && store.Contents() == Step(l, f, now).queue
    ensures if c.Claim? then f.Claim? && f == c.(ids := f.ids) else f == c
  {
    if c.Claim? {
      ghost var ids := DispatchClaim(store, c.tenant, now, c.limit, c.lease);
      f := Claim(c.tenant, c.limit, c.lease, ids);
    } else {
      f := c;
      DispatchOther(store, c, now);
    }
  }

  method DispatchClaim(store: RuntimeStore, tenant: Id, now: int, limit: int, lease: int) returns (ghost ids: seq<Id>)
    modifies store
    ensures IsFirst(DueKeys(old(store.Contents()), tenant, now), Limit(limit), ids)
    ensures store.Contents() == Claimed(old(store.Contents()), ids, now + lease)
  {
    var taken := store.ClaimJobs(tenant, now, limit, lease);
    ids := seq(|taken|, i requires 0 <= i < |taken| => taken[i].0);
  }

  method DispatchOther(store: RuntimeStore, c: Call, now: int)
    requires !c.Claim?
    modifies store
    ensures store.Contents() == TablesAfter(old(store.Contents()), c, now)
  {
    match c {
      case Create(id, job) => var created := store.CreateJob(id, job);
      case Complete(tenant, id, attempt) => var completed := store.CompleteJob(tenant, id, attempt);
      case Fail(tenant, id, attempt) => var failed := store.FailJob(tenant, id, attempt, now);
      case Reclaim(tenant) => var count := store.ReclaimJobs(tenant, now);
    }
  }
}
