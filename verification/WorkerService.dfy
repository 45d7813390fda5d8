/** One pass of the background worker, statement by statement (internal/worker/worker.go,
    internal/storage/sqlite/jobs.go). */
module WorkerService {
  import opened Basics
  import opened Domain
  import opened Commands
  import opened Selection
  import opened Records
  import opened Storage

  /** ORDER BY key LIMIT limit; any order among equals would do. */
  method SelectEarliest(keys: map<Id, int>, limit: nat) returns (rows: seq<Id>)
    ensures IsEarliest(keys, limit, Members(rows)) && NoneTwice(rows)
    ensures forall k | k in rows :: k in keys
  {
    rows := TakeFirst(keys, limit);
    FirstIsEarliest(keys, limit, rows);
    assert Members(rows) == set k | k in rows;
  }

  // ---- the sweep ----

  ghost predicate SweptSoFar(before: map<Id, CatchLandingTask>, after: map<Id, CatchLandingTask>, done: seq<Id>,
                             note: string, now: int)
  {
    after.Keys == before.Keys && forall t | t in before :: after[t] == if t in done
      then ExpiredAs(before[t], note, now) else before[t]
  }

  lemma SweepNext(before: map<Id, CatchLandingTask>, after: map<Id, CatchLandingTask>, done: seq<Id>, t: Id,
                  note: string, now: int)
    requires SweptSoFar(before, after, done, note, now) && t in before && t !in done
    ensures SweptSoFar(before, after[t := ExpiredAs(before[t], note, now)], done + [t], note, now)
  {
  }

  lemma AllSwept(before: map<Id, CatchLandingTask>, after: map<Id, CatchLandingTask>, done: seq<Id>, now: int)
    requires SweptSoFar(before, after, done, EXPIRY_NOTE, now)
    ensures after == SweptTasks(before, Members(done), now)
  {
  }

  /** One overdue task is resolved as expired; the UPDATE asks for the version read and a pending row. */
  method ExpireTask(store: Store, t: Id, note: string, now: int)
    requires t in store.db.tasks && store.db.tasks[t].status == TaskStatus.Pending && TrimSpace(note) == note
    modifies store
    ensures store.db == old(store.db).(tasks := old(store.db).tasks[t := ExpiredAs(old(store.db).tasks[t], note, now)])
  {
    var task := new TaskRecord(store.db.tasks[t]);
    var expected := task.row.version;
    var resolved := task.Resolve(TaskStatus.Expired, note, now);
    assert resolved.Success?;
    var updated := store.UpdateCatchLandingTask(t, task.row, expected);
    assert updated.Success?;
  }

  lemma NoteIsTrimmed()
    ensures TrimSpace(EXPIRY_NOTE) == EXPIRY_NOTE
  {
    assert EXPIRY_NOTE[0] == 'c' && EXPIRY_NOTE[|EXPIRY_NOTE| - 1] == 'e';
    TrimFixed(EXPIRY_NOTE);
  }

  method SweepAll(store: Store, rows: seq<Id>, note: string, now: int)
    requires NoneTwice(rows) && TrimSpace(note) == note
    requires forall t | t in rows :: t in store.db.tasks && store.db.tasks[t].status == TaskStatus.Pending
    modifies store
    ensures store.db == old(store.db).(tasks := store.db.tasks)
            && SweptSoFar(old(store.db).tasks, store.db.tasks, rows, note, now)
  {
    ghost var w := store.db;
    for i := 0 to |rows|
      invariant store.db == w.(tasks := store.db.tasks)
      invariant SweptSoFar(w.tasks, store.db.tasks, rows[..i], note, now)
    {
      var t := rows[i];
      assert t !in rows[..i] && rows[..i + 1] == rows[..i] + [t];
      SweepNext(w.tasks, store.db.tasks, rows[..i], t, note, now);
      ExpireTask(store, t, note, now);
    }
    assert rows[..|rows|] == rows;
  }

  method ExpireCatchLandingTasks(store: Store, now: int, limit: nat) returns (expired: seq<Id>)
    modifies store
    ensures IsEarliest(Overdue(old(store.db).tasks, now), limit, Members(expired))
    ensures store.db == old(store.db).(tasks := SweptTasks(old(store.db).tasks, Members(expired), now))
  {
    var due := Overdue(store.db.tasks, now);
    expired := SelectEarliest(due, limit);
    NoteIsTrimmed();
    ghost var before := store.db.tasks;
    SweepAll(store, expired, EXPIRY_NOTE, now);
    AllSwept(before, store.db.tasks, expired, now);
  }

  // ---- the claim ----

  ghost predicate ClaimedSoFar(before: map<Id, OutboxJob>, after: map<Id, OutboxJob>, done: seq<Id>, now: int) {
    after.Keys == before.Keys && forall j | j in before :: after[j] == if j in done then Claimed(before[j], now)
      else before[j]
  }

  lemma ClaimNext(before: map<Id, OutboxJob>, after: map<Id, OutboxJob>, done: seq<Id>, j: Id, now: int)
    requires ClaimedSoFar(before, after, done, now) && j in before && j !in done
    ensures ClaimedSoFar(before, after[j := Claimed(before[j], now)], done + [j], now)
  {
  }

  method ClaimAll(store: Store, rows: seq<Id>, now: int)
    requires NoneTwice(rows) && forall j | j in rows :: j in store.db.jobs
    modifies store
    ensures store.db == old(store.db).(jobs := store.db.jobs)
            && ClaimedSoFar(old(store.db).jobs, store.db.jobs, rows, now)
  {
    ghost var w := store.db;
    for i := 0 to |rows|
      invariant store.db == w.(jobs := store.db.jobs)
      invariant ClaimedSoFar(w.jobs, store.db.jobs, rows[..i], now)
    {
      var j := rows[i];
      assert j !in rows[..i] && rows[..i + 1] == rows[..i] + [j];
      ClaimNext(w.jobs, store.db.jobs, rows[..i], j, now);
      var job := store.db.jobs[j];
      job := job.(status := Running);
      job := job.(attempts := job.attempts + 1);
      job := job.(lockedAt := Some(now));
      job := job.(claimedAt := job.claimedAt + [now]);
      store.db := store.db.(jobs := store.db.jobs[j := job]);
    }
    assert rows[..|rows|] == rows;
  }

  method ClaimJobs(store: Store, now: int, limit: nat) returns (claimed: seq<Id>)
    modifies store
    ensures IsEarliest(Ready(old(store.db).jobs, now), limit, Members(claimed))
    ensures NoneTwice(claimed) && forall j | j in claimed :: j in old(store.db).jobs
    ensures store.db == old(store.db).(jobs := store.db.jobs)
            && ClaimedSoFar(old(store.db).jobs, store.db.jobs, claimed, now)
  {
    var ready := Ready(store.db.jobs, now);
    claimed := SelectEarliest(ready, limit);
    ClaimAll(store, claimed, now);
  }

  // ---- processing ----

  /** processJob: the payload is decoded even for planning jobs, but only review jobs mind. */
  method ProcessJob(job: OutboxJob) returns (failed: bool)
    ensures failed == !Deliverable(job.kind, job.payload)
  {
    match job.kind
    case OtherKind(_) => return true;
    case _ =>
      var decoded := true;
      match job.payload {
        case Empty =>
        case BareId(text) => if |text| > 0 { decoded := DecodesAsString(text); }
        case VoyageBody(_) => decoded := false;
      }
      return !decoded && job.kind == AnomalyReview;
  }

  method CompleteJob(store: Store, j: Id) returns (r: Result<()>)
    modifies store
    ensures r == if j in old(store.db).jobs && old(store.db).jobs[j].status == Running then Success(())
            else Failure(VersionConflict)
    ensures var jobs := old(store.db).jobs;
            store.db == if r.Failure? then old(store.db)
                        else old(store.db).(jobs := jobs[j := jobs[j].(status := Succeeded, lockedAt := None)])
  {
    if j !in store.db.jobs || store.db.jobs[j].status != Running { return Failure(VersionConflict); }
    store.db := store.db.(jobs := store.db.jobs[j := store.db.jobs[j].(status := Succeeded, lockedAt := None)]);
    return Success(());
  }

  method RetryJob(store: Store, j: Id, availableAt: int, dead: bool) returns (r: Result<()>)
    modifies store
    ensures r == if j in old(store.db).jobs && old(store.db).jobs[j].status == Running then Success(())
            else Failure(VersionConflict)
    ensures store.db == if r.Failure? then old(store.db)
                        else old(store.db).(jobs := old(store.db).jobs[j := old(store.db).jobs[j].(
                               status := if dead then Dead else Failed, availableAt := availableAt, lockedAt := None)])
  {
    if j !in store.db.jobs || store.db.jobs[j].status != Running { return Failure(VersionConflict); }
    var status := Failed;
    if dead { status := Dead; }
    store.db := store.db.(jobs := store.db.jobs[j := store.db.jobs[j].(status := status, availableAt := availableAt,
      lockedAt := None)]);
    return Success(());
  }

  /** The loop body of RunOnce: one claimed job is completed, or put back with a backoff, or buried. */
  method SettleJob(store: Store, j: Id, ghost was: OutboxJob, now: int)
    requires j in store.db.jobs && store.db.jobs[j] == Claimed(was, now)
    modifies store
    ensures store.db == old(store.db).(jobs := old(store.db).jobs[j := Processed(was, now)])
  {
    var job := store.db.jobs[j];
    var failed := ProcessJob(job);
    if failed {
      var dead := job.attempts >= job.maxAttempts;
      var backoff := job.attempts * job.attempts;
      var retried := RetryJob(store, j, now + backoff, dead);
      assert retried.Success?;
    } else {
      var completed := CompleteJob(store, j);
      assert completed.Success?;
    }
  }

  ghost predicate SettledSoFar(before: map<Id, OutboxJob>, after: map<Id, OutboxJob>, claimed: seq<Id>,
                               done: seq<Id>, now: int)
  {
    && after.Keys == before.Keys
    && forall j | j in before :: after[j] == if j in done then Processed(before[j], now)
                                             else if j in claimed then Claimed(before[j], now) else before[j]
  }

  lemma SettleNext(before: map<Id, OutboxJob>, after: map<Id, OutboxJob>, claimed: seq<Id>, done: seq<Id>, j: Id,
                   now: int)
    requires SettledSoFar(before, after, claimed, done, now) && j in before && j in claimed && j !in done
    ensures after[j] == Claimed(before[j], now)
    ensures SettledSoFar(before, after[j := Processed(before[j], now)], claimed, done + [j], now)
  {
  }

  lemma AllSettled(before: map<Id, OutboxJob>, after: map<Id, OutboxJob>, claimed: seq<Id>, now: int)
    requires SettledSoFar(before, after, claimed, claimed, now)
    ensures after == ProcessedJobs(before, Members(claimed), now)
  {
  }

  method SettleJobs(store: Store, claimed: seq<Id>, ghost before: map<Id, OutboxJob>, now: int)
    requires ClaimedSoFar(before, store.db.jobs, claimed, now) && NoneTwice(claimed)
    requires forall j | j in claimed :: j in before
    modifies store
    ensures store.db == old(store.db).(jobs := ProcessedJobs(before, Members(claimed), now))
  {
    ghost var w := store.db;
    for n := 0 to |claimed|
      invariant store.db == w.(jobs := store.db.jobs)
      invariant SettledSoFar(before, store.db.jobs, claimed, claimed[..n], now)
    {
      var j := claimed[n];
      assert j !in claimed[..n] && claimed[..n + 1] == claimed[..n] + [j];
      SettleNext(before, store.db.jobs, claimed, claimed[..n], j, now);
      SettleJob(store, j, before[j], now);
    }
    assert claimed[..|claimed|] == claimed;
    AllSettled(before, store.db.jobs, claimed, now);
  }

  /** One committed pass: sweep, claim, settle. It does what WorkerPass says for some answer of
      its two LIMIT queries. */
  method RunOnce(store: Store, batch: nat, now: int)
    modifies store
    ensures exists sweep, claim ::
              && IsEarliest(Overdue(old(store.db).tasks, now), batch, sweep)
              && IsEarliest(Ready(old(store.db).jobs, now), batch, claim)
              && store.db == WorkerPass(old(store.db), sweep, claim, now)
  {
    ghost var w := store.db;
    var expired := ExpireCatchLandingTasks(store, now, batch);
    var claimed := ClaimJobs(store, now, batch);
    ghost var claim := Members(claimed);
    SettleJobs(store, claimed, w.jobs, now);
    assert store.db == WorkerPass(w, Members(expired), claim, now);
  }
}
