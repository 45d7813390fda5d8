/** What each call of internal/runtimeops answers and leaves in its tables, on the columns. */
module RuntimeAnswers {
  import opened Basics
  import Selection
  import Leases
  import SlotPermits
  import EventBatches

  // ---- the lease queue ----

  predicate Holds(q: Leases.Queue, tenant: string, id: string, attempt: int) {
    id in q.jobs && q.jobs[id].tenant == tenant && q.jobs[id].state == Leases.Running && q.jobs[id].attempts == attempt
  }

  /** A job is inserted as given but for its lease, which is empty; a taken identifier is refused. */
  lemma CreateJobAnswers(q: Leases.Queue, id: string, job: Leases.Job)
    ensures Leases.Created(q, id, job) ==
            if id in q.jobs then Failure(Constraint)
            else Success(Leases.Queue(q.jobs[id := Leases.Job(job.tenant, job.state, job.payload, job.attempts,
                                                              job.maxAttempts, job.availableAt, None)], q.outbox))
  {
  }

  predicate Waits(q: Leases.Queue, tenant: string, now: int, id: string) {
    && id in q.jobs && q.jobs[id].tenant == tenant && q.jobs[id].state in {Leases.Pending, Leases.Failed}
    && q.jobs[id].availableAt <= now && (q.jobs[id].leaseUntil == None || q.jobs[id].leaseUntil.value <= now)
  }

  predicate Sooner(q: Leases.Queue, a: string, b: string)
    requires a in q.jobs && b in q.jobs
  {
    q.jobs[a].availableAt < q.jobs[b].availableAt || (q.jobs[a].availableAt == q.jobs[b].availableAt && Before(a, b))
  }

  /** What a claim returns: of the tenant's pending and failed jobs that are available and under no
      running lease, the first by availability and identifier, as many as there are up to the limit. */
  lemma ClaimTakesTheDue(q: Leases.Queue, tenant: string, now: int, limit: int, ids: seq<string>)
    requires Selection.IsFirst(Leases.DueKeys(q, tenant, now), Leases.Limit(limit), ids)
    ensures forall id | id in ids :: Waits(q, tenant, now, id)
    ensures forall i, j | 0 <= i < j < |ids| :: Sooner(q, ids[i], ids[j])
    ensures forall i, id | 0 <= i < |ids| && Waits(q, tenant, now, id) && id !in ids :: Sooner(q, ids[i], id)
    ensures |ids| <= if limit < 1 then 1 else limit
    ensures (exists id :: Waits(q, tenant, now, id) && id !in ids) ==> |ids| == if limit < 1 then 1 else limit
  {
    var due := Leases.DueKeys(q, tenant, now);
    forall id ensures id in due <==> Waits(q, tenant, now, id) {}
    forall i, j | 0 <= i < j < |ids| ensures Sooner(q, ids[i], ids[j]) {
      assert Selection.Precedes(due, ids[i], ids[j]);
    }
    forall i, id | 0 <= i < |ids| && id in due && id !in ids ensures Sooner(q, ids[i], id) {
      assert Selection.Precedes(due, ids[i], id);
    }
    if id :| id in due && id !in ids && |ids| == |due| { AllTaken(due, ids, id); }
  }

  lemma AllTaken(due: map<string, int>, ids: seq<string>, id: string)
    requires Selection.IsFirst(due, |ids|, ids) && |ids| == |due| && id in due
    ensures id in ids
  {
    Selection.DistinctSize(due, ids);
    var taken := set k | k in ids;
    if id !in ids { SubsetSize(taken, due.Keys - {id}); }
  }

  /** Claimed rows run under a new attempt number until the lease ends; others are as they were. */
  lemma ClaimOnRows(q: Leases.Queue, ids: seq<string>, until: int)
    ensures var n := Leases.Claimed(q, ids, until);
            && n.outbox == q.outbox && n.jobs.Keys == q.jobs.Keys
            && forall id | id in q.jobs ::
                 var job := q.jobs[id];
                 n.jobs[id] == if id in ids
                               then job.(state := Leases.Running, attempts := job.attempts + 1,
                                 leaseUntil := Some(until))
                               else job
  {
  }

  lemma CompleteAnswers(q: Leases.Queue, tenant: string, id: string, attempt: int)
    ensures Leases.Completed(q, tenant, id, attempt) ==
            if !Holds(q, tenant, id, attempt) then Failure(Conflict)
            else Success(Leases.Queue(q.jobs[id := q.jobs[id].(state := Leases.Done, leaseUntil := None)],
                                      q.outbox + [Leases.OutboxRow(tenant, id, "job_done")]))
  {
  }

  /** A failed attempt waits a minute per attempt, or is dead at the maximum. */
  lemma FailAnswers(q: Leases.Queue, tenant: string, id: string, attempt: int, now: int)
    ensures Leases.Unfulfilled(q, tenant, id, attempt, now) ==
            if !Holds(q, tenant, id, attempt) then Failure(NotFound)
            else Success(Leases.Queue(
                   q.jobs[id := q.jobs[id].(state := if attempt >= q.jobs[id].maxAttempts then Leases.Dead
                     else Leases.Failed,
                                            availableAt := now + 60 * attempt, leaseUntil := None)], q.outbox))
  {
  }

  lemma ReclaimOnRows(q: Leases.Queue, tenant: string, now: int)
    ensures var n := Leases.Reclaimed(q, tenant, now);
            && n.outbox == q.outbox && n.jobs.Keys == q.jobs.Keys
            && forall id | id in q.jobs ::
                 var job := q.jobs[id];
                 n.jobs[id] == if job.tenant == tenant && job.state == Leases.Running && job.leaseUntil != None
                                  && job.leaseUntil.value <= now
                               then job.(state := Leases.Failed, leaseUntil := None) else job
  {
  }

  // ---- permits ----

  predicate SlotTaken(o: SlotPermits.Office, tenant: string, slot: string) {
    exists k :: k in o.permits && o.permits[k].tenant == tenant && o.permits[k].slot == slot
                && o.permits[k].state == SlotPermits.Executing
  }

  lemma SlotAnswers(o: SlotPermits.Office, tenant: string, slot: string)
    ensures SlotPermits.Occupied(o.permits, tenant, slot) <==> SlotTaken(o, tenant, slot)
  {
    var occupants := SlotPermits.Occupants(o.permits, tenant, slot);
    if k :| k in o.permits && o.permits[k].tenant == tenant && o.permits[k].slot == slot
            && o.permits[k].state == SlotPermits.Executing {
      assert k in occupants;
    }
    if |occupants| > 0 {
      var k :| k in occupants;
    }
  }

  predicate Stands(o: SlotPermits.Office, tenant: string, id: string, expected: int,
                   states: set<SlotPermits.PermitState>) {
    id in o.permits && o.permits[id].tenant == tenant && o.permits[id].version == expected
      && o.permits[id].state in states
  }

  function Turned(o: SlotPermits.Office, id: string, state: SlotPermits.PermitState): SlotPermits.Permit
    requires id in o.permits
  {
    SlotPermits.Permit(o.permits[id].tenant, o.permits[id].slot, state, o.permits[id].version + 1)
  }

  lemma CreatePermitAnswers(o: SlotPermits.Office, id: string, p: SlotPermits.Permit)
    ensures SlotPermits.Created(o, id, p) ==
            if id in o.permits || (p.state == SlotPermits.Executing && SlotTaken(o, p.tenant, p.slot))
              then Failure(Constraint)
            else Success(SlotPermits.Office(o.permits[id := p], o.audit, o.outbox))
  {
    SlotAnswers(o, p.tenant, p.slot);
  }

  lemma ApproveAnswers(o: SlotPermits.Office, tenant: string, id: string, expected: int)
    ensures SlotPermits.ApprovedBy(o, tenant, id, expected) ==
            if !Stands(o, tenant, id, expected, {SlotPermits.Pending}) then Failure(Conflict)
            else Success(SlotPermits.Office(o.permits[id := Turned(o, id, SlotPermits.Approved)],
                                            o.audit + [SlotPermits.Row(tenant, id, SlotPermits.PermitApproved)],
                                              o.outbox))
  {
  }

  lemma ExecuteAnswers(o: SlotPermits.Office, tenant: string, id: string, expected: int)
    ensures SlotPermits.ExecutedBy(o, tenant, id, expected) ==
            if id !in o.permits || o.permits[id].tenant != tenant then Failure(NotFound)
            else if !Stands(o, tenant, id, expected, {SlotPermits.Approved}) || SlotTaken(o, tenant, o.permits[id].slot)
            then Failure(Conflict)
            else Success(SlotPermits.Office(o.permits[id := Turned(o, id, SlotPermits.Executing)], o.audit,
                                            o.outbox + [SlotPermits.Row(tenant, id, SlotPermits.PermitExecuting)]))
  {
    if id in o.permits { SlotAnswers(o, tenant, o.permits[id].slot); }
  }

  lemma CancelPermitAnswers(o: SlotPermits.Office, tenant: string, id: string, expected: int)
    ensures SlotPermits.CancelledBy(o, tenant, id, expected) ==
            if !Stands(o, tenant, id, expected, {SlotPermits.Pending, SlotPermits.Approved}) then Failure(Conflict)
            else Success(SlotPermits.Office(o.permits[id := Turned(o, id, SlotPermits.Cancelled)], o.audit,
                                            o.outbox + [SlotPermits.Row(tenant, id, SlotPermits.PermitCancelled)]))
  {
  }

  // ---- event batches ----

  predicate Collects(l: EventBatches.Log, tenant: string, id: string) {
    id in l.batches && l.batches[id].tenant == tenant && l.batches[id].state == EventBatches.Collecting
  }

  lemma CreateBatchAnswers(l: EventBatches.Log, tenant: string, id: string, state: EventBatches.BatchState)
    ensures EventBatches.Created(l, tenant, id, state) ==
            if id in l.batches then Failure(Constraint)
            else Success(EventBatches.Log(l.batches[id := EventBatches.Batch(tenant, state, 0)], l.events))
  {
  }

  lemma RecordAnswers(l: EventBatches.Log, tenant: string, id: string, e: EventBatches.Event)
    ensures EventBatches.Recorded(l, tenant, id, e) ==
            if e.batch !in l.batches || l.batches[e.batch].tenant != tenant then Failure(NotFound)
            else if l.batches[e.batch].state != EventBatches.Collecting then Failure(Conflict)
            else if (tenant, id) in l.events then Failure(Constraint)
            else var b := l.batches[e.batch];
                 Success(EventBatches.Log(l.batches[e.batch := EventBatches.Batch(b.tenant, b.state, b.eventCount + 1)],
                                          l.events[(tenant, id) := e]))
  {
  }

  /** A batch closes when it collects and no event of it, of its tenant, waits to be classified. */
  lemma CloseAnswers(l: EventBatches.Log, tenant: string, id: string)
    ensures EventBatches.ClosedBatch(l, tenant, id) ==
            if !Collects(l, tenant, id) then Failure(Conflict)
            else if exists k :: k in l.events && k.0 == tenant && l.events[k].batch == id
                                && l.events[k].status == EventBatches.Unclassified then Failure(Conflict)
            else Success(EventBatches.Log(
                   l.batches[id := EventBatches.Batch(tenant, EventBatches.Closed, l.batches[id].eventCount)],
                     l.events))
  {
    if k :|
      k in l.events && k.0 == tenant && l.events[k].batch == id && l.events[k].status == EventBatches.Unclassified
    {
      assert k in EventBatches.Unresolved(l, tenant, id);
    }
  }

  lemma ClassifyAnswers(l: EventBatches.Log, tenant: string, id: string, status: EventBatches.EventStatus)
    ensures EventBatches.Classified(l, tenant, id, status) ==
            if (tenant, id) !in l.events || l.events[(tenant, id)].status != EventBatches.Unclassified
              then Failure(Conflict)
            else var e := l.events[(tenant, id)];
                 Success(EventBatches.Log(l.batches,
                   l.events[(tenant, id) := EventBatches.Event(e.batch, status, e.magnitude)]))
  {
  }
}
