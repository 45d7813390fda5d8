/** Every command keeps the counted books: daily limits, declarations, dispositions, jobs,
    tasks and idempotency keys. */
module Accounts {
  import opened Basics
  import opened Domain
  import opened Commands
  import opened Invariants

  // ---- daily limits ----

  lemma PlanKeepsLimit(voyages: Voyages, y: Id, run: FishingVoyage, p: Id, port: PortFacility, t: int)
    requires y !in voyages && port.Valid() && WithinLimit(voyages, p, port)
    requires p == run.departurePortId ==>
               var day := port.OperatingDayWindow(run.opensAt); |OpeningsIn(voyages, p, day.0, day.1)| < port.dailyLimit
    ensures var day := port.OperatingDayWindow(t); |OpeningsIn(voyages[y := run], p, day.0, day.1)| <= port.dailyLimit
  {
    var day := port.OperatingDayWindow(t);
    var before, after := OpeningsIn(voyages, p, day.0, day.1), OpeningsIn(voyages[y := run], p, day.0, day.1);
    if y in after {
      WindowsPartition(port, t, run.opensAt);
      assert after == before + {y};
    } else {
      assert after == before;
    }
  }

  lemma PlanKeepsLimits(voyages: Voyages, ports: map<Id, PortFacility>, y: Id, run: FishingVoyage)
    requires Limits(voyages, ports) && y !in voyages && run.departurePortId in ports
    requires var day := ports[run.departurePortId].OperatingDayWindow(run.opensAt);
             |OpeningsIn(voyages, run.departurePortId, day.0, day.1)| < ports[run.departurePortId].dailyLimit
    ensures Limits(voyages[y := run], ports)
  {
    forall p | p in ports ensures WithinLimit(voyages[y := run], p, ports[p]) {
      forall t: int ensures var day := ports[p].OperatingDayWindow(t);
                            |OpeningsIn(voyages[y := run], p, day.0, day.1)| <= ports[p].dailyLimit
      {
        PlanKeepsLimit(voyages, y, run, p, ports[p], t);
      }
    }
  }

  lemma OpeningsShrink(voyages: Voyages, voyages': Voyages, y: Id, p: Id, start: int, end: int)
    requires Progressed(voyages, voyages', y)
    ensures |OpeningsIn(voyages', p, start, end)| <= |OpeningsIn(voyages, p, start, end)|
  {
    SubsetSize(OpeningsIn(voyages', p, start, end), OpeningsIn(voyages, p, start, end));
  }

  lemma ProgressKeepsLimits(voyages: Voyages, voyages': Voyages, y: Id, ports: map<Id, PortFacility>)
    requires Limits(voyages, ports) && Progressed(voyages, voyages', y)
    ensures Limits(voyages', ports)
  {
    forall p | p in ports ensures WithinLimit(voyages', p, ports[p]) {
      forall t: int ensures var day := ports[p].OperatingDayWindow(t);
                            |OpeningsIn(voyages', p, day.0, day.1)| <= ports[p].dailyLimit
      {
        var day := ports[p].OperatingDayWindow(t);
        OpeningsShrink(voyages, voyages', y, p, day.0, day.1);
      }
    }
  }

  lemma CreatePortKeepsLimits(voyages: Voyages, ports: map<Id, PortFacility>, id: Id, port: PortFacility)
    requires Limits(voyages, ports) && id !in ports && port.Valid()
    ensures Limits(voyages, ports[id := port])
  {
  }

  // ---- declarations ----

  lemma PlanKeepsPartitioned(w: World, y: Id, run: FishingVoyage)
    requires Partitioned(w.declarations, w.includedIn, w.anomalies, w.voyages, w.permits)
    requires y !in w.voyages && run.permitId in w.permits
    ensures Partitioned(w.declarations, w.includedIn, w.anomalies, w.voyages[y := run], w.permits)
  {
  }

  lemma ProgressKeepsPartitioned(w: World, voyages': Voyages, y: Id)
    requires Partitioned(w.declarations, w.includedIn, w.anomalies, w.voyages, w.permits)
             && Progressed(w.voyages, voyages', y)
    ensures Partitioned(w.declarations, w.includedIn, w.anomalies, voyages', w.permits)
  {
  }

  lemma PermitsKeepPartitioned(w: World, permits': map<Id, FishingPermit>)
    requires Partitioned(w.declarations, w.includedIn, w.anomalies, w.voyages, w.permits)
    requires SameEnvelopes(w.permits, permits')
    ensures Partitioned(w.declarations, w.includedIn, w.anomalies, w.voyages, permits')
  {
  }

  lemma RecordKeepsPartitioned(w: World, id: Id, d: CatchDeclaration)
    requires Partitioned(w.declarations, w.includedIn, w.anomalies, w.voyages, w.permits)
    requires id !in w.declarations && d.voyageId in w.voyages && !OutOfEnvelope(d, w.voyages, w.permits)
    ensures Partitioned(w.declarations[id := d], w.includedIn, w.anomalies, w.voyages, w.permits)
  {
  }

  lemma StatusKeepsPartitioned(w: World, a: Id, row: CatchAnomaly)
    requires Partitioned(w.declarations, w.includedIn, w.anomalies, w.voyages, w.permits)
    requires a in w.anomalies && row.voyageId == w.anomalies[a].voyageId
    ensures Partitioned(w.declarations, w.includedIn, w.anomalies[a := row], w.voyages, w.permits)
  {
  }

  lemma SummarisesFrame(a: CatchAnomaly, declarations: map<Id, CatchDeclaration>, id: Id, d: CatchDeclaration,
                        part: set<Id>)
    requires Summarises(a, declarations, part) && id !in declarations
    ensures Summarises(a, declarations[id := d], part)
  {
  }

  lemma RecordKeepsSummed(declarations: map<Id, CatchDeclaration>, includedIn: map<Id, Id>, anomalies: Anomalies,
                          id: Id, d: CatchDeclaration)
    requires Summed(declarations, includedIn, anomalies) && id !in declarations
    ensures Summed(declarations[id := d], includedIn, anomalies)
  {
  }

  /** Include adds one declaration to the aggregates of the rest, in any order of arrival. */
  lemma IncludeSummarises(a: CatchAnomaly, declarations: map<Id, CatchDeclaration>, part: set<Id>, id: Id,
                          d: CatchDeclaration, now: int)
    requires Summarises(a, declarations, part) && id !in declarations
    ensures Summarises(ExtendedAnomaly(a, d, now), declarations[id := d], part + {id})
  {
  }

  lemma OpeningSummarises(declarations: map<Id, CatchDeclaration>, id: Id, d: CatchDeclaration, reviewDeadline: int,
                          now: int)
    requires id in declarations && declarations[id] == d
    ensures Summarises(OpenedAnomaly(d, reviewDeadline, now), declarations, {id})
  {
  }

  lemma FlagKeepsPartitioned(w: World, d: CatchDeclaration, reviewDeadline: int, now: int, id: Id, a: Id, jobId: Id)
    requires Partitioned(w.declarations, w.includedIn, w.anomalies, w.voyages, w.permits)
    requires id !in w.declarations && OutOfEnvelope(d, w.voyages, w.permits)
    requires a in w.anomalies ==> w.anomalies[a].voyageId == d.voyageId
    ensures var n := FlaggedWorld(w, d, reviewDeadline, now, id, a, jobId);
            Partitioned(n.declarations, n.includedIn, n.anomalies, w.voyages, w.permits)
  {
  }

  lemma FlagKeepsSummed(w: World, d: CatchDeclaration, reviewDeadline: int, now: int, id: Id, a: Id, jobId: Id)
    requires Summed(w.declarations, w.includedIn, w.anomalies)
    requires Partitioned(w.declarations, w.includedIn, w.anomalies, w.voyages, w.permits) && id !in w.declarations
    ensures var n := FlaggedWorld(w, d, reviewDeadline, now, id, a, jobId);
            Summed(n.declarations, n.includedIn, n.anomalies)
  {
    var n := FlaggedWorld(w, d, reviewDeadline, now, id, a, jobId);
    assert id !in w.includedIn;
    assert a !in w.anomalies ==> Fibre(w.includedIn, a) == {};
    InclusionKeepsSummed(w.declarations, w.includedIn, w.anomalies, id, d, a, n.anomalies[a], reviewDeadline, now);
  }

  lemma InclusionKeepsSummed(declarations: map<Id, CatchDeclaration>, includedIn: map<Id, Id>, anomalies: Anomalies,
                             id: Id, d: CatchDeclaration,
                             a: Id, row: CatchAnomaly, reviewDeadline: int, now: int)
    requires Summed(declarations, includedIn, anomalies) && id !in declarations && id !in includedIn
    requires a !in anomalies ==> Fibre(includedIn, a) == {}
    requires row == if a in anomalies then ExtendedAnomaly(anomalies[a], d, now)
             else OpenedAnomaly(d, reviewDeadline, now)
    ensures Summed(declarations[id := d], includedIn[id := a], anomalies[a := row])
  {
    var after, anomalies' := declarations[id := d], anomalies[a := row];
    forall b | b in anomalies' ensures Summarises(anomalies'[b], after, Fibre(includedIn[id := a], b)) {
      FibreGrows(includedIn, id, a, b);
      var part := Fibre(includedIn, b);
      if b != a {
        SummarisesFrame(anomalies[b], declarations, id, d, part);
      } else if a in anomalies {
        IncludeSummarises(anomalies[a], declarations, part, id, d, now);
      } else {
        assert part + {id} == {id};
        OpeningSummarises(after, id, d, reviewDeadline, now);
      }
    }
  }

  lemma FibreGrows(owner: map<Id, Id>, id: Id, a: Id, b: Id)
    requires id !in owner
    ensures Fibre(owner[id := a], b) == if b == a then Fibre(owner, b) + {id} else Fibre(owner, b)
  {
  }

  /** A status change leaves an anomaly's aggregates as they were. */
  lemma StatusKeepsSummed(declarations: map<Id, CatchDeclaration>, includedIn: map<Id, Id>, anomalies: Anomalies,
                          a: Id, row: CatchAnomaly)
    requires Summed(declarations, includedIn, anomalies) && a in anomalies
    requires row == anomalies[a].(status := row.status, updatedAt := row.updatedAt, version := row.version)
    ensures Summed(declarations, includedIn, anomalies[a := row])
  {
  }

  // ---- dispositions ----

  lemma FlagKeepsReviewed(anomalies: Anomalies, dispositions: map<Id, AnomalyDisposition>, a: Id, row: CatchAnomaly)
    requires Reviewed(anomalies, dispositions) && row.IsActive() && (a in anomalies ==> anomalies[a].IsActive())
    ensures Reviewed(anomalies[a := row], dispositions)
  {
  }

  lemma DecideKeepsReviewed(anomalies: Anomalies, dispositions: map<Id, AnomalyDisposition>, a: Id,
                            row: CatchAnomaly, k: Id, disposition: AnomalyDisposition)
    requires Reviewed(anomalies, dispositions) && a in anomalies && anomalies[a].IsActive() && k !in dispositions
    requires !row.IsActive() && disposition.anomalyId == a && disposition.decision == row.status
    ensures Reviewed(anomalies[a := row], dispositions[k := disposition])
  {
    var after := dispositions[k := disposition];
    assert DispositionsOf(after, a) == {k} by {
      forall j | j in DispositionsOf(after, a) ensures j == k {
        assert j == k || j in DispositionsOf(dispositions, a);
      }
    }
    forall b | b in anomalies && b != a ensures DispositionsOf(after, b) == DispositionsOf(dispositions, b) {}
  }

  // ---- jobs ----

  lemma PlanKeepsQueued(jobs: map<Id, OutboxJob>, voyages: Voyages, anomalies: Anomalies, y: Id, run: FishingVoyage,
                        jobId: Id, now: int)
    requires Queued(jobs, voyages, anomalies) && y !in voyages && jobId !in jobs
    ensures Queued(jobs[jobId := NewJob(VoyagePlanned, y, VoyageBody(run), now)], voyages[y := run], anomalies)
  {
    var after := jobs[jobId := NewJob(VoyagePlanned, y, VoyageBody(run), now)];
    assert JobsFor(jobs, VoyagePlanned, y) == {};
    assert JobsFor(after, VoyagePlanned, y) == {jobId};
    forall z | z != y ensures JobsFor(after, VoyagePlanned, z) == JobsFor(jobs, VoyagePlanned, z) {}
    forall a ensures JobsFor(after, AnomalyReview, a) == JobsFor(jobs, AnomalyReview, a) {}
  }

  lemma QueuedReview(jobs: map<Id, OutboxJob>, a: Id, jobId: Id, job: OutboxJob)
    requires jobId !in jobs && job.kind == AnomalyReview && job.aggregateId == a
    ensures JobsFor(jobs[jobId := job], AnomalyReview, a) == JobsFor(jobs, AnomalyReview, a) + {jobId}
    ensures |JobsFor(jobs[jobId := job], AnomalyReview, a)| == |JobsFor(jobs, AnomalyReview, a)| + 1
    ensures forall b | b != a :: JobsFor(jobs[jobId := job], AnomalyReview, b) == JobsFor(jobs, AnomalyReview, b)
    ensures forall y :: JobsFor(jobs[jobId := job], VoyagePlanned, y) == JobsFor(jobs, VoyagePlanned, y)
  {
  }

  lemma FlagKeepsQueued(jobs: map<Id, OutboxJob>, voyages: Voyages, anomalies: Anomalies, a: Id, row: CatchAnomaly,
                        jobId: Id, now: int)
    requires Queued(jobs, voyages, anomalies) && jobId !in jobs
    requires row.count == 1 + if a in anomalies then anomalies[a].count else 0
    ensures Queued(jobs[jobId := NewJob(AnomalyReview, a, BareId(a), now)], voyages, anomalies[a := row])
  {
    assert a !in anomalies ==> JobsFor(jobs, AnomalyReview, a) == {};
    QueuedReview(jobs, a, jobId, NewJob(AnomalyReview, a, BareId(a), now));
  }

  lemma QueuedFrame(jobs: map<Id, OutboxJob>, jobs': map<Id, OutboxJob>, voyages: Voyages, voyages': Voyages,
                    anomalies: Anomalies, anomalies': Anomalies)
    requires Queued(jobs, voyages, anomalies) && voyages'.Keys == voyages.Keys && anomalies'.Keys == anomalies.Keys
             && jobs'.Keys == jobs.Keys
    requires forall a | a in anomalies :: anomalies'[a].count == anomalies[a].count
    requires forall j | j in jobs :: jobs'[j].kind == jobs[j].kind && jobs'[j].aggregateId == jobs[j].aggregateId
    ensures Queued(jobs', voyages', anomalies')
  {
    forall kind, x ensures JobsFor(jobs', kind, x) == JobsFor(jobs, kind, x) {}
  }

  lemma ProgressKeepsQueued(jobs: map<Id, OutboxJob>, voyages: Voyages, voyages': Voyages, y: Id, anomalies: Anomalies)
    requires Queued(jobs, voyages, anomalies) && Progressed(voyages, voyages', y)
    ensures Queued(jobs, voyages', anomalies)
  {
  }

  lemma StatusKeepsQueued(jobs: map<Id, OutboxJob>, voyages: Voyages, anomalies: Anomalies, a: Id, row: CatchAnomaly)
    requires Queued(jobs, voyages, anomalies) && a in anomalies && row.count == anomalies[a].count
    ensures Queued(jobs, voyages, anomalies[a := row])
  {
  }

  lemma PassKeepsQueued(jobs: map<Id, OutboxJob>, claim: set<Id>, now: int, voyages: Voyages, anomalies: Anomalies)
    requires Queued(jobs, voyages, anomalies)
    ensures Queued(ProcessedJobs(jobs, claim, now), voyages, anomalies)
  {
    QueuedFrame(jobs, ProcessedJobs(jobs, claim, now), voyages, voyages, anomalies, anomalies);
  }

  lemma NewJobFits(jobs: map<Id, OutboxJob>, id: Id, kind: JobKind, aggregate: Id, payload: Payload, now: int)
    requires JobsFit(jobs) && (kind == AnomalyReview ==> payload == BareId(aggregate))
    ensures JobsFit(jobs[id := NewJob(kind, aggregate, payload, now)])
  {
  }

  lemma PassKeepsJobsFit(jobs: map<Id, OutboxJob>, claim: set<Id>, now: int)
    requires JobsFit(jobs) && claim <= Ready(jobs, now).Keys
    ensures JobsFit(ProcessedJobs(jobs, claim, now))
  {
  }

  // ---- tasks ----

  lemma CreateTaskKeepsTasksFit(w: World, p: Principal, input: TaskInput, ttl: int, now: int, id: Id)
    requires TasksFit(w.tasks, w.voyages) && CreateTask(w, p, input, ttl, now, id).Commit?
    ensures TasksFit(CreateTask(w, p, input, ttl, now, id).world.tasks, w.voyages)
  {
    forall t | t in w.tasks && w.tasks[t].status == TaskStatus.Pending ensures w.tasks[t].voyageId != input.voyageId {
      assert t !in PendingTasks(w.tasks, input.voyageId);
    }
  }

  lemma ResolveKeepsTasksFit(w: World, p: Principal, id: Id, accepted: bool, note: string, now: int)
    requires TasksFit(w.tasks, w.voyages) && ResolveTask(w, p, id, accepted, note, now).Commit?
    ensures TasksFit(ResolveTask(w, p, id, accepted, note, now).world.tasks, w.voyages)
  {
  }

  lemma SweepKeepsTasksFit(tasks: map<Id, CatchLandingTask>, voyages: Voyages, sweep: set<Id>, now: int)
    requires TasksFit(tasks, voyages) && sweep <= Overdue(tasks, now).Keys
    ensures TasksFit(SweptTasks(tasks, sweep, now), voyages)
  {
  }

  lemma PlanKeepsTasksFit(tasks: map<Id, CatchLandingTask>, voyages: Voyages, y: Id, run: FishingVoyage)
    requires TasksFit(tasks, voyages) && y !in voyages
    ensures TasksFit(tasks, voyages[y := run])
  {
  }

  lemma ProgressKeepsTasksFit(tasks: map<Id, CatchLandingTask>, voyages: Voyages, voyages': Voyages, y: Id)
    requires TasksFit(tasks, voyages) && Progressed(voyages, voyages', y)
    requires voyages'[y].state == Closed ==> PendingTasks(tasks, y) == {}
    ensures TasksFit(tasks, voyages')
  {
    forall t | t in tasks && tasks[t].status == TaskStatus.Pending ensures AtReview(voyages'[tasks[t].voyageId].state) {
      if tasks[t].voyageId == y { assert t in PendingTasks(tasks, y); }
    }
  }

  // ---- keys ----

  lemma PlanKeepsKeyed(w: World, input: PlanInput, y: Id, run: FishingVoyage, now: int)
    requires Keyed(w.keys, w.plannedUnder, w.voyages) && y !in w.voyages
    requires !KeyHeld(w, input.key, now) && run.createdAt == now
    ensures Keyed(PutKey(w.keys, input.key, KeyRecord(input, (y, run), now + DAY, now)),
            w.plannedUnder[y := input.key], w.voyages[y := run])
  {
  }

  lemma ProgressKeepsKeyed(keys: map<string, KeyRecord>, plannedUnder: map<Id, string>, voyages: Voyages,
                           voyages': Voyages, y: Id)
    requires Keyed(keys, plannedUnder, voyages) && Progressed(voyages, voyages', y)
    ensures Keyed(keys, plannedUnder, voyages')
  {
  }
}
