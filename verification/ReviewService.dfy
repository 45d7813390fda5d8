/** Catch declarations and anomaly reviews as the services carry them out
    (internal/service/catch_declaration.go, internal/service/anomaly_review.go). */
module ReviewService {
  import opened Basics
  import opened Domain
  import opened Commands
  import opened Records
  import opened Storage

  // ---- declarations ----

  ghost predicate ImpoundedSoFar(before: map<Id, FishingVessel>, after: map<Id, FishingVessel>, done: seq<Id>, a: Id,
                                 now: int)
  {
    && after.Keys == before.Keys
    && forall x | x in before :: after[x] == if x in done then Impounded(before[x], a, now) else before[x]
  }

  lemma ImpoundNext(before: map<Id, FishingVessel>, after: map<Id, FishingVessel>, done: seq<Id>, x: Id, a: Id,
                    now: int)
    requires ImpoundedSoFar(before, after, done, a, now) && x in before && x !in done
    ensures ImpoundedSoFar(before, after[x := Impounded(before[x], a, now)], done + [x], a, now)
    ensures after[x := before[x]] == after
  {
  }

  lemma AllImpounded(w: World, after: map<Id, FishingVessel>, done: seq<Id>, y: Id, a: Id, now: int)
    requires ImpoundedSoFar(w.vessels, after, done, a, now)
    requires forall x :: x in done <==> x in Crew(w.links, y) && x in w.vessels
    ensures after == ImpoundedVessels(w, y, a, now)
  {
  }

  /** The quarantine loop: every vessel at sea or landed is impounded under the anomaly. */
  method ImpoundCrew(store: Store, y: Id, a: Id, now: int)
    modifies store
    ensures store.db == old(store.db).(vessels := ImpoundedVessels(old(store.db), y, a, now))
  {
    ghost var w := store.db;
    var items := store.ListFishingVoyageVessels(y);
    ghost var ids := Ids(items);
    for i := 0 to |items|
      invariant store.db == w.(vessels := store.db.vessels)
      invariant ImpoundedSoFar(w.vessels, store.db.vessels, ids[..i], a, now)
    {
      var (x, batch) := items[i];
      OrderedIsDistinct(ids, i);
      assert ids[i] == x && ids[..i + 1] == ids[..i] + [x];
      ImpoundNext(w.vessels, store.db.vessels, ids[..i], x, a, now);
      ghost var next := store.db.vessels[x := Impounded(batch, a, now)];
      if batch.state == AtSea || batch.state == VesselState.Landed {
        batch := batch.(state := Quarantined);
        batch := batch.(note := "catch anomaly " + a);
        batch := batch.(updatedAt := now);
        var written := store.UpdateFishingVessel(x, batch, batch.version);
        assert written.Success?;
      }
      assert store.db.vessels == next;
    }
    assert ids[..|items|] == ids;
    AllImpounded(w, store.db.vessels, ids, y, a, now);
  }

  predicate IsTarget(anomalies: map<Id, CatchAnomaly>, y: Id, anomalyId: Id, a: Id) {
    if ActiveAnomalies(anomalies, y) == {} then a == anomalyId else a in ActiveAnomalies(anomalies, y)
  }

  /** The declaration joins the active anomaly, or opens one. */
  method IncludeDeclaration(store: Store, d: CatchDeclaration, reviewDeadline: int, now: int, anomalyId: Id)
    returns (r: Result<(Id, CatchAnomaly)>)
    modifies store
    ensures var w := old(store.db);
            if ActiveAnomalies(w.anomalies, d.voyageId) == {} && anomalyId in w.anomalies then r == Failure(Conflict)
            else
              && r.Success? && IsTarget(w.anomalies, d.voyageId, anomalyId, r.value.0)
              && r.value.1 == Flagged(w, d, reviewDeadline, now, r.value.0)
              && store.db == w.(anomalies := w.anomalies[r.value.0 :=
                   if r.value.0 in w.anomalies then ExtendedAnomaly(w.anomalies[r.value.0], d, now)
                   else OpenedAnomaly(d, reviewDeadline, now)])
  {
    var active := store.GetActiveCatchAnomaly(d.voyageId);
    if active.None? {
      var anomaly := new AnomalyRecord(CatchAnomaly(d.voyageId, Open, 0, 0, 0, 0, 0, now + reviewDeadline, 1, now));
      anomaly.Include(d, now);
      var inserted := store.InsertCatchAnomaly(anomalyId, anomaly.row);
      if inserted.Failure? { return Failure(inserted.error); }
      return Success((anomalyId, anomaly.row));
    }
    var anomaly := new AnomalyRecord(store.db.anomalies[active.value]);
    var version := anomaly.row.version;
    anomaly.Include(d, now);
    var updated := store.UpdateCatchAnomaly(active.value, anomaly.row, version);
    assert updated.Success?;
    return Success((active.value, anomaly.row));
  }

  lemma OnlyMember<T>(s: set<T>, a: T, b: T)
    requires |s| <= 1 && a in s && b in s
    ensures a == b
  {
    SubsetSize({a, b}, s);
    assert a != b ==> |{a, b}| == 2;
  }

  /** A voyage has at most one active anomaly: the partial UNIQUE index on catch_anomalies. */
  method SubmitCatchDeclaration(store: Store, p: Principal, input: CatchDeclaration, now: int, id: Id, anomalyId: Id,
                                jobId: Id)
    returns (r: Result<(CatchDeclaration, Option<(Id, CatchAnomaly)>)>)
    requires |ActiveAnomalies(store.db.anomalies, input.voyageId)| <= 1
    modifies store
    ensures Realises(old(store.db), Submit(old(store.db), p, Received(input, now), now, id, anomalyId, jobId),
            store.db, r)
  {
    var role := RequireRole(p, {Captain, Coordinator});
    if role.Fail? { return Failure(role.reason); }
    var d := input.(receivedAt := now);
    if !d.Valid() { return Failure(Validation); }
    var before := store.db;
    if d.voyageId !in store.db.voyages { return Failure(NotFound); }
    var run := store.db.voyages[d.voyageId];
    if run.permitId !in store.db.permits { return Failure(NotFound); }
    var permit := store.db.permits[run.permitId];
    if run.state != Departed && run.state != VoyageState.Landed { return Failure(Conflict); }
    var recorded := store.InsertCatchDeclaration(id, d);
    if recorded.Failure? { return Failure(recorded.error); }
    if permit.Contains(d.variance) { return Success((d, None)); }
    var flagged := Flag(store, d, permit.reviewDeadline, now, id, anomalyId, jobId, before);
    if flagged.Failure? {
      store.db := before;
      return Failure(flagged.error);
    }
    OneTarget(before, d.voyageId, anomalyId, flagged.value.0);
    return Success((d, Some(flagged.value)));
  }

  /** History only: no statement of the source does this. */
  method RememberInclusion(store: Store, id: Id, a: Id)
    modifies store
    ensures store.db == old(store.db).(includedIn := old(store.db).includedIn[id := a])
  {
    store.db := store.db.(includedIn := store.db.includedIn[id := a]);
  }

  method QuarantineAndQueue(store: Store, y: Id, a: Id, now: int, id: Id, jobId: Id) returns (r: Result<()>)
    modifies store
    ensures var w := old(store.db);
            if jobId in w.jobs then r == Failure(Conflict)
            else r.Success? && store.db == w.(vessels := ImpoundedVessels(w, y, a, now),
              includedIn := w.includedIn[id := a],
                                              jobs := w.jobs[jobId := NewJob(AnomalyReview, a, BareId(a), now)])
  {
    ImpoundCrew(store, y, a, now);
    r := store.InsertJob(jobId, NewJob(AnomalyReview, a, BareId(a), now));
    if r.Success? { RememberInclusion(store, id, a); }
  }

  /** What follows an out-of-envelope declaration: the anomaly, the quarantine, the review job.
      `w` is the store at the start of the transaction. */
  method Flag(store: Store, d: CatchDeclaration, reviewDeadline: int, now: int, id: Id, anomalyId: Id, jobId: Id,
              ghost w: World)
    returns (r: Result<(Id, CatchAnomaly)>)
    requires store.db == w.(declarations := w.declarations[id := d])
    modifies store
    ensures if (ActiveAnomalies(w.anomalies, d.voyageId) == {} && anomalyId in w.anomalies) || jobId in w.jobs
            then r == Failure(Conflict)
            else
              && r.Success? && IsTarget(w.anomalies, d.voyageId, anomalyId, r.value.0)
              && r.value.1 == Flagged(w, d, reviewDeadline, now, r.value.0)
              && store.db == FlaggedWorld(w, d, reviewDeadline, now, id, r.value.0, jobId)
  {
    var included := IncludeDeclaration(store, d, reviewDeadline, now, anomalyId);
    if included.Failure? { return included; }
    var a := included.value.0;
    SameImpounded(w, store.db, d.voyageId, a, now);
    var queued := QuarantineAndQueue(store, d.voyageId, a, now, id, jobId);
    if queued.Failure? { return Failure(queued.error); }
    FlaggedTables(w, store.db, d, reviewDeadline, now, id, a, jobId);
    return included;
  }

  lemma SameImpounded(w: World, n: World, y: Id, a: Id, now: int)
    requires n.vessels == w.vessels && n.links == w.links
    ensures ImpoundedVessels(n, y, a, now) == ImpoundedVessels(w, y, a, now)
  {
  }

  lemma FlaggedTables(w: World, n: World, d: CatchDeclaration, reviewDeadline: int, now: int, id: Id, a: Id, jobId: Id)
    requires n == w.(declarations := n.declarations, anomalies := n.anomalies, vessels := n.vessels, jobs := n.jobs,
             includedIn := n.includedIn)
    requires n.declarations == w.declarations[id := d] && n.vessels == ImpoundedVessels(w, d.voyageId, a, now)
    requires n.anomalies == w.anomalies[a := if a in w.anomalies then ExtendedAnomaly(w.anomalies[a], d, now)
             else OpenedAnomaly(d, reviewDeadline, now)]
    requires n.jobs == w.jobs[jobId := NewJob(AnomalyReview, a, BareId(a), now)]
             && n.includedIn == w.includedIn[id := a]
    ensures n == FlaggedWorld(w, d, reviewDeadline, now, id, a, jobId)
  {
  }

  /** The partial UNIQUE index leaves no choice of active anomaly. */
  lemma OneTarget(w: World, y: Id, anomalyId: Id, a: Id)
    requires |ActiveAnomalies(w.anomalies, y)| <= 1 && IsTarget(w.anomalies, y, anomalyId, a)
    ensures a == TargetAnomaly(w, y, anomalyId)
  {
    if ActiveAnomalies(w.anomalies, y) != {} {
      OnlyMember(ActiveAnomalies(w.anomalies, y), a, TargetAnomaly(w, y, anomalyId));
    }
  }

  // ---- reviews ----

  method StartCatchReview(store: Store, p: Principal, a: Id, now: int) returns (r: Result<CatchAnomaly>)
    modifies store
    ensures Realises(old(store.db), StartReview(old(store.db), p, a, now), store.db, r)
  {
    var role := RequireRole(p, {Officer});
    if role.Fail? { return Failure(role.reason); }
    if a !in store.db.anomalies { return Failure(NotFound); }
    var anomaly := new AnomalyRecord(store.db.anomalies[a]);
    var version := anomaly.row.version;
    var started := anomaly.StartReview(now);
    if started.Failure? { return Failure(started.error); }
    var updated := store.UpdateCatchAnomaly(a, anomaly.row, version);
    assert updated.Success?;
    return Success(anomaly.row);
  }

  ghost predicate JudgedSoFar(before: map<Id, FishingVessel>, after: map<Id, FishingVessel>, done: seq<Id>,
                              a: Id, decision: AnomalyStatus, rationale: string, now: int)
  {
    && after.Keys == before.Keys
    && forall x | x in before :: after[x] == if x in done then Judged(before[x], a, decision, rationale, now)
      else before[x]
  }

  lemma JudgeNext(before: map<Id, FishingVessel>, after: map<Id, FishingVessel>, done: seq<Id>, x: Id,
                  a: Id, decision: AnomalyStatus, rationale: string, now: int)
    requires JudgedSoFar(before, after, done, a, decision, rationale, now) && x in before && x !in done
    ensures JudgedSoFar(before, after[x := Judged(before[x], a, decision, rationale, now)], done + [x], a, decision,
            rationale, now)
    ensures after[x := before[x]] == after
  {
  }

  lemma AllJudged(w: World, after: map<Id, FishingVessel>, done: seq<Id>, y: Id, a: Id, decision: AnomalyStatus,
                  rationale: string, now: int)
    requires JudgedSoFar(w.vessels, after, done, a, decision, rationale, now)
    requires forall x :: x in done <==> x in Crew(w.links, y) && x in w.vessels
    ensures after == JudgedVessels(w, y, a, decision, rationale, now)
  {
  }

  /** The review loop's body: a vessel the anomaly did not quarantine is passed over. */
  method JudgeVessel(store: Store, x: Id, batch: FishingVessel, a: Id, decision: AnomalyStatus, rationale: string,
                     now: int)
    requires x in store.db.vessels && store.db.vessels[x] == batch && decision in {AnomalyStatus.Cleared, Rejected}
    modifies store
    ensures var w := old(store.db);
            store.db == w.(vessels := w.vessels[x := Judged(w.vessels[x], a, decision, rationale, now)])
  {
    var row := batch;
    if !row.IsQuarantinedFor(a) {
      assert store.db.vessels[x := batch] == store.db.vessels;
      return;
    }
    if decision == AnomalyStatus.Cleared {
      row := row.(state := Reinspected);
      row := row.(note := "");
    } else {
      row := row.(state := VesselState.Retired);
      row := row.(note := TrimSpace(rationale));
    }
    row := row.(updatedAt := now);
    var written := store.UpdateFishingVessel(x, row, row.version);
    assert written.Success?;
  }

  method JudgeCrew(store: Store, y: Id, a: Id, decision: AnomalyStatus, rationale: string, now: int)
    requires decision in {AnomalyStatus.Cleared, Rejected}
    modifies store
    ensures store.db == old(store.db).(vessels := JudgedVessels(old(store.db), y, a, decision, rationale, now))
  {
    ghost var w := store.db;
    var items := store.ListFishingVoyageVessels(y);
    ghost var ids := Ids(items);
    for i := 0 to |items|
      invariant store.db == w.(vessels := store.db.vessels)
      invariant JudgedSoFar(w.vessels, store.db.vessels, ids[..i], a, decision, rationale, now)
    {
      var (x, batch) := items[i];
      OrderedIsDistinct(ids, i);
      assert ids[i] == x && ids[..i + 1] == ids[..i] + [x];
      JudgeNext(w.vessels, store.db.vessels, ids[..i], x, a, decision, rationale, now);
      assert store.db.vessels[x] == batch;
      JudgeVessel(store, x, batch, a, decision, rationale, now);
    }
    assert ids[..|items|] == ids;
    AllJudged(w, store.db.vessels, ids, y, a, decision, rationale, now);
  }

  method DecideCatchAnomaly(store: Store, p: Principal, a: Id, decision: AnomalyStatus, rationale: string, now: int,
                            dispositionId: Id)
    returns (r: Result<CatchAnomaly>)
    modifies store
    ensures Realises(old(store.db), Decide(old(store.db), p, a, decision, rationale, now, dispositionId), store.db, r)
  {
    var role := RequireRole(p, {Officer});
    if role.Fail? { return Failure(role.reason); }
    if TrimSpace(rationale) == "" { return Failure(Validation); }
    var before := store.db;
    if a !in store.db.anomalies { return Failure(NotFound); }
    var anomaly := new AnomalyRecord(store.db.anomalies[a]);
    var version := anomaly.row.version;
    var decided := anomaly.Decide(decision, now);
    if decided.Failure? { return Failure(decided.error); }
    var updated := store.UpdateCatchAnomaly(a, anomaly.row, version);
    assert updated.Success?;
    if anomaly.row.voyageId !in store.db.voyages {
      store.db := before;
      return Failure(NotFound);
    }
    JudgeCrew(store, anomaly.row.voyageId, a, decision, rationale, now);
    var disposition := AnomalyDisposition(a, p.userId, decision, TrimSpace(rationale), now);
    var inserted := store.InsertAnomalyDisposition(dispositionId, disposition);
    if inserted.Failure? {
      store.db := before;
      return Failure(inserted.error);
    }
    return Success(anomaly.row);
  }
}
