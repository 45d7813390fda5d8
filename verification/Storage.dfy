/** The store behind the services: row writes with the constraints and version predicates of
    internal/storage/sqlite/write_core.go. A transaction that fails puts `db` back to the value
    it had at the start, which is what WithTx does by rolling back. */
module Storage {
  import opened Basics
  import opened Domain
  import opened Commands
  import opened Selection

  /** A command ended the way the outcome says: it committed exactly that store and returned that
      value, or it failed for the reason given and the store is untouched. */
  ghost predicate Realises<T>(before: World, o: Outcome<T>, after: World, r: Result<T>) {
    match o
    case Commit(w, v) => after == w && r == Success(v)
    case Refuse(reason) => after == before && r == Failure(reason)
  }

  function Ids<T>(items: seq<(Id, T)>): seq<Id> { seq(|items|, i requires 0 <= i < |items| => items[i].0) }

  ghost predicate InOrder(ids: seq<Id>) {
    forall i, j {:trigger Before(ids[i], ids[j])} | 0 <= i < j < |ids| :: Before(ids[i], ids[j])
  }

  /** No identifier occurs twice. */
  ghost predicate NoneTwice(ids: seq<Id>) { forall k {:trigger ids[..k]} | 0 <= k < |ids| :: ids[k] !in ids[..k] }

  lemma OrderedIsDistinct(ids: seq<Id>, i: nat)
    requires InOrder(ids) && i < |ids|
    ensures ids[i] !in ids[..i]
  {
    forall j | 0 <= j < i ensures ids[j] != ids[i] {
      assert Before(ids[j], ids[i]);
      BeforeTotal(ids[j], ids[i]);
    }
  }

  function Flat(ids: set<Id>): map<Id, int> { map x | x in ids :: 0 }

  class Store {
    var db: World

    constructor (db: World)
      ensures this.db == db
    {
      this.db := db;
    }

    // ---- queries ----

    /** ORDER BY added_at, id: the links of a voyage are all added at one moment. */
    method ListFishingVoyageVessels(voyage: Id) returns (items: seq<(Id, FishingVessel)>)
      ensures forall i | 0 <= i < |items| ::
                Ids(items)[i] in db.vessels && items[i] == (Ids(items)[i], db.vessels[Ids(items)[i]])
      ensures forall x :: x in Ids(items) <==> x in Crew(db.links, voyage) && x in db.vessels
      ensures InOrder(Ids(items))
    {
      var crew := Crew(db.links, voyage) * db.vessels.Keys;
      var ids := TakeFirst(Flat(crew), |crew|);
      items := [];
      for n := 0 to |ids|
        invariant |items| == n
        invariant forall i | 0 <= i < n :: ids[i] in db.vessels && items[i] == (ids[i], db.vessels[ids[i]])
      {
        assert ids[n] in Flat(crew);
        items := items + [(ids[n], db.vessels[ids[n]])];
      }
      assert Ids(items) == ids;
      AllTaken(crew, ids);
      forall i, j | 0 <= i < j < |ids| ensures Before(ids[i], ids[j]) { assert Precedes(Flat(crew), ids[i], ids[j]); }
    }

    method GetPendingCatchLanding(voyage: Id) returns (t: Option<Id>)
      ensures t.None? <==> PendingTasks(db.tasks, voyage) == {}
      ensures t.Some? ==> t.value in PendingTasks(db.tasks, voyage)
    {
      var rows := PendingTasks(db.tasks, voyage);
      if rows == {} { return None; }
      var id :| id in rows;
      return Some(id);
    }

    method GetActiveCatchAnomaly(voyage: Id) returns (a: Option<Id>)
      ensures a.None? <==> ActiveAnomalies(db.anomalies, voyage) == {}
      ensures a.Some? ==> a.value in ActiveAnomalies(db.anomalies, voyage)
    {
      var rows := ActiveAnomalies(db.anomalies, voyage);
      if rows == {} { return None; }
      var id :| id in rows;
      return Some(id);
    }

    // ---- versioned updates: only the columns the statement names ----

    method UpdateFishingVessel(id: Id, row: FishingVessel, expected: int) returns (r: Result<()>)
      modifies this
      ensures r == if id in old(db).vessels && old(db).vessels[id].version == expected then Success(())
              else Failure(VersionConflict)
      ensures db == if r.Failure? then old(db) else
        old(db).(vessels := old(db).vessels[id := old(db).vessels[id].(state := row.state, voyageId := row.voyageId,
          note := row.note,
          expiresAt := row.expiresAt, updatedAt := row.updatedAt, version := expected + 1)])
    {
      if id !in db.vessels || db.vessels[id].version != expected { return Failure(VersionConflict); }
      var stored := db.vessels[id];
      stored := stored.(state := row.state, voyageId := row.voyageId, note := row.note, expiresAt := row.expiresAt,
        updatedAt := row.updatedAt);
      stored := stored.(version := stored.version + 1);
      db := db.(vessels := db.vessels[id := stored]);
      return Success(());
    }

    method UpdateSupportFleet(id: Id, row: SupportFleet, expected: int) returns (r: Result<()>)
      modifies this
      ensures r == if id in old(db).fleets && old(db).fleets[id].version == expected then Success(())
              else Failure(VersionConflict)
      ensures db == if r.Failure? then old(db) else
        old(db).(fleets := old(db).fleets[id := old(db).fleets[id].(state := row.state, cargo := row.cargo,
          certifiedUntil := row.certifiedUntil,
          inspectedAt := row.inspectedAt, voyageId := row.voyageId, updatedAt := row.updatedAt,
            version := expected + 1)])
    {
      if id !in db.fleets || db.fleets[id].version != expected { return Failure(VersionConflict); }
      var stored := db.fleets[id];
      stored := stored.(state := row.state, cargo := row.cargo, certifiedUntil := row.certifiedUntil,
        inspectedAt := row.inspectedAt,
                        voyageId := row.voyageId, updatedAt := row.updatedAt);
      stored := stored.(version := stored.version + 1);
      db := db.(fleets := db.fleets[id := stored]);
      return Success(());
    }

    method UpdateFishingVoyage(id: Id, row: FishingVoyage, expected: int) returns (r: Result<()>)
      modifies this
      ensures r == if id in old(db).voyages && old(db).voyages[id].version == expected then Success(())
              else Failure(VersionConflict)
      ensures db == if r.Failure? then old(db) else
        old(db).(voyages := old(db).voyages[id := old(db).voyages[id].(state := row.state,
          departedAt := row.departedAt, landedAt := row.landedAt,
          closedAt := row.closedAt, updatedAt := row.updatedAt, version := expected + 1)])
    {
      if id !in db.voyages || db.voyages[id].version != expected { return Failure(VersionConflict); }
      var stored := db.voyages[id];
      stored := stored.(state := row.state, departedAt := row.departedAt, landedAt := row.landedAt,
        closedAt := row.closedAt, updatedAt := row.updatedAt);
      stored := stored.(version := stored.version + 1);
      db := db.(voyages := db.voyages[id := stored]);
      return Success(());
    }

    method UpdateCatchAnomaly(id: Id, row: CatchAnomaly, expected: int) returns (r: Result<()>)
      modifies this
      ensures r == if id in old(db).anomalies && old(db).anomalies[id].version == expected then Success(())
              else Failure(VersionConflict)
      ensures db == if r.Failure? then old(db) else
        old(db).(anomalies := old(db).anomalies[id := old(db).anomalies[id].(status := row.status,
          firstAt := row.firstAt, lastAt := row.lastAt,
          minimum := row.minimum, maximum := row.maximum, count := row.count, reviewDueAt := row.reviewDueAt,
            updatedAt := row.updatedAt,
          version := expected + 1)])
    {
      if id !in db.anomalies || db.anomalies[id].version != expected { return Failure(VersionConflict); }
      var stored := db.anomalies[id];
      stored := stored.(status := row.status, firstAt := row.firstAt, lastAt := row.lastAt, minimum := row.minimum,
        maximum := row.maximum,
                        count := row.count, reviewDueAt := row.reviewDueAt, updatedAt := row.updatedAt);
      stored := stored.(version := stored.version + 1);
      db := db.(anomalies := db.anomalies[id := stored]);
      return Success(());
    }

    method UpdateCatchLandingTask(id: Id, row: CatchLandingTask, expected: int) returns (r: Result<()>)
      modifies this
      ensures r == if id in old(db).tasks && old(db).tasks[id].version == expected then Success(())
              else Failure(VersionConflict)
      ensures db == if r.Failure? then old(db) else
        old(db).(tasks := old(db).tasks[id := old(db).tasks[id].(status := row.status, resolvedAt := row.resolvedAt,
          note := row.note,
          updatedAt := row.updatedAt, version := expected + 1)])
    {
      if id !in db.tasks || db.tasks[id].version != expected { return Failure(VersionConflict); }
      var stored := db.tasks[id];
      stored := stored.(status := row.status, resolvedAt := row.resolvedAt, note := row.note,
        updatedAt := row.updatedAt);
      stored := stored.(version := stored.version + 1);
      db := db.(tasks := db.tasks[id := stored]);
      return Success(());
    }

    // ---- inserts, refused by primary key and UNIQUE constraints ----

    /** The history component records the key the voyage is planned under. */
    method InsertFishingVoyage(id: Id, row: FishingVoyage, key: string) returns (r: Result<()>)
      modifies this
      ensures r == if id in old(db).voyages
              || (exists y :: y in old(db).voyages && old(db).voyages[y].code == row.code) then Failure(Conflict)
              else Success(())
      ensures db == if r.Failure? then old(db) else
        old(db).(voyages := old(db).voyages[id := row], plannedUnder := old(db).plannedUnder[id := key])
    {
      if id in db.voyages || exists y :: y in db.voyages && db.voyages[y].code == row.code { return Failure(Conflict); }
      db := db.(voyages := db.voyages[id := row], plannedUnder := db.plannedUnder[id := key]);
      return Success(());
    }

    method InsertFishingVoyageVesselLink(voyage: Id, vessel: Id) returns (r: Result<()>)
      modifies this
      ensures r == if vessel in old(db).links then Failure(Conflict) else Success(())
      ensures db == if r.Failure? then old(db) else old(db).(links := old(db).links[vessel := voyage])
    {
      if vessel in db.links { return Failure(Conflict); }
      db := db.(links := db.links[vessel := voyage]);
      return Success(());
    }

    method InsertJob(id: Id, job: OutboxJob) returns (r: Result<()>)
      modifies this
      ensures r == if id in old(db).jobs then Failure(Conflict) else Success(())
      ensures db == if r.Failure? then old(db) else old(db).(jobs := old(db).jobs[id := job])
    {
      if id in db.jobs { return Failure(Conflict); }
      db := db.(jobs := db.jobs[id := job]);
      return Success(());
    }

    /** INSERT ... ON CONFLICT DO UPDATE ... WHERE expires_at <= excluded.created_at. */
    method PutIdempotency(key: string, record: KeyRecord)
      modifies this
      ensures db == old(db).(keys := PutKey(old(db).keys, key, record))
    {
      if key !in db.keys {
        db := db.(keys := db.keys[key := record]);
      } else if db.keys[key].expiresAt <= record.createdAt {
        db := db.(keys := db.keys[key := record]);
      }
    }

    method InsertCatchDeclaration(id: Id, d: CatchDeclaration) returns (r: Result<()>)
      modifies this
      ensures r == if Recorded(old(db), d, id) then Failure(Conflict) else Success(())
      ensures db == if r.Failure? then old(db) else old(db).(declarations := old(db).declarations[id := d])
    {
      if Recorded(db, d, id) { return Failure(Conflict); }
      db := db.(declarations := db.declarations[id := d]);
      return Success(());
    }

    method InsertCatchAnomaly(id: Id, row: CatchAnomaly) returns (r: Result<()>)
      modifies this
      ensures r == if id in old(db).anomalies
              || (row.IsActive() && ActiveAnomalies(old(db).anomalies, row.voyageId) != {}) then Failure(Conflict)
                   else Success(())
      ensures db == if r.Failure? then old(db) else old(db).(anomalies := old(db).anomalies[id := row])
    {
      if id in db.anomalies || (row.IsActive() && ActiveAnomalies(db.anomalies, row.voyageId) != {}) {
        return Failure(Conflict);
      }
      db := db.(anomalies := db.anomalies[id := row]);
      return Success(());
    }

    method InsertAnomalyDisposition(id: Id, row: AnomalyDisposition) returns (r: Result<()>)
      modifies this
      ensures r == if id in old(db).dispositions then Failure(Conflict) else Success(())
      ensures db == if r.Failure? then old(db) else old(db).(dispositions := old(db).dispositions[id := row])
    {
      if id in db.dispositions { return Failure(Conflict); }
      db := db.(dispositions := db.dispositions[id := row]);
      return Success(());
    }

    method InsertCatchLandingTask(id: Id, row: CatchLandingTask) returns (r: Result<()>)
      modifies this
      ensures r == if !row.Valid() then Failure(Validation)
                   else if id in old(db).tasks
                     || (row.status == TaskStatus.Pending && PendingTasks(old(db).tasks, row.voyageId) != {})
                     then Failure(Conflict)
                   else Success(())
      ensures db == if r.Failure? then old(db) else old(db).(tasks := old(db).tasks[id := row])
    {
      if !row.Valid() { return Failure(Validation); }
      if id in db.tasks || (row.status == TaskStatus.Pending && PendingTasks(db.tasks, row.voyageId) != {}) {
        return Failure(Conflict);
      }
      db := db.(tasks := db.tasks[id := row]);
      return Success(());
    }
  }

  /** Taking as many as there are takes them all. */
  lemma AllTaken(crew: set<Id>, ids: seq<Id>)
    requires IsFirst(Flat(crew), |crew|, ids)
    ensures forall x :: x in ids <==> x in crew
  {
    DistinctSize(Flat(crew), ids);
    assert Flat(crew).Keys == crew;
    var taken := set id | id in ids;
    assert taken <= crew && |taken| == |crew|;
    SameSize(taken, crew);
  }

  lemma SameSize<T>(a: set<T>, b: set<T>)
    requires a <= b && |a| == |b|
    ensures a == b
  {
    assert b == a + (b - a);
  }
}
