/** Every voyage can be finished: from every reachable state whose deadline is still ahead, some
    further commands end with the voyage closed or cancelled, unless a vessel of it is stranded. */
module Finishing {
  import opened Domain
  import opened Commands
  import opened Invariants
  import opened Mooring
  import opened Quarantine
  import opened Readiness
  import opened Runs
  import opened Lives

  const BOSUN := Principal("c", Coordinator)
  const REVIEWER := Principal("o", Officer)

  ghost predicate Finished(w: World, y: Id) { y in w.voyages && w.voyages[y].state in {Closed, Cancelled} }

  predicate Under(w: World, y: Id, s: VoyageState) { y in w.voyages && w.voyages[y].state == s }

  // ---- one command closer ----

  lemma Cancels(w: World, y: Id, now: int) returns (e: Issue)
    requires Sound(w) && y in w.voyages && now <= w.voyages[y].deadlineAt
    requires BeforeDeparture(w.voyages[y].state) && AllAssigned(w, y)
    ensures Admissible(w, e) && e.now == now && Finished(Perform(w, e), y)
  {
    e := Issue(CancelVoyage(y), BOSUN, now);
    SoundMoored(w);
    SoundMustered(w, y);
    CrewProgress(w, y, BOSUN, Cancelled, now);
    CancelCommits(w, BOSUN, y, now);
  }

  lemma Lands(w: World, y: Id, now: int) returns (e: Issue)
    requires Sound(w) && Under(w, y, Departed) && now <= w.voyages[y].deadlineAt
    ensures Admissible(w, e) && e.now == now && Under(Perform(w, e), y, VoyageState.Landed)
  {
    e := Issue(AdvanceVoyage(y, VoyageState.Landed), BOSUN, now);
    SoundMoored(w);
    SoundMustered(w, y);
    CrewProgress(w, y, BOSUN, VoyageState.Landed, now);
    AdvanceCommits(w, BOSUN, y, VoyageState.Landed, now);
  }

  lemma SoundMustered(w: World, y: Id)
    requires Sound(w) && y in w.voyages
    ensures w.voyages[y].fleetId in w.fleets
  {
    assert Inv(w);
    Mustered(w, y);
  }

  /** The one pending task of the voyage is answered in time, or swept once it is overdue. */
  lemma SettlesTask(w: World, y: Id, now: int) returns (e: Issue)
    requires TasksFit(w.tasks, w.voyages) && Under(w, y, VoyageState.Landed)
    ensures Admissible(w, e) && e.now == now && Under(Perform(w, e), y, VoyageState.Landed)
    ensures PendingTasks(Perform(w, e).tasks, y) == {}
  {
    var overdue, ready := Overdue(w.tasks, now), Ready(w.jobs, now);
    if t :| t in PendingTasks(w.tasks, y) && now <= w.tasks[t].expiresAt {
      e := Issue(SettleTask(t, true, ""), BOSUN, now);
      AnswerSettles(w, t, y, now);
    } else {
      e := Issue(Work(|overdue| + |ready|, overdue.Keys, ready.Keys), BOSUN, now);
      SweepSettles(w.tasks, y, now);
    }
    Spares(w, e);
  }

  lemma AnswerSettles(w: World, t: Id, y: Id, now: int)
    requires TasksFit(w.tasks, w.voyages) && t in PendingTasks(w.tasks, y) && now <= w.tasks[t].expiresAt
    ensures PendingTasks(ResolveTask(w, BOSUN, t, true, "", now).After(w).tasks, y) == {}
  {
  }

  lemma SweepSettles(tasks: map<Id, CatchLandingTask>, y: Id, now: int)
    requires forall t | t in PendingTasks(tasks, y) :: tasks[t].expiresAt < now
    ensures PendingTasks(SweptTasks(tasks, Overdue(tasks, now).Keys, now), y) == {}
  {
  }

  /** The one active anomaly of the voyage is decided. */
  lemma DecidesAnomaly(w: World, y: Id, now: int) returns (e: Issue)
    requires AnomaliesFit(w.anomalies, w.voyages) && Under(w, y, VoyageState.Landed)
    requires PendingTasks(w.tasks, y) == {} && ActiveAnomalies(w.anomalies, y) != {}
    ensures Admissible(w, e) && e.now == now && Under(Perform(w, e), y, VoyageState.Landed)
    ensures PendingTasks(Perform(w, e).tasks, y) == {} && ActiveAnomalies(Perform(w, e).anomalies, y) == {}
  {
    var a :| a in ActiveAnomalies(w.anomalies, y);
    var k := Unused(w.dispositions.Keys);
    e := Issue(DecideAnomaly(a, AnomalyStatus.Cleared, "ok", k), REVIEWER, now);
    DecisionCommits(w, a, now, k);
    DecideCommits(w, REVIEWER, a, AnomalyStatus.Cleared, "ok", now, k);
    DecidedLeaves(w.anomalies, w.voyages, a, Perform(w, e).anomalies[a], y);
    Spares(w, e);
  }

  lemma DecisionCommits(w: World, a: Id, now: int, k: Id)
    requires a in w.anomalies && w.anomalies[a].IsActive() && w.anomalies[a].voyageId in w.voyages
    requires k !in w.dispositions
    ensures Decide(w, REVIEWER, a, AnomalyStatus.Cleared, "ok", now, k).Commit?
  {
    TrimFixed("ok");
  }

  lemma {:induction false} LongerThanAll(s: set<Id>) returns (n: nat)
    ensures forall k | k in s :: |k| < n
  {
    if s == {} {
      n := 0;
    } else {
      var k :| k in s;
      n := LongerThanAll(s - {k});
      if |k| >= n { n := |k| + 1; }
    }
  }

  /** There is always one more identifier. */
  lemma Unused(s: set<Id>) returns (k: Id)
    ensures k !in s
  {
    var n := LongerThanAll(s);
    k := seq(n, _ => 'x');
  }

  lemma Closes(w: World, y: Id, now: int) returns (e: Issue)
    requires Sound(w) && Under(w, y, VoyageState.Landed)
    requires PendingTasks(w.tasks, y) == {} && ActiveAnomalies(w.anomalies, y) == {}
    ensures Admissible(w, e) && e.now == now && Finished(Perform(w, e), y)
  {
    e := Issue(AdvanceVoyage(y, Closed), BOSUN, now);
    SoundMoored(w);
    SoundMustered(w, y);
    SoundQuarantines(w);
    CloseNeverMeetsAVessel(w, y, now);
    AdvanceGuards(w, y, BOSUN, Closed, now);
    AdvanceCommits(w, BOSUN, y, Closed, now);
  }

  lemma SoundQuarantines(w: World)
    requires Sound(w)
    ensures Quarantines(w.vessels, w.links, w.anomalies) && AnomaliesFit(w.anomalies, w.voyages)
    ensures TasksFit(w.tasks, w.voyages)
  {
    assert Inv(w);
  }

  // ---- to the end ----

  function Last(worlds: seq<World>): World
    requires worlds != []
  {
    worlds[|worlds| - 1]
  }

  /** A later stage of the same run, all of whose further commands are made at time `now`. */
  ghost predicate Continues(worlds: seq<World>, issues: seq<Issue>, ws: seq<World>, es: seq<Issue>, now: int) {
    && IsRun(ws, es) && worlds <= ws && issues <= es
    && forall k | |issues| <= k < |es| :: es[k].now == now
  }

  lemma GoOn(worlds: seq<World>, issues: seq<Issue>, e: Issue) returns (ws: seq<World>, es: seq<Issue>)
    requires IsRun(worlds, issues) && Admissible(Last(worlds), e)
    ensures Continues(worlds, issues, ws, es, e.now) && |es| == |issues| + 1 && Last(ws) == Perform(Last(worlds), e)
  {
    StepBy(Last(worlds), e, Perform(Last(worlds), e));
    RunExtends(worlds, issues, e, Perform(Last(worlds), e));
    ws, es := worlds + [Perform(Last(worlds), e)], issues + [e];
  }

  lemma ContinuesFurther(worlds: seq<World>, issues: seq<Issue>, ws: seq<World>, es: seq<Issue>, vs: seq<World>,
                         ds: seq<Issue>, now: int)
    requires Continues(worlds, issues, ws, es, now) && Continues(ws, es, vs, ds, now)
    ensures Continues(worlds, issues, vs, ds, now)
  {
    forall k | |issues| <= k < |ds| ensures ds[k].now == now {
      if k < |es| { assert ds[k] == es[k]; }
    }
  }

  predicate Settled(w: World, y: Id) { Under(w, y, VoyageState.Landed) && PendingTasks(w.tasks, y) == {} }

  lemma FinishCalm(worlds: seq<World>, issues: seq<Issue>, y: Id, now: int) returns (ws: seq<World>, es: seq<Issue>)
    requires IsRun(worlds, issues) && Settled(Last(worlds), y) && ActiveAnomalies(Last(worlds).anomalies, y) == {}
    ensures Continues(worlds, issues, ws, es, now) && |es| == |issues| + 1 && Finished(Last(ws), y)
  {
    RunIsSound(worlds, issues, |worlds| - 1);
    var e := Closes(Last(worlds), y, now);
    ws, es := GoOn(worlds, issues, e);
  }

  lemma FinishSettled(worlds: seq<World>, issues: seq<Issue>, y: Id, now: int) returns (ws: seq<World>, es: seq<Issue>)
    requires IsRun(worlds, issues) && Settled(Last(worlds), y)
    ensures Continues(worlds, issues, ws, es, now) && |es| <= |issues| + 2 && Finished(Last(ws), y)
  {
    if ActiveAnomalies(Last(worlds).anomalies, y) == {} {
      ws, es := FinishCalm(worlds, issues, y, now);
    } else {
      RunIsSound(worlds, issues, |worlds| - 1);
      SoundQuarantines(Last(worlds));
      var e := DecidesAnomaly(Last(worlds), y, now);
      var vs, ds := GoOn(worlds, issues, e);
      ws, es := FinishCalm(vs, ds, y, now);
      ContinuesFurther(worlds, issues, vs, ds, ws, es, now);
    }
  }

  lemma FinishLanded(worlds: seq<World>, issues: seq<Issue>, y: Id, now: int) returns (ws: seq<World>, es: seq<Issue>)
    requires IsRun(worlds, issues) && Under(Last(worlds), y, VoyageState.Landed)
    ensures Continues(worlds, issues, ws, es, now) && |es| <= |issues| + 3 && Finished(Last(ws), y)
  {
    RunIsSound(worlds, issues, |worlds| - 1);
    SoundQuarantines(Last(worlds));
    var e := SettlesTask(Last(worlds), y, now);
    var vs, ds := GoOn(worlds, issues, e);
    ws, es := FinishSettled(vs, ds, y, now);
    ContinuesFurther(worlds, issues, vs, ds, ws, es, now);
  }

  /** At most four more commands, all made at once, finish a voyage with nobody stranded. */
  lemma FinishVoyage(worlds: seq<World>, issues: seq<Issue>, y: Id, now: int) returns (ws: seq<World>, es: seq<Issue>)
    requires IsRun(worlds, issues) && y in Last(worlds).voyages
    requires Last(worlds).voyages[y].state in {Planned, VoyageState.Cleared, Departed} ==>
               now <= Last(worlds).voyages[y].deadlineAt
    requires BeforeDeparture(Last(worlds).voyages[y].state) ==> AllAssigned(Last(worlds), y)
    ensures Continues(worlds, issues, ws, es, now) && |es| <= |issues| + 4 && Finished(Last(ws), y)
  {
    var w := Last(worlds);
    RunIsSound(worlds, issues, |worlds| - 1);
    if w.voyages[y].state in {Closed, Cancelled} {
      ws, es := worlds, issues;
    } else if BeforeDeparture(w.voyages[y].state) {
      var e := Cancels(w, y, now);
      ws, es := GoOn(worlds, issues, e);
    } else if w.voyages[y].state == Departed {
      var e := Lands(w, y, now);
      var vs, ds := GoOn(worlds, issues, e);
      ws, es := FinishLanded(vs, ds, y, now);
      ContinuesFurther(worlds, issues, vs, ds, ws, es, now);
    } else {
      ws, es := FinishLanded(worlds, issues, y, now);
    }
  }

  ghost predicate CanFinish(worlds: seq<World>, issues: seq<Issue>, y: Id, now: int) {
    exists ws, es :: Continues(worlds, issues, ws, es, now) && Finished(Last(ws), y)
  }

  lemma StrandedNeverFinishes(worlds: seq<World>, issues: seq<Issue>, y: Id, x: Id, ws: seq<World>, es: seq<Issue>,
                              now: int)
    requires IsRun(worlds, issues) && Stranded(Last(worlds), x) && Last(worlds).links[x] == y
    requires Continues(worlds, issues, ws, es, now)
    ensures !Finished(Last(ws), y)
  {
    assert ws[|worlds| - 1] == Last(worlds);
    StrandedForever(ws, es, |worlds| - 1, |ws| - 1, x);
  }

  /** While its deadline is ahead, a voyage can be finished if and only if none of its vessels is stranded. */
  lemma FinishableIff(worlds: seq<World>, issues: seq<Issue>, y: Id, now: int)
    requires IsRun(worlds, issues) && y in Last(worlds).voyages && now <= Last(worlds).voyages[y].deadlineAt
    ensures CanFinish(worlds, issues, y, now)
            <==> !exists x :: Stranded(Last(worlds), x) && Last(worlds).links[x] == y
  {
    var w := Last(worlds);
    if x :| Stranded(w, x) && w.links[x] == y {
      forall ws, es | Continues(worlds, issues, ws, es, now) ensures !Finished(Last(ws), y) {
        StrandedNeverFinishes(worlds, issues, y, x, ws, es, now);
      }
    } else {
      RunIsSound(worlds, issues, |worlds| - 1);
      SoundMoored(w);
      NobodyStranded(w, y);
      var ws, es := FinishVoyage(worlds, issues, y, now);
    }
  }

  lemma NobodyStranded(w: World, y: Id)
    requires Moored(w.vessels, w.voyages, w.links) && y in w.voyages
    requires forall x | Stranded(w, x) :: w.links[x] != y
    ensures BeforeDeparture(w.voyages[y].state) ==> AllAssigned(w, y)
  {
    if BeforeDeparture(w.voyages[y].state) {
      forall x | x in Crew(w.links, y) && x in w.vessels ensures w.vessels[x].state == VesselState.Assigned {
        assert InStep(w.vessels[x], y, w.voyages[y]) && !Stranded(w, x);
      }
    }
  }
}
