/** Which commands on a voyage go through: the closure report against the close command, and the
    certificate check made at planning against everything that follows before the deadline
    (internal/domain/voyage_readiness.go, internal/storage/sqlite/read_readiness.go). */
module Readiness {
  import opened Basics
  import opened Domain
  import opened Commands
  import opened Invariants
  import opened Mooring

  datatype Blocker = PendingHandoff | OpenAnomaly | QuarantinedVessels | NoVessels | VesselsNotLanded

  /** The figures the report is computed from. */
  datatype Figures = Figures(state: VoyageState, expected: nat, landed: nat, reinspected: nat, retired: nat,
                             quarantined: nat,
                             pending: bool, open: bool, lastDeclarationAt: Option<int>)
  {
    function Blockers(): seq<Blocker> {
      (if pending then [PendingHandoff] else [])
      + (if open then [OpenAnomaly] else [])
      + (if quarantined > 0 then [QuarantinedVessels] else [])
      + (if expected == 0 then [NoVessels] else [])
      + (if landed < expected && state == VoyageState.Landed then [VesselsNotLanded] else [])
    }

    predicate Complete() { Blockers() == [] && (state == Closed || state == VoyageState.Landed) }
  }

  predicate PostLanding(s: VesselState) { s in {VesselState.Landed, Reinspected, VesselState.Retired, Quarantined} }

  function InState(w: World, y: Id, s: VesselState): set<Id> {
    set x | x in Crew(w.links, y) && x in w.vessels && w.vessels[x].state == s
  }

  function AfterLanding(w: World, y: Id): set<Id> {
    set x | x in Crew(w.links, y) && x in w.vessels && PostLanding(w.vessels[x].state)
  }

  ghost predicate IsLatest(w: World, y: Id, last: Option<int>) {
    match last
    case None => forall d | d in w.declarations :: w.declarations[d].voyageId != y
    case Some(at) =>
      && (exists d :: d in w.declarations && w.declarations[d].voyageId == y && w.declarations[d].recordedAt == at)
      && (forall d | d in w.declarations && w.declarations[d].voyageId == y :: w.declarations[d].recordedAt <= at)
  }

  function Report(w: World, y: Id, last: Option<int>): Figures
    requires y in w.voyages
  {
    Figures(w.voyages[y].state, |Crew(w.links, y)|, |AfterLanding(w, y)|, |InState(w, y, Reinspected)|,
      |InState(w, y, VesselState.Retired)|,
            |InState(w, y, Quarantined)|, PendingTasks(w.tasks, y) != {}, ActiveAnomalies(w.anomalies, y) != {}, last)
  }

  function CrewWith(w: World, y: Id, states: set<VesselState>): set<Id> {
    set x | x in w.links && w.links[x] == y && x in w.vessels && w.vessels[x].state in states
  }

  /** The figures count the rows they are named for. */
  lemma FiguresAreCounts(w: World, y: Id, last: Option<int>)
    requires y in w.voyages
    ensures var f := Report(w, y, last);
            && f.state == w.voyages[y].state && f.lastDeclarationAt == last
            && f.expected == |set x | x in w.links && w.links[x] == y|
            && f.landed == |CrewWith(w, y, {VesselState.Landed, Reinspected, VesselState.Retired, Quarantined})|
            && f.reinspected == |CrewWith(w, y, {Reinspected})| && f.retired == |CrewWith(w, y, {VesselState.Retired})|
            && f.quarantined == |CrewWith(w, y, {Quarantined})|
    ensures var f := Report(w, y, last);
            && (f.pending <==> exists t ::
                  t in w.tasks && w.tasks[t].voyageId == y && w.tasks[t].status == TaskStatus.Pending)
            && (f.open <==> exists a ::
                  a in w.anomalies && w.anomalies[a].voyageId == y && w.anomalies[a].status in {Open, Reviewing})
  {
    assert Crew(w.links, y) == set x | x in w.links && w.links[x] == y;
    assert AfterLanding(w, y) == CrewWith(w, y, {VesselState.Landed, Reinspected, VesselState.Retired, Quarantined});
    assert InState(w, y, Reinspected) == CrewWith(w, y, {Reinspected});
    assert InState(w, y, VesselState.Retired) == CrewWith(w, y, {VesselState.Retired});
    assert InState(w, y, Quarantined) == CrewWith(w, y, {Quarantined});
    if t :| t in w.tasks && w.tasks[t].voyageId == y && w.tasks[t].status == TaskStatus.Pending {
      assert t in PendingTasks(w.tasks, y);
    }
    if a :| a in w.anomalies && w.anomalies[a].voyageId == y && w.anomalies[a].status in {Open, Reviewing} {
      assert a in ActiveAnomalies(w.anomalies, y);
    }
  }

  function Rank(b: Blocker): nat {
    match b
    case PendingHandoff => 0
    case OpenAnomaly => 1
    case QuarantinedVessels => 2
    case NoVessels => 3
    case VesselsNotLanded => 4
  }

  /** Listed in order, none twice, with ranks from lo on and below hi. */
  predicate Ascending(list: seq<Blocker>, lo: nat, hi: nat) {
    && (forall i | 0 <= i < |list| :: lo <= Rank(list[i]) < hi)
    && forall i, j | 0 <= i < j < |list| :: Rank(list[i]) < Rank(list[j])
  }

  lemma AscendingJoin(a: seq<Blocker>, b: seq<Blocker>, lo: nat, mid: nat, hi: nat)
    requires Ascending(a, lo, mid) && Ascending(b, mid, hi) && lo <= mid <= hi
    ensures Ascending(a + b, lo, hi)
  {
  }

  /** The cause of each blocker. */
  predicate Blocks(f: Figures, b: Blocker) {
    match b
    case PendingHandoff => f.pending
    case OpenAnomaly => f.open
    case QuarantinedVessels => f.quarantined > 0
    case NoVessels => f.expected == 0
    case VesselsNotLanded => f.state == VoyageState.Landed && f.landed < f.expected
  }

  function One(cause: bool, b: Blocker): (list: seq<Blocker>)
    ensures Ascending(list, Rank(b), Rank(b) + 1) && forall x :: x in list <==> cause && x == b
  {
    if cause then [b] else []
  }

  lemma BlockersAscend(f: Figures)
    ensures Ascending(f.Blockers(), 0, 5)
  {
    var p, o, q := One(f.pending, PendingHandoff), One(f.open, OpenAnomaly), One(f.quarantined > 0, QuarantinedVessels);
    var n, v := One(f.expected == 0, NoVessels),
      One(f.landed < f.expected && f.state == VoyageState.Landed, VesselsNotLanded);
    assert f.Blockers() == p + o + q + n + v;
    AscendingJoin(p, o, 0, 1, 2);
    AscendingJoin(p + o, q, 0, 2, 3);
    AscendingJoin(p + o + q, n, 0, 3, 4);
    AscendingJoin(p + o + q + n, v, 0, 4, 5);
  }

  lemma BlockersListed(f: Figures, b: Blocker)
    ensures b in f.Blockers() <==> Blocks(f, b)
  {
    var p, o, q := One(f.pending, PendingHandoff), One(f.open, OpenAnomaly), One(f.quarantined > 0, QuarantinedVessels);
    var n, v := One(f.expected == 0, NoVessels),
      One(f.landed < f.expected && f.state == VoyageState.Landed, VesselsNotLanded);
    assert f.Blockers() == p + o + q + n + v;
    assert b in f.Blockers() <==> b in p || b in o || b in q || b in n || b in v;
  }

  /** Each blocker is listed exactly when its cause is there, once, and in one order; the report is complete
      when a landed or closed voyage has none. */
  lemma BlockersAreExact(f: Figures)
    ensures forall b :: b in f.Blockers() <==> Blocks(f, b)
    ensures Ascending(f.Blockers(), 0, 5)
    ensures f.Complete() <==> (forall b :: !Blocks(f, b)) && f.state in {VoyageState.Landed, Closed}
  {
    forall b ensures b in f.Blockers() <==> Blocks(f, b) { BlockersListed(f, b); }
    BlockersAscend(f);
    if f.Blockers() != [] { assert f.Blockers()[0] in f.Blockers(); }
  }

  /** Who may ask for a move: a named coordinator for any, a named captain for departing and landing. */
  predicate Permitted(p: Principal, target: VoyageState) {
    p.userId != "" && (p.role == Coordinator || (p.role == Captain && target in {Departed, VoyageState.Landed}))
  }

  lemma AdvanceGuards(w: World, y: Id, p: Principal, target: VoyageState, now: int)
    requires y in w.voyages && w.voyages[y].fleetId in w.fleets && target != Cancelled
    ensures Advance(w, p, y, target, now).Commit? <==>
              && Permitted(p, target) && VoyageEdge(w.voyages[y].state, target) && CrewRefusals(w, y, target, now) == {}
              && (target == Closed ==> PendingTasks(w.tasks, y) == {} && ActiveAnomalies(w.anomalies, y) == {})
  {
  }

  lemma CancelGuards(w: World, y: Id, p: Principal, now: int)
    requires y in w.voyages && w.voyages[y].fleetId in w.fleets
    ensures Cancel(w, p, y, now).Commit? <==>
              Permitted(p, Cancelled) && VoyageEdge(w.voyages[y].state, Cancelled) && ReleaseRefusals(w, y, now) == {}
  {
  }

  lemma Mustered(w: World, y: Id)
    requires Inv(w) && y in w.voyages
    ensures Crew(w.links, y) != {} && w.voyages[y].fleetId in w.fleets
  {
  }

  // ---- closing ----

  /** With no active anomaly nothing is quarantined, so a landed crew has all come through. */
  lemma CalmCrew(w: World, y: Id)
    requires Moored(w.vessels, w.voyages, w.links) && Quarantines(w.vessels, w.links, w.anomalies)
    requires y in w.voyages && w.voyages[y].state in {VoyageState.Landed, Closed}
    requires w.voyages[y].state == VoyageState.Landed ==> ActiveAnomalies(w.anomalies, y) == {}
    ensures InState(w, y, Quarantined) == {} && AfterLanding(w, y) == Crew(w.links, y)
    ensures forall x | x in Crew(w.links, y) ::
              x in w.vessels && w.vessels[x].state in {VesselState.Landed, Reinspected, VesselState.Retired}
  {
  }

  lemma CloseNeverMeetsAVessel(w: World, y: Id, now: int)
    requires Moored(w.vessels, w.voyages, w.links) && Quarantines(w.vessels, w.links, w.anomalies)
    requires y in w.voyages && w.voyages[y].state == VoyageState.Landed && ActiveAnomalies(w.anomalies, y) == {}
    ensures CrewRefusals(w, y, Closed, now) == {}
  {
  }

  lemma ReportClears(w: World, y: Id, last: Option<int>)
    requires Moored(w.vessels, w.voyages, w.links) && Quarantines(w.vessels, w.links, w.anomalies)
             && AnomaliesFit(w.anomalies, w.voyages)
    requires TasksFit(w.tasks, w.voyages) && y in w.voyages && Crew(w.links, y) != {}
    ensures w.voyages[y].state == VoyageState.Landed ==>
              (Report(w, y, last).Complete() <==>
                PendingTasks(w.tasks, y) == {} && ActiveAnomalies(w.anomalies, y) == {})
    ensures w.voyages[y].state == Closed ==> Report(w, y, last).Complete()
    ensures w.voyages[y].state !in {VoyageState.Landed, Closed} ==> !Report(w, y, last).Complete()
  {
    if w.voyages[y].state == Closed
      || (w.voyages[y].state == VoyageState.Landed && ActiveAnomalies(w.anomalies, y) == {}) {
      CalmCrew(w, y);
    }
  }

  /** The closure report says Complete exactly when a coordinator's close command would commit,
      and it stays Complete once the voyage is closed. */
  lemma ReadinessAgrees(w: World, y: Id, last: Option<int>, p: Principal, now: int)
    requires Inv(w) && y in w.voyages
    ensures w.voyages[y].state != Closed ==>
              (Advance(w, p, y, Closed, now).Commit? <==> Permitted(p, Closed) && Report(w, y, last).Complete())
    ensures w.voyages[y].state == Closed ==> Report(w, y, last).Complete()
  {
    Mustered(w, y);
    CloseAgrees(w, y, last, p, now);
  }

  lemma CloseAgrees(w: World, y: Id, last: Option<int>, p: Principal, now: int)
    requires Moored(w.vessels, w.voyages, w.links) && Quarantines(w.vessels, w.links, w.anomalies)
             && AnomaliesFit(w.anomalies, w.voyages)
    requires TasksFit(w.tasks, w.voyages)
    requires y in w.voyages && Crew(w.links, y) != {} && w.voyages[y].fleetId in w.fleets
    ensures w.voyages[y].state != Closed ==>
              (Advance(w, p, y, Closed, now).Commit? <==> Permitted(p, Closed) && Report(w, y, last).Complete())
    ensures w.voyages[y].state == Closed ==> Report(w, y, last).Complete()
  {
    ReportClears(w, y, last);
    AdvanceGuards(w, y, p, Closed, now);
    if w.voyages[y].state == VoyageState.Landed && ActiveAnomalies(w.anomalies, y) == {} {
      CloseNeverMeetsAVessel(w, y, now);
    }
  }

  // ---- everything else, up to the deadline ----

  predicate AllAssigned(w: World, y: Id) {
    forall x | x in Crew(w.links, y) && x in w.vessels :: w.vessels[x].state == VesselState.Assigned
  }

  lemma CrewGoes(w: World, y: Id, target: VoyageState, now: int)
    requires Moored(w.vessels, w.voyages, w.links) && y in w.voyages && now <= w.voyages[y].deadlineAt
    requires VoyageEdge(w.voyages[y].state, target) && target in {VoyageState.Cleared, Departed, VoyageState.Landed}
    ensures CrewRefusals(w, y, target, now) == {} <==> (target == Departed ==> AllAssigned(w, y))
  {
    NoRefusals(w, y, target, now);
    forall x | x in Crew(w.links, y)
      ensures x in w.vessels && (Carried(w.vessels[x], target, now).Success?
              <==> (target == Departed ==> w.vessels[x].state == VesselState.Assigned))
    {
      assert InStep(w.vessels[x], y, w.voyages[y]);
    }
  }

  lemma CrewReturns(w: World, y: Id, now: int)
    requires Moored(w.vessels, w.voyages, w.links) && y in w.voyages && now <= w.voyages[y].deadlineAt
    requires BeforeDeparture(w.voyages[y].state)
    ensures ReleaseRefusals(w, y, now) == {} <==> AllAssigned(w, y)
  {
    NoReleaseRefusals(w, y, now);
    forall x | x in Crew(w.links, y)
      ensures x in w.vessels && (w.vessels[x].Transition(SeaReady, now).Success?
              <==> w.vessels[x].state == VesselState.Assigned)
    {
      assert InStep(w.vessels[x], y, w.voyages[y]);
    }
  }

  lemma CrewProgress(w: World, y: Id, p: Principal, target: VoyageState, now: int)
    requires Moored(w.vessels, w.voyages, w.links) && y in w.voyages && w.voyages[y].fleetId in w.fleets
    requires now <= w.voyages[y].deadlineAt
    requires VoyageEdge(w.voyages[y].state, target) && target != Closed
    ensures target in {VoyageState.Cleared, VoyageState.Landed} ==>
              (Advance(w, p, y, target, now).Commit? <==> Permitted(p, target))
    ensures target == Departed ==>
              (Advance(w, p, y, target, now).Commit? <==> Permitted(p, target) && AllAssigned(w, y))
    ensures target == Cancelled ==> (Cancel(w, p, y, now).Commit? <==> Permitted(p, target) && AllAssigned(w, y))
  {
    if target == Cancelled {
      CrewReturns(w, y, now);
      CancelGuards(w, y, p, now);
    } else {
      CrewGoes(w, y, target, now);
      AdvanceGuards(w, y, p, target, now);
    }
  }

  /** Up to the landing deadline the certificate check made at planning is enough: clearing and
      landing always commit when the voyage table allows them; departing and cancelling commit
      exactly when no vessel of the voyage was verified again after it was assigned. */
  lemma ProgressByDeadline(w: World, y: Id, p: Principal, target: VoyageState, now: int)
    requires Inv(w) && y in w.voyages && now <= w.voyages[y].deadlineAt
    requires VoyageEdge(w.voyages[y].state, target) && target != Closed
    ensures target in {VoyageState.Cleared, VoyageState.Landed} ==>
              (Advance(w, p, y, target, now).Commit? <==> Permitted(p, target))
    ensures target == Departed ==>
              (Advance(w, p, y, target, now).Commit? <==> Permitted(p, target) && AllAssigned(w, y))
    ensures target == Cancelled ==> (Cancel(w, p, y, now).Commit? <==> Permitted(p, target) && AllAssigned(w, y))
  {
    Mustered(w, y);
    CrewProgress(w, y, p, target, now);
  }
}
