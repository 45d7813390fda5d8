/** What the tables say to each other in every reachable state: capacity, fleets, daily limits,
    quarantine and declarations. */
module Books {
  import opened Basics
  import opened Domain
  import opened Commands
  import opened Invariants
  import opened Quarantine
  import opened Runs

  // ---- vessels, state by state ----

  /** The states a voyage's vessels may be in, by the state of the voyage. */
  function CrewStates(s: VoyageState): set<VesselState> {
    match s
    case Planned => {VesselState.Assigned}
    case Cleared => {VesselState.Assigned}
    case Departed => {AtSea, Quarantined, Reinspected, VesselState.Retired}
    case Landed => {VesselState.Landed, Quarantined, Reinspected, VesselState.Retired}
    case Closed => {VesselState.Landed, Reinspected, VesselState.Retired}
    case Cancelled => {SeaReady}
  }

  lemma CrewFollowsVoyage(worlds: seq<World>, issues: seq<Issue>, i: nat, x: Id)
    requires IsRun(worlds, issues) && i < |worlds| && x in worlds[i].vessels
    requires NeverReverifies(worlds, issues)
    ensures var w, v := worlds[i], worlds[i].vessels[x];
            if x !in w.links then v.state in {Berthed, SeaReady} && v.voyageId == ""
            else w.links[x] in w.voyages && v.state in CrewStates(w.voyages[w.links[x]].state)
                 && v.voyageId == (if w.voyages[w.links[x]].state == Cancelled then "" else w.links[x])
  {
    StaysInLockstep(worlds, issues, i);
    var w := worlds[i];
    if x in w.links { assert InStep(w.vessels[x], w.links[x], w.voyages[w.links[x]]); }
  }

  // ---- capacity ----

  lemma CapacityBalances(worlds: seq<World>, issues: seq<Issue>, i: nat, y: Id)
    requires IsRun(worlds, issues) && i < |worlds| && y in worlds[i].voyages
    ensures var w, run := worlds[i], worlds[i].voyages[y];
            && Crew(w.links, y) <= w.vessels.Keys
            && run.hold == Sum(Holds(w.vessels, Crew(w.links, y)))
            && run.fleetId in w.fleets && 0 < run.hold <= w.fleets[run.fleetId].cargo
  {
    RunKeepsInv(worlds, issues, i);
    CapacityOf(worlds[i], y);
  }

  lemma CapacityOf(w: World, y: Id)
    requires Moored(w.vessels, w.voyages, w.links) && Loaded(w.voyages, w.vessels, w.links, w.fleets) && y in w.voyages
    ensures var run := w.voyages[y];
            && Crew(w.links, y) <= w.vessels.Keys
            && run.hold == Sum(Holds(w.vessels, Crew(w.links, y)))
            && run.fleetId in w.fleets && 0 < run.hold <= w.fleets[run.fleetId].cargo
  {
  }

  // ---- fleets ----

  function UnderwayVoyages(voyages: Voyages): set<Id> { set y | y in voyages && Underway(voyages[y].state) }

  function BusyFleets(fleets: Fleets): set<Id> { set f | f in fleets && Busy(fleets[f]) }

  /** Underway voyages and busy fleets are in bijection: each names the other. */
  ghost predicate Paired(voyages: Voyages, fleets: Fleets) {
    && |UnderwayVoyages(voyages)| == |BusyFleets(fleets)|
    && (forall y | y in UnderwayVoyages(voyages) ::
          voyages[y].fleetId in BusyFleets(fleets) && fleets[voyages[y].fleetId].voyageId == y)
    && (forall f | f in BusyFleets(fleets) ::
          fleets[f].voyageId in UnderwayVoyages(voyages) && voyages[fleets[f].voyageId].fleetId == f)
  }

  lemma EscortsPair(voyages: Voyages, fleets: Fleets)
    requires Escorted(voyages, fleets)
    ensures Paired(voyages, fleets)
  {
    var there := map y | y in UnderwayVoyages(voyages) :: voyages[y].fleetId;
    var back := map f | f in BusyFleets(fleets) :: fleets[f].voyageId;
    assert there.Keys == UnderwayVoyages(voyages) && back.Keys == BusyFleets(fleets);
    InjectionSize(there, BusyFleets(fleets));
    InjectionSize(back, UnderwayVoyages(voyages));
  }

  lemma FleetsPair(worlds: seq<World>, issues: seq<Issue>, i: nat)
    requires IsRun(worlds, issues) && i < |worlds|
    ensures Paired(worlds[i].voyages, worlds[i].fleets)
  {
    RunKeepsInv(worlds, issues, i);
    EscortsPair(worlds[i].voyages, worlds[i].fleets);
  }

  // ---- daily limits ----

  /** However the operating day of a port is named, at most its daily limit of voyages that were
      not cancelled open in it. */
  lemma DailyLimitHolds(worlds: seq<World>, issues: seq<Issue>, i: nat, p: Id, t: int)
    requires IsRun(worlds, issues) && i < |worlds| && p in worlds[i].ports
    ensures var voyages, port := worlds[i].voyages, worlds[i].ports[p];
            |set y | y in voyages && voyages[y].departurePortId == p && voyages[y].state != Cancelled
              && port.Within(t, voyages[y].opensAt)|
            <= port.dailyLimit
  {
    RunKeepsInv(worlds, issues, i);
    LimitOf(worlds[i].voyages, worlds[i].ports, p, t);
  }

  lemma LimitOf(voyages: Voyages, ports: map<Id, PortFacility>, p: Id, t: int)
    requires Limits(voyages, ports) && p in ports
    ensures |set y | y in voyages && voyages[y].departurePortId == p && voyages[y].state != Cancelled
            && ports[p].Within(t, voyages[y].opensAt)|
            <= ports[p].dailyLimit
  {
    var day := ports[p].OperatingDayWindow(t);
    var here := set y | y in voyages && voyages[y].departurePortId == p && voyages[y].state != Cancelled
      && ports[p].Within(t, voyages[y].opensAt);
    assert here == OpeningsIn(voyages, p, day.0, day.1);
    assert WithinLimit(voyages, p, ports[p]);
  }

  // ---- quarantine ----

  /** A vessel is quarantined only under the one active anomaly of its voyage, which its note
      names; and while a voyage has an active anomaly none of its vessels is at sea or landed. */
  lemma QuarantineDuality(worlds: seq<World>, issues: seq<Issue>, i: nat, x: Id)
    requires IsRun(worlds, issues) && i < |worlds| && x in worlds[i].vessels
    ensures var w := worlds[i];
            && (w.vessels[x].state == Quarantined ==>
                  x in w.links && exists a ::
                    ActiveAnomalies(w.anomalies, w.links[x]) == {a} && w.vessels[x].note == QuarantineNote(a))
            && (x in w.links && ActiveAnomalies(w.anomalies, w.links[x]) != {} ==>
                  w.vessels[x].state in {Quarantined, Reinspected, VesselState.Retired})
  {
    RunKeepsInv(worlds, issues, i);
    DualityOf(worlds[i], x);
  }

  lemma DualityOf(w: World, x: Id)
    requires Moored(w.vessels, w.voyages, w.links) && AnomaliesFit(w.anomalies, w.voyages)
             && Quarantines(w.vessels, w.links, w.anomalies)
    requires x in w.vessels
    ensures w.vessels[x].state == Quarantined ==>
              x in w.links && exists a ::
                ActiveAnomalies(w.anomalies, w.links[x]) == {a} && w.vessels[x].note == QuarantineNote(a)
    ensures x in w.links && ActiveAnomalies(w.anomalies, w.links[x]) != {} ==>
              w.vessels[x].state in {Quarantined, Reinspected, VesselState.Retired}
  {
  }

  /** A decision leaves no vessel of its voyage in quarantine. */
  lemma DecisionEmptiesQuarantine(worlds: seq<World>, issues: seq<Issue>, i: nat, x: Id)
    requires IsRun(worlds, issues) && i < |issues| && issues[i].command.DecideAnomaly?
    requires var c, e := issues[i].command, issues[i];
             Decide(worlds[i], e.actor, c.anomalyId, c.decision, c.rationale, e.now, c.dispositionId).Commit?
    requires issues[i].command.anomalyId in worlds[i].anomalies && x in worlds[i].links
    requires worlds[i].links[x] == worlds[i].anomalies[issues[i].command.anomalyId].voyageId
    ensures x in worlds[i].vessels && x in worlds[i + 1].vessels && worlds[i + 1].vessels[x].state != Quarantined
  {
    var w, c, e := worlds[i], issues[i].command, issues[i];
    RunKeepsInv(worlds, issues, i);
    StepInRun(worlds, issues, i);
    StepOpens(w, e, worlds[i + 1]);
    EmptiedBy(w, e.actor, c.anomalyId, c.decision, c.rationale, e.now, c.dispositionId, x);
  }

  lemma EmptiedBy(w: World, p: Principal, a: Id, decision: AnomalyStatus, rationale: string, now: int, k: Id, x: Id)
    requires Moored(w.vessels, w.voyages, w.links) && AnomaliesFit(w.anomalies, w.voyages)
             && Quarantines(w.vessels, w.links, w.anomalies)
    requires Decide(w, p, a, decision, rationale, now, k).Commit?
    requires a in w.anomalies && x in w.links && w.links[x] == w.anomalies[a].voyageId
    ensures var n := Decide(w, p, a, decision, rationale, now, k).After(w);
            x in w.vessels && x in n.vessels && n.vessels[x].state != Quarantined
  {
    DecideEmptiesQuarantine(w, p, a, decision, rationale, now, k);
    DecideCommits(w, p, a, decision, rationale, now, k);
  }

  // ---- declarations ----

  function OutOfEnvelopeOf(w: World, y: Id): set<Id> {
    set d | d in w.declarations && w.declarations[d].voyageId == y
      && OutOfEnvelope(w.declarations[d], w.voyages, w.permits)
  }

  function AnomalyIds(anomalies: Anomalies, y: Id): set<Id> { set a | a in anomalies && anomalies[a].voyageId == y }

  function Counts(anomalies: Anomalies, y: Id): map<Id, int> {
    map a | a in anomalies && anomalies[a].voyageId == y :: anomalies[a].count
  }

  /** The aggregates are a function of the set of declarations, whatever order they came in. */
  lemma AggregatesAreUnique(a: CatchAnomaly, b: CatchAnomaly, declarations: map<Id, CatchDeclaration>, part: set<Id>)
    requires Summarises(a, declarations, part) && Summarises(b, declarations, part)
    ensures a.count == b.count && a.minimum == b.minimum && a.maximum == b.maximum && a.firstAt == b.firstAt
            && a.lastAt == b.lastAt
  {
  }

  /** The out-of-envelope declarations of a voyage are shared out among its anomalies, so the
      counts add up to their number; and an anomaly has one review job per declaration. */
  lemma DeclarationsConserved(worlds: seq<World>, issues: seq<Issue>, i: nat, y: Id)
    requires IsRun(worlds, issues) && i < |worlds| && y in worlds[i].voyages
    ensures var w := worlds[i];
            && Sum(Counts(w.anomalies, y)) == |OutOfEnvelopeOf(w, y)|
            && forall a | a in AnomalyIds(w.anomalies, y) ::
                 && Fibre(w.includedIn, a) <= OutOfEnvelopeOf(w, y)
                 && Summarises(w.anomalies[a], w.declarations, Fibre(w.includedIn, a))
                 && |JobsFor(w.jobs, AnomalyReview, a)| == w.anomalies[a].count
  {
    RunKeepsInv(worlds, issues, i);
    ConservedIn(worlds[i], y);
    forall a | a in AnomalyIds(worlds[i].anomalies, y)
      ensures Summarises(worlds[i].anomalies[a], worlds[i].declarations, Fibre(worlds[i].includedIn, a))
      ensures |JobsFor(worlds[i].jobs, AnomalyReview, a)| == worlds[i].anomalies[a].count
    {}
  }

  /** The anomaly each out-of-envelope declaration of the voyage was included in. */
  function OwnersOf(w: World, y: Id): map<Id, Id>
    requires OutOfEnvelopeOf(w, y) <= w.includedIn.Keys
  {
    map d | d in OutOfEnvelopeOf(w, y) :: w.includedIn[d]
  }

  lemma OwnersBelong(w: World, y: Id)
    requires Partitioned(w.declarations, w.includedIn, w.anomalies, w.voyages, w.permits)
    ensures OutOfEnvelopeOf(w, y) <= w.includedIn.Keys && OwnersOf(w, y).Keys == OutOfEnvelopeOf(w, y)
    ensures forall d | d in OwnersOf(w, y) :: OwnersOf(w, y)[d] in AnomalyIds(w.anomalies, y)
  {
  }

  lemma PartsOfVoyage(w: World, y: Id, a: Id)
    requires Partitioned(w.declarations, w.includedIn, w.anomalies, w.voyages, w.permits)
    requires OutOfEnvelopeOf(w, y) <= w.includedIn.Keys && a in AnomalyIds(w.anomalies, y)
    ensures Fibre(OwnersOf(w, y), a) == Fibre(w.includedIn, a) && Fibre(w.includedIn, a) <= OutOfEnvelopeOf(w, y)
  {
  }

  lemma ConservedIn(w: World, y: Id)
    requires Partitioned(w.declarations, w.includedIn, w.anomalies, w.voyages, w.permits)
    requires Summed(w.declarations, w.includedIn, w.anomalies)
    ensures Sum(Counts(w.anomalies, y)) == |OutOfEnvelopeOf(w, y)|
    ensures forall a | a in AnomalyIds(w.anomalies, y) :: Fibre(w.includedIn, a) <= OutOfEnvelopeOf(w, y)
  {
    OwnersBelong(w, y);
    forall a | a in AnomalyIds(w.anomalies, y) ensures Fibre(OwnersOf(w, y), a)
      == Fibre(w.includedIn, a) <= OutOfEnvelopeOf(w, y) {
      PartsOfVoyage(w, y, a);
    }
    CountsAreSizes(w.declarations, w.includedIn, w.anomalies, y, OwnersOf(w, y));
    SumOfFibres(OwnersOf(w, y), AnomalyIds(w.anomalies, y));
    assert |OwnersOf(w, y)| == |OwnersOf(w, y).Keys|;
  }

  lemma CountsAreSizes(declarations: map<Id, CatchDeclaration>, includedIn: map<Id, Id>, anomalies: Anomalies, y: Id,
                       owner: map<Id, Id>)
    requires Summed(declarations, includedIn, anomalies)
    requires forall a | a in AnomalyIds(anomalies, y) :: Fibre(owner, a) == Fibre(includedIn, a)
    ensures FibreSizes(owner, AnomalyIds(anomalies, y)) == Counts(anomalies, y)
  {
  }
}
