/** The life of a vessel: every command moves it along at most one edge of the vessel table, its
    voyage never changes, and its states run out after six changes. */
module Lives {
  import opened Basics
  import opened Domain
  import opened Commands
  import opened Invariants
  import opened Planning
  import opened Mooring
  import opened Frames
  import opened Preservation
  import opened Runs

  /** How many state changes a vessel has left. A linked vessel that is sea_ready again has
      none: it is either released from a cancelled voyage or stranded on a planned one. */
  function Life(s: VesselState, linked: bool): nat {
    match s
    case Berthed => 6
    case SeaReady => if linked then 0 else 5
    case Assigned => 4
    case AtSea => 3
    case Landed => 2
    case Quarantined => 1
    case _ => 0
  }

  predicate Ages(v: FishingVessel, u: FishingVessel, linked: bool, linked': bool) {
    && SameHull(v, u) && (linked ==> linked')
    && (u.state == v.state || (VesselEdge(v.state, u.state) && Life(u.state, linked') < Life(v.state, linked)))
  }

  ghost predicate AllAge(vessels: Vessels, vessels': Vessels, links: map<Id, Id>, links': map<Id, Id>) {
    && (forall x | x in links :: x in links' && links'[x] == links[x])
    && (forall x | x in vessels :: x in vessels' && Ages(vessels[x], vessels'[x], x in links, x in links'))
  }

  // ---- one command ----

  lemma PlanAges(w: World, input: PlanInput, now: int, y: Id, jobId: Id)
    requires Plannable(w, input, now) && !PlanClashes(w, input, y, jobId)
    ensures var n := PlannedWorld(w, input, now, y, jobId); AllAge(w.vessels, n.vessels, w.links, n.links)
  {
    PlannedCrewUnlinked(w, input, y, jobId);
    var n := PlannedWorld(w, input, now, y, jobId);
    forall x | x in w.vessels ensures Ages(w.vessels[x], n.vessels[x], x in w.links, x in n.links) {
      if x in input.vesselIds {
        assert x in Members(input.vesselIds) && w.vessels[x].state == SeaReady && x !in w.links;
        BookedAges(w.vessels[x], y, now);
      }
    }
  }

  lemma BookedAges(v: FishingVessel, y: Id, now: int)
    requires v.state == SeaReady
    ensures Ages(v, Booked(v, y, now), false, true)
  {
  }

  lemma CarryAges(w: World, y: Id, target: VoyageState, now: int)
    ensures AllAge(w.vessels, CarriedVessels(w, y, target, now), w.links, w.links)
  {
  }

  lemma ReleaseAges(w: World, y: Id, now: int)
    requires forall x | x in w.links && w.links[x] == y ::
               x in w.vessels && w.vessels[x].Transition(SeaReady, now).Success?
    ensures AllAge(w.vessels, ReleasedVessels(w, y, now), w.links, w.links)
  {
  }

  lemma ImpoundAges(w: World, y: Id, a: Id, now: int)
    ensures AllAge(w.vessels, ImpoundedVessels(w, y, a, now), w.links, w.links)
  {
  }

  lemma VerifyAges(w: World, p: Principal, id: Id, now: int)
    requires Moored(w.vessels, w.voyages, w.links) && VerifyVessel(w, p, id, now).Commit?
    ensures AllAge(w.vessels, VerifyVessel(w, p, id, now).world.vessels, w.links, w.links)
  {
  }

  lemma PlanStepAges(w: World, p: Principal, input: PlanInput, now: int, y: Id, jobId: Id)
    ensures var n := Plan(w, p, input, now, y, jobId).After(w); AllAge(w.vessels, n.vessels, w.links, n.links)
  {
    if Plan(w, p, input, now, y, jobId).Commit? && !KeyHeld(w, input.key, now) {
      PlanCommits(w, p, input, now, y, jobId);
      PlanAges(w, input, now, y, jobId);
    }
  }

  lemma NoneAge(w: World)
    ensures AllAge(w.vessels, w.vessels, w.links, w.links)
  {
  }

  lemma SubmitVessels(w: World, p: Principal, d: CatchDeclaration, now: int, id: Id, a: Id, jobId: Id)
    ensures var n := Submit(w, p, d, now, id, a, jobId).After(w);
            n.vessels == w.vessels || n.vessels == ImpoundedVessels(w, d.voyageId, TargetAnomaly(w, d.voyageId, a), now)
  {
    SubmitEnds(w, p, d, now, id, a, jobId);
  }

  lemma SubmitStepAges(w: World, p: Principal, d: CatchDeclaration, now: int, id: Id, a: Id, jobId: Id)
    ensures AllAge(w.vessels, Submit(w, p, d, now, id, a, jobId).After(w).vessels, w.links, w.links)
  {
    var n := Submit(w, p, d, now, id, a, jobId).After(w);
    SubmitVessels(w, p, d, now, id, a, jobId);
    ImpoundAges(w, d.voyageId, TargetAnomaly(w, d.voyageId, a), now);
    NoneAge(w);
    assert n.vessels == w.vessels || n.vessels == ImpoundedVessels(w, d.voyageId, TargetAnomaly(w, d.voyageId, a), now);
  }

  lemma DecideStepAges(w: World, p: Principal, a: Id, decision: AnomalyStatus, rationale: string, now: int, k: Id)
    ensures AllAge(w.vessels, Decide(w, p, a, decision, rationale, now, k).After(w).vessels, w.links, w.links)
  {
  }

  lemma AdvanceStepAges(w: World, p: Principal, y: Id, target: VoyageState, now: int)
    requires Moored(w.vessels, w.voyages, w.links)
    ensures AllAge(w.vessels, Advance(w, p, y, target, now).After(w).vessels, w.links, w.links)
  {
    if Advance(w, p, y, target, now).Commit? {
      AdvanceCommits(w, p, y, target, now);
      CarryAges(w, y, target, now);
    } else {
      NoneAge(w);
    }
  }

  lemma CancelStepAges(w: World, p: Principal, y: Id, now: int)
    requires Moored(w.vessels, w.voyages, w.links)
    ensures AllAge(w.vessels, Cancel(w, p, y, now).After(w).vessels, w.links, w.links)
  {
    if Cancel(w, p, y, now).Commit? {
      CancelCommits(w, p, y, now);
      ReleaseAges(w, y, now);
    } else {
      NoneAge(w);
    }
  }

  lemma RegisterStepAges(w: World, p: Principal, id: Id, vessel: FishingVessel, now: int)
    ensures AllAge(w.vessels, RegisterVessel(w, p, id, vessel, now).After(w).vessels, w.links, w.links)
  {
    if RegisterVessel(w, p, id, vessel, now).Commit? { RegisterCommits(w, p, id, vessel, now); } else { NoneAge(w); }
  }

  lemma VerifyStepAges(w: World, p: Principal, id: Id, now: int)
    requires Moored(w.vessels, w.voyages, w.links)
    ensures AllAge(w.vessels, VerifyVessel(w, p, id, now).After(w).vessels, w.links, w.links)
  {
    if VerifyVessel(w, p, id, now).Commit? { VerifyAges(w, p, id, now); } else { NoneAge(w); }
  }

  lemma RegisterCommandAges(w: World, e: Issue)
    requires e.command.AddVessel?
    ensures AllAge(w.vessels, Perform(w, e).vessels, w.links, w.links)
  {
    RegisterStepAges(w, e.actor, e.command.vesselId, e.command.vessel, e.now);
  }

  lemma VerifyCommandAges(w: World, e: Issue)
    requires Moored(w.vessels, w.voyages, w.links) && e.command.CheckVessel?
    ensures AllAge(w.vessels, Perform(w, e).vessels, w.links, w.links)
  {
    VerifyStepAges(w, e.actor, e.command.vesselId, e.now);
  }

  lemma SubmitCommandAges(w: World, e: Issue)
    requires e.command.SubmitDeclaration?
    ensures AllAge(w.vessels, Perform(w, e).vessels, w.links, w.links)
  {
    var SubmitDeclaration(d, id, a, job) := e.command;
    SubmitStepAges(w, e.actor, Received(d, e.now), e.now, id, a, job);
  }

  lemma DecideCommandAges(w: World, e: Issue)
    requires e.command.DecideAnomaly?
    ensures AllAge(w.vessels, Perform(w, e).vessels, w.links, w.links)
  {
    var DecideAnomaly(a, decision, rationale, k) := e.command;
    DecideStepAges(w, e.actor, a, decision, rationale, e.now, k);
  }

  lemma PlanCommandAges(w: World, e: Issue)
    requires e.command.PlanVoyage?
    ensures AllAge(w.vessels, Perform(w, e).vessels, w.links, Perform(w, e).links)
  {
    PlanStepAges(w, e.actor, e.command.input, e.now, e.command.voyageId, e.command.jobId);
  }

  lemma AdvanceCommandAges(w: World, e: Issue)
    requires Moored(w.vessels, w.voyages, w.links) && e.command.AdvanceVoyage?
    ensures AllAge(w.vessels, Perform(w, e).vessels, w.links, w.links)
  {
    AdvanceStepAges(w, e.actor, e.command.voyageId, e.command.target, e.now);
  }

  lemma CancelCommandAges(w: World, e: Issue)
    requires Moored(w.vessels, w.voyages, w.links) && e.command.CancelVoyage?
    ensures AllAge(w.vessels, Perform(w, e).vessels, w.links, w.links)
  {
    CancelStepAges(w, e.actor, e.command.voyageId, e.now);
  }

  lemma QuietCommandAges(w: World, e: Issue)
    requires !MovesVessels(e.command)
    ensures AllAge(w.vessels, Perform(w, e).vessels, w.links, w.links)
  {
    Spares(w, e);
    NoneAge(w);
  }

  /** Every command moves every vessel along at most one edge of the vessel table, and leaves
      every vessel on the voyage it was linked to. */
  lemma CommandAges(w: World, e: Issue)
    requires Moored(w.vessels, w.voyages, w.links)
    ensures AllAge(w.vessels, Perform(w, e).vessels, w.links, Perform(w, e).links)
  {
    var c := e.command;
    if c.PlanVoyage? {
      PlanCommandAges(w, e);
    } else {
      KeepsLinks(w, e);
      if !MovesVessels(c) { QuietCommandAges(w, e); }
      else if c.AdvanceVoyage? { AdvanceCommandAges(w, e); }
      else if c.CancelVoyage? { CancelCommandAges(w, e); }
      else if c.AddVessel? { RegisterCommandAges(w, e); }
      else if c.CheckVessel? { VerifyCommandAges(w, e); }
      else if c.SubmitDeclaration? { SubmitCommandAges(w, e); }
      else { DecideCommandAges(w, e); }
    }
  }

  lemma KeepsLinks(w: World, e: Issue)
    requires !e.command.PlanVoyage?
    ensures Perform(w, e).links == w.links
  {
    Spares(w, e);
  }

  lemma StepAges(w: World, e: Issue, n: World)
    requires Sound(w) && Step(w, e, n)
    ensures AllAge(w.vessels, n.vessels, w.links, n.links)
  {
    StepOpens(w, e, n);
    SoundMoored(w);
    CommandAges(w, e);
  }

  // ---- whole runs ----

  lemma RunStepAges(worlds: seq<World>, issues: seq<Issue>, i: nat)
    requires IsRun(worlds, issues) && i < |issues|
    ensures AllAge(worlds[i].vessels, worlds[i + 1].vessels, worlds[i].links, worlds[i + 1].links)
  {
    RunIsSound(worlds, issues, i);
    StepInRun(worlds, issues, i);
    StepAges(worlds[i], issues[i], worlds[i + 1]);
  }

  /** How often the state of vessel x differs between neighbours among the first n + 1 states. */
  function Changes(worlds: seq<World>, x: Id, n: nat): nat
    requires n < |worlds|
  {
    if n == 0 then 0
    else Changes(worlds, x, n - 1) +
         if x in worlds[n - 1].vessels && x in worlds[n].vessels
           && worlds[n - 1].vessels[x].state != worlds[n].vessels[x].state then 1 else 0
  }

  lemma StaysOnFile(worlds: seq<World>, issues: seq<Issue>, i: nat, x: Id)
    requires IsRun(worlds, issues) && i < |issues| && x in worlds[i].vessels
    ensures x in worlds[i + 1].vessels
  {
    RunStepAges(worlds, issues, i);
  }

  lemma {:induction false} UnregisteredStill(worlds: seq<World>, issues: seq<Issue>, n: nat, x: Id)
    requires IsRun(worlds, issues) && n < |worlds| && x !in worlds[n].vessels
    ensures Changes(worlds, x, n) == 0
  {
    if n > 0 {
      if x in worlds[n - 1].vessels { StaysOnFile(worlds, issues, n - 1, x); }
      UnregisteredStill(worlds, issues, n - 1, x);
    }
  }

  /** Changes made and changes left never exceed six, whatever is done to the vessel. */
  lemma {:induction false} LifeIsBounded(worlds: seq<World>, issues: seq<Issue>, n: nat, x: Id)
    requires IsRun(worlds, issues) && n < |worlds| && x in worlds[n].vessels
    ensures Changes(worlds, x, n) + Life(worlds[n].vessels[x].state, x in worlds[n].links) <= 6
    ensures Changes(worlds, x, n) <= 6
  {
    if n > 0 {
      RunStepAges(worlds, issues, n - 1);
      if x in worlds[n - 1].vessels {
        LifeIsBounded(worlds, issues, n - 1, x);
      } else {
        UnregisteredStill(worlds, issues, n - 1, x);
      }
    }
  }

  /** A vessel once linked stays linked to the same voyage, so no vessel ever serves two. */
  lemma {:induction false} LinksAreForever(worlds: seq<World>, issues: seq<Issue>, i: nat, j: nat, x: Id)
    requires IsRun(worlds, issues) && i <= j < |worlds| && x in worlds[i].links
    ensures x in worlds[j].links && worlds[j].links[x] == worlds[i].links[x]
  {
    if i < j {
      LinksAreForever(worlds, issues, i, j - 1, x);
      RunStepAges(worlds, issues, j - 1);
    }
  }

  ghost function SomeMember(links: map<Id, Id>, y: Id): Id
    requires Crew(links, y) != {}
    ensures SomeMember(links, y) in links && links[SomeMember(links, y)] == y
  {
    var x :| x in Crew(links, y); x
  }

  /** There are never more voyages than vessels, cancelled voyages included. */
  lemma NoMoreVoyagesThanVessels(worlds: seq<World>, issues: seq<Issue>, i: nat)
    requires IsRun(worlds, issues) && i < |worlds|
    ensures |worlds[i].voyages| <= |worlds[i].vessels|
  {
    RunKeepsInv(worlds, issues, i);
    var w := worlds[i];
    assert forall y | y in w.voyages :: Crew(w.links, y) != {};
    EachVoyageHasItsVessel(w.vessels.Keys, w.voyages.Keys, w.links);
  }

  lemma EachVoyageHasItsVessel(vessels: set<Id>, voyages: set<Id>, links: map<Id, Id>)
    requires links.Keys <= vessels && forall y | y in voyages :: Crew(links, y) != {}
    ensures |voyages| <= |vessels|
  {
    var f := map y | y in voyages :: SomeMember(links, y);
    InjectionSize(f, vessels);
    assert f.Keys == voyages;
  }

  // ---- what re-verification does to a voyage ----

  ghost predicate Stranded(w: World, x: Id) {
    x in w.links && x in w.vessels && w.vessels[x].state == SeaReady
    && w.links[x] in w.voyages && BeforeDeparture(w.voyages[w.links[x]].state)
  }

  lemma NoDepartureWhenStranded(w: World, x: Id, p: Principal, now: int)
    requires Moored(w.vessels, w.voyages, w.links) && Stranded(w, x)
    ensures Advance(w, p, w.links[x], Departed, now).Refuse?
  {
    if Advance(w, p, w.links[x], Departed, now).Commit? { AdvanceCommits(w, p, w.links[x], Departed, now); }
  }

  lemma NoReleaseWhenStranded(w: World, x: Id, p: Principal, now: int)
    requires Moored(w.vessels, w.voyages, w.links) && Stranded(w, x)
    ensures Cancel(w, p, w.links[x], now).Refuse?
  {
    if Cancel(w, p, w.links[x], now).Commit? { CancelCommits(w, p, w.links[x], now); }
  }

  lemma NoAdvanceWhenStranded(w: World, x: Id, p: Principal, now: int)
    requires Moored(w.vessels, w.voyages, w.links) && Stranded(w, x)
    ensures Advance(w, p, w.links[x], Departed, now).Refuse? && Cancel(w, p, w.links[x], now).Refuse?
  {
    NoDepartureWhenStranded(w, x, p, now);
    NoReleaseWhenStranded(w, x, p, now);
  }

  lemma AdvanceKeepsOthers(w: World, p: Principal, y: Id, target: VoyageState, now: int, z: Id)
    requires z in w.voyages && Moored(w.vessels, w.voyages, w.links)
    ensures var n := Advance(w, p, y, target, now).After(w);
            z in n.voyages && (n.voyages[z] == w.voyages[z]
              || (z == y && Advance(w, p, y, target, now).Commit? && n.voyages[z].state == target
                                                                 && VoyageEdge(w.voyages[z].state, target)))
  {
  }

  lemma CancelKeepsOthers(w: World, p: Principal, y: Id, now: int, z: Id)
    requires z in w.voyages && Moored(w.vessels, w.voyages, w.links) && (z == y ==> Cancel(w, p, y, now).Refuse?)
    ensures var n := Cancel(w, p, y, now).After(w); z in n.voyages && n.voyages[z] == w.voyages[z]
  {
  }

  lemma CommandKeepsStranded(w: World, e: Issue, x: Id)
    requires Moored(w.vessels, w.voyages, w.links) && Stranded(w, x) && Admissible(w, e)
    ensures var n, y := Perform(w, e), w.links[x]; y in n.voyages && BeforeDeparture(n.voyages[y].state)
  {
    var y := w.links[x];
    if MovesVoyages(e.command) {
      NoAdvanceWhenStranded(w, x, e.actor, e.now);
      match e.command
      case AdvanceVoyage(z, target) => AdvanceKeepsOthers(w, e.actor, z, target, e.now, y);
      case CancelVoyage(z) => CancelKeepsOthers(w, e.actor, z, e.now, y);
      case PlanVoyage(input, z, job) => PlanKeepsOthers(w, e.actor, input, e.now, z, job, y);
    } else {
      Spares(w, e);
    }
  }

  lemma PlanKeepsOthers(w: World, p: Principal, input: PlanInput, now: int, y: Id, jobId: Id, z: Id)
    requires z in w.voyages
    ensures var n := Plan(w, p, input, now, y, jobId).After(w); z in n.voyages && n.voyages[z] == w.voyages[z]
  {
  }

  lemma StepKeepsStranded(w: World, e: Issue, n: World, x: Id)
    requires Sound(w) && Step(w, e, n) && Stranded(w, x)
    ensures Stranded(n, x) && n.links[x] == w.links[x]
  {
    StepAges(w, e, n);
    assert Ages(w.vessels[x], n.vessels[x], true, true);
    StepOpens(w, e, n);
    SoundMoored(w);
    CommandKeepsStranded(w, e, x);
  }

  /** Verifying an assigned vessel strands its voyage for good: no later command of any run
      lets that voyage depart or be cancelled, and the vessel never moves again. */
  lemma {:induction false} StrandedForever(worlds: seq<World>, issues: seq<Issue>, i: nat, j: nat, x: Id)
    requires IsRun(worlds, issues) && i <= j < |worlds| && Stranded(worlds[i], x)
    ensures Stranded(worlds[j], x) && worlds[j].links[x] == worlds[i].links[x]
  {
    if i < j {
      StrandedForever(worlds, issues, i, j - 1, x);
      RunIsSound(worlds, issues, j - 1);
      StepInRun(worlds, issues, j - 1);
      StepKeepsStranded(worlds[j - 1], issues[j - 1], worlds[j], x);
    }
  }
}
