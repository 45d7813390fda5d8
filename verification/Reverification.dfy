/** Where lockstep fails: VerifyFishingVessel asks the vessel table for sea_ready, and the table
    lets an assigned vessel go there. */
module Reverification {
  import opened Domain
  import opened Commands
  import opened Invariants
  import opened Mooring
  import opened Runs
  import opened Lives

  /** Verifying an assigned vessel commits, and strands the voyage that holds it. */
  lemma ReverificationStrands(w: World, p: Principal, x: Id, now: int)
    requires Moored(w.vessels, w.voyages, w.links) && p.userId != "" && p.role == Coordinator
    requires x in w.vessels && w.vessels[x].state == VesselState.Assigned && w.vessels[x].expiresAt > now
    ensures VerifyVessel(w, p, x, now).Commit? && Stranded(VerifyVessel(w, p, x, now).world, x)
  {
  }

  // ---- a run in which it happens ----

  const COORDINATOR := Principal("c", Coordinator)
  const PERMIT := FishingPermit("PP", "permit", true, Draft, 0, 10, DAY, DAY, 1)
  const HARBOUR := PortFacility("AA", "harbour", true, 0, true, 1, 0, 1)
  const HAVEN := PortFacility("BB", "haven", true, 0, true, 1, 0, 1)
  const FLEET := SupportFleet("FF", Standby, 100, 10 * DAY, 0, "", 1, 0)
  const VESSEL := FishingVessel("p", "a", "R", "trawler", 1, 50, Berthed, 10 * DAY, "", "", 1, 0)
  const INPUT := PlanInput("p", "a", "b", "f", "C", ["v"], 0, DAY, "12345678")

  function Vacant(): World {
    World(map[], map[], map[], map[], map[], map[], map[], map[], map[], map[], map[], map[], map[], map[], map[])
  }

  function Catalogued(): World {
    Vacant().(permits := map["p" := PERMIT.(status := PermitStatus.Active, version := 2)],
      ports := map["a" := HARBOUR, "b" := HAVEN],
              fleets := map["f" := FLEET])
  }

  function Verified(): World { Catalogued().(vessels := map["v" := VESSEL.(state := SeaReady, version := 2)]) }

  function Drafted(): World { Vacant().(permits := map["p" := PERMIT]) }

  function Opened(): World { Vacant().(permits := map["p" := PERMIT.(status := PermitStatus.Active, version := 2)]) }

  function Registered(): World { Catalogued().(vessels := map["v" := VESSEL]) }

  function Started(): World { PlannedWorld(Verified(), INPUT, 0, "y", "j") }

  /** The coordinator, at time zero. */
  function By(c: Command): Issue { Issue(c, COORDINATOR, 0) }

  lemma DoubledLetter(c: char)
    requires 'A' <= c <= 'Z'
    ensures NormalizeCode([c, c]) == [c, c] && ValidBusinessCode([c, c])
  {
    TrimFixed([c, c]);
    assert [c, c][1..] == [c] && [c][1..] == [];
    assert ToUpper([c]) == [c];
  }

  lemma PermitSteps()
    ensures Step(Vacant(), By(AddPermit("p", PERMIT)), Drafted()) && Step(Drafted(), By(OpenPermit("p")), Opened())
  {
    DoubledLetter('P');
    TrimFixed("permit");
    StepBy(Vacant(), By(AddPermit("p", PERMIT)), Drafted());
    StepBy(Drafted(), By(OpenPermit("p")), Opened());
  }

  lemma PortSteps()
    ensures Step(Opened(), By(AddPort("a", HARBOUR)), Opened().(ports := map["a" := HARBOUR]))
    ensures Step(Opened().(ports := map["a" := HARBOUR]), By(AddPort("b", HAVEN)),
            Opened().(ports := map["a" := HARBOUR, "b" := HAVEN]))
  {
    DoubledLetter('A');
    DoubledLetter('B');
    TrimFixed("harbour");
    TrimFixed("haven");
    StepBy(Opened(), By(AddPort("a", HARBOUR)), Opened().(ports := map["a" := HARBOUR]));
    assert map["a" := HARBOUR]["b" := HAVEN] == map["a" := HARBOUR, "b" := HAVEN];
    StepBy(Opened().(ports := map["a" := HARBOUR]), By(AddPort("b", HAVEN)),
      Opened().(ports := map["a" := HARBOUR, "b" := HAVEN]));
  }

  lemma FleetStep()
    ensures Step(Opened().(ports := map["a" := HARBOUR, "b" := HAVEN]), By(AddFleet("f", FLEET)), Catalogued())
  {
    DoubledLetter('F');
    StepBy(Opened().(ports := map["a" := HARBOUR, "b" := HAVEN]), By(AddFleet("f", FLEET)), Catalogued());
  }

  lemma VesselSteps()
    ensures Step(Catalogued(), By(AddVessel("v", VESSEL)), Registered())
            && Step(Registered(), By(CheckVessel("v")), Verified())
  {
    StepBy(Catalogued(), By(AddVessel("v", VESSEL)), Registered());
    StepBy(Registered(), By(CheckVessel("v")), Verified());
  }

  lemma KeyIsValid()
    ensures ValidIdempotencyKey(INPUT.key) && TrimSpace("C") == "C"
  {
  }

  lemma PlanPasses()
    ensures PlanObjection(Verified(), INPUT, 0).None? && !PlanClashes(Verified(), INPUT, "y", "j")
  {
    KeyIsValid();
    assert OpeningsIn(Verified().voyages, "a", 0, DAY) == {};
    assert HARBOUR.OperatingDayWindow(0) == (0, DAY);
    assert RouteObjection(Verified(), INPUT).None?;
    assert VesselObjection(Verified(), INPUT, 1, 0).None?;
    assert VesselObjection(Verified(), INPUT, 0, 0).None?;
    assert WindowObjection(Verified(), INPUT, 0).None?;
    assert Volume(Verified(), INPUT.vesselIds, 0) == 0 && Volume(Verified(), INPUT.vesselIds, 1) == 50;
  }

  lemma PlanStep()
    ensures Step(Verified(), By(PlanVoyage(INPUT, "y", "j")), Started())
  {
    KeyIsValid();
    PlanPasses();
    assert Plan(Verified(), COORDINATOR, INPUT, 0, "y", "j").Commit?;
    StepBy(Verified(), By(PlanVoyage(INPUT, "y", "j")), Started());
  }

  lemma EmptyRun()
    ensures IsRun([Vacant()], [])
  {
  }

  lemma CatalogRun() returns (worlds: seq<World>, issues: seq<Issue>)
    ensures IsRun(worlds, issues) && worlds[|worlds| - 1] == Verified()
  {
    EmptyRun();
    PermitSteps();
    PortSteps();
    FleetStep();
    VesselSteps();
    worlds, issues := [Vacant()], [];
    var path := [(By(AddPermit("p", PERMIT)), Drafted()), (By(OpenPermit("p")), Opened()),
                 (By(AddPort("a", HARBOUR)), Opened().(ports := map["a" := HARBOUR])),
                 (By(AddPort("b", HAVEN)), Opened().(ports := map["a" := HARBOUR, "b" := HAVEN])),
                 (By(AddFleet("f", FLEET)), Catalogued()), (By(AddVessel("v", VESSEL)), Registered()),
                   (By(CheckVessel("v")), Verified())];
    worlds, issues := Follow(worlds, issues, path);
  }

  function Source(start: World, path: seq<(Issue, World)>, k: nat): World
    requires k < |path|
  {
    if k == 0 then start else path[k - 1].1
  }

  ghost predicate IsPath(start: World, path: seq<(Issue, World)>) {
    forall k: nat | k < |path| :: Step(Source(start, path, k), path[k].0, path[k].1)
  }

  /** A run extended along a path of steps. */
  lemma {:induction false} Follow(worlds: seq<World>, issues: seq<Issue>, path: seq<(Issue, World)>)
      returns (ws: seq<World>, es: seq<Issue>)
    requires IsRun(worlds, issues) && IsPath(worlds[|worlds| - 1], path)
    ensures IsRun(ws, es) && ws[|ws| - 1] == if path == [] then worlds[|worlds| - 1] else path[|path| - 1].1
    decreases |path|
  {
    ws, es := worlds, issues;
    if path != [] {
      assert Step(Source(worlds[|worlds| - 1], path, 0), path[0].0, path[0].1);
      RunExtends(worlds, issues, path[0].0, path[0].1);
      var rest := path[1..];
      forall k: nat | k < |rest| ensures Step(Source(path[0].1, rest, k), rest[k].0, rest[k].1) {
        assert Step(Source(worlds[|worlds| - 1], path, k + 1), path[k + 1].0, path[k + 1].1);
      }
      ws, es := Follow(worlds + [path[0].1], issues + [path[0].0], rest);
    }
  }

  lemma StartedFits()
    ensures "v" in Started().vessels && Started().vessels["v"].state == VesselState.Assigned
            && Started().vessels["v"].expiresAt == 10 * DAY
    ensures "v" in Started().links && Started().links["v"] == "y"
    ensures "y" in Started().voyages && Started().voyages["y"].deadlineAt == DAY
            && Started().voyages["y"].state == Planned
  {
  }

  function Reverified(): World
    requires VerifyVessel(Started(), COORDINATOR, "v", 0).Commit?
  {
    VerifyVessel(Started(), COORDINATOR, "v", 0).world
  }

  lemma StartedRun() returns (worlds: seq<World>, issues: seq<Issue>)
    ensures IsRun(worlds, issues) && worlds[|worlds| - 1] == Started()
  {
    var ws, es := CatalogRun();
    PlanStep();
    RunExtends(ws, es, By(PlanVoyage(INPUT, "y", "j")), Started());
    worlds, issues := ws + [Started()], es + [By(PlanVoyage(INPUT, "y", "j"))];
  }

  lemma ReverifiedFits()
    requires Moored(Started().vessels, Started().voyages, Started().links)
    ensures VerifyVessel(Started(), COORDINATOR, "v", 0).Commit?
    ensures var w := Reverified();
            Stranded(w, "v") && w.links["v"] == "y" && w.voyages["y"].deadlineAt == DAY
              && w.vessels["v"].expiresAt == 10 * DAY
    ensures !NoReverification(Started(), By(CheckVessel("v"))) && Step(Started(), By(CheckVessel("v")), Reverified())
  {
    StartedFits();
    ReverificationStrands(Started(), COORDINATOR, "v", 0);
    VerifyCommits(Started(), COORDINATOR, "v", 0);
    StepBy(Started(), By(CheckVessel("v")), Reverified());
  }

  lemma NothingMoves(worlds: seq<World>, issues: seq<Issue>, y: Id, x: Id, p: Principal, now: int)
    requires IsRun(worlds, issues) && Stranded(worlds[|worlds| - 1], x) && worlds[|worlds| - 1].links[x] == y
    ensures var w := worlds[|worlds| - 1]; Advance(w, p, y, Departed, now).Refuse? && Cancel(w, p, y, now).Refuse?
  {
    RunKeepsInv(worlds, issues, |worlds| - 1);
    NoAdvanceWhenStranded(worlds[|worlds| - 1], x, p, now);
  }

  lemma MooredAt(worlds: seq<World>, issues: seq<Issue>, i: nat)
    requires IsRun(worlds, issues) && i < |worlds|
    ensures Moored(worlds[i].vessels, worlds[i].voyages, worlds[i].links)
  {
    RunKeepsInv(worlds, issues, i);
  }

  lemma ReverifiedRun() returns (worlds: seq<World>, issues: seq<Issue>)
    ensures IsRun(worlds, issues) && !NeverReverifies(worlds, issues)
    ensures VerifyVessel(Started(), COORDINATOR, "v", 0).Commit? && worlds[|worlds| - 1] == Reverified()
  {
    var ws, es := StartedRun();
    MooredAt(ws, es, |ws| - 1);
    ReverifiedFits();
    var e := By(CheckVessel("v"));
    RunExtends(ws, es, e, Reverified());
    worlds, issues := ws + [Reverified()], es + [e];
    assert worlds[|es|] == Started() && issues[|es|] == e;
    assert !NoReverification(worlds[|es|], issues[|es|]);
  }

  /** It does happen: a run whose voyage can neither depart nor be cancelled, whoever asks and
      whenever, although its deadline has not come and its vessel's certificate outlasts it. */
  lemma StrandingHappens() returns (worlds: seq<World>, issues: seq<Issue>)
    ensures IsRun(worlds, issues) && !NeverReverifies(worlds, issues)
    ensures var w := worlds[|worlds| - 1];
            && Stranded(w, "v") && w.links["v"] == "y" && w.voyages["y"].deadlineAt == DAY
              && w.vessels["v"].expiresAt == 10 * DAY
            && forall p, now :: Advance(w, p, "y", Departed, now).Refuse? && Cancel(w, p, "y", now).Refuse?
  {
    var ws, es := StartedRun();
    MooredAt(ws, es, |ws| - 1);
    ReverifiedFits();
    worlds, issues := ReverifiedRun();
    var w := worlds[|worlds| - 1];
    forall p, now ensures Advance(w, p, "y", Departed, now).Refuse? && Cancel(w, p, "y", now).Refuse? {
      NothingMoves(worlds, issues, "y", "v", p, now);
    }
  }
}
