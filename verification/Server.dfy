/** The running service: one store, any sequence of service calls. Whatever is called, the store
    passes through the states of a run, so everything proved of runs holds of it. */
module Server {
  import opened Domain
  import opened Commands
  import opened Invariants
  import opened Runs
  import opened Storage
  import VoyageService
  import PlanningService
  import ReviewService
  import CatalogService
  import WorkerService

  /** What the callers guarantee: the handlers build new vessels and fleets without a voyage, offer
      four targets, and identifiers are generated. */
  predicate Servable(c: Command) {
    match c
    case AddVessel(_, vessel) => vessel.voyageId == ""
    case AddFleet(_, fleet) => fleet.voyageId == ""
    case SubmitDeclaration(_, _, anomalyId, _) => Generated(anomalyId)
    case AdvanceVoyage(_, target) => target in {VoyageState.Cleared, Departed, VoyageState.Landed, Closed}
    case _ => true
  }

  lemma OneActive(w: World, y: Id)
    requires Sound(w)
    ensures |ActiveAnomalies(w.anomalies, y)| <= 1
  {
    assert Inv(w);
    OneActiveOf(w.anomalies, w.voyages, y);
  }

  lemma OneActiveOf(anomalies: Anomalies, voyages: Voyages, y: Id)
    requires AnomaliesFit(anomalies, voyages)
    ensures |ActiveAnomalies(anomalies, y)| <= 1
  {
    var active := ActiveAnomalies(anomalies, y);
    if active != {} {
      var a :| a in active;
      assert active == {a};
    }
  }

  method ServeVoyage(store: Store, e: Issue)
    requires MovesVoyages(e.command) && Servable(e.command)
    modifies store
    ensures Step(old(store.db), e, store.db)
  {
    match e.command {
      case PlanVoyage(input, y, job) =>
        var planned := PlanningService.PlanFishingVoyage(store, e.actor, input, e.now, y, job);
      case AdvanceVoyage(y, target) => var moved := VoyageService.TransitionAny(store, e.actor, y, target, e.now);
      case CancelVoyage(y) => var cancelled := VoyageService.CancelFishingVoyage(store, e.actor, y, e.now);
    }
    StepBy(old(store.db), e, store.db);
  }

  method ServeReview(store: Store, e: Issue)
    requires Sound(store.db) && MovesAnomalies(e.command) && Servable(e.command)
    modifies store
    ensures Step(old(store.db), e, store.db)
  {
    match e.command {
      case SubmitDeclaration(d, id, a, job) =>
        OneActive(store.db, d.voyageId);
        var submitted := ReviewService.SubmitCatchDeclaration(store, e.actor, d, e.now, id, a, job);
      case BeginReview(a) => var started := ReviewService.StartCatchReview(store, e.actor, a, e.now);
      case DecideAnomaly(a, decision, rationale, k) =>
        var decided := ReviewService.DecideCatchAnomaly(store, e.actor, a, decision, rationale, e.now, k);
    }
    StepBy(old(store.db), e, store.db);
  }

  method ServeTask(store: Store, e: Issue)
    requires e.command.OpenTask? || e.command.SettleTask?
    modifies store
    ensures Step(old(store.db), e, store.db)
  {
    match e.command {
      case OpenTask(task, ttl, id) =>
        var created := CatalogService.CreateCatchLandingTask(store, e.actor, task, ttl, e.now, id);
      case SettleTask(id, accepted, note) =>
        var resolved := CatalogService.ResolveCatchLandingTask(store, e.actor, id, accepted, note, e.now);
    }
    StepBy(old(store.db), e, store.db);
  }

  method ServeCatalog(store: Store, e: Issue)
    requires var c := e.command;
             c.AddPermit? || c.OpenPermit? || c.AddPort? || c.AddFleet? || c.AlterFleet?
             || c.AddVessel? || c.CheckVessel?
    requires Servable(e.command)
    modifies store
    ensures Step(old(store.db), e, store.db)
  {
    match e.command {
      case AddPermit(id, permit) => var created := CatalogService.CreateFishingPermit(store, e.actor, id, permit);
      case OpenPermit(id) => var activated := CatalogService.ActivateFishingPermit(store, e.actor, id);
      case AddPort(id, port) => var created := CatalogService.CreatePortFacility(store, e.actor, id, port);
      case AddFleet(id, fleet) => var created := CatalogService.CreateSupportFleet(store, e.actor, id, fleet, e.now);
      case AlterFleet(id, change) =>
        var changed := CatalogService.ChangeSupportFleet(store, e.actor, id, change, e.now);
      case AddVessel(id, vessel) =>
        var registered := CatalogService.RegisterFishingVessel(store, e.actor, id, vessel, e.now);
      case CheckVessel(id) => var verified := CatalogService.VerifyFishingVessel(store, e.actor, id, e.now);
    }
    StepBy(old(store.db), e, store.db);
  }

  /** The step on record is the call made; of a pass it also says what the two queries returned. */
  predicate Records(step: Issue, call: Issue) {
    if call.command.Work? then
      step.command.Work?
      && step == call.(command := call.command.(sweep := step.command.sweep, claim := step.command.claim))
    else step == call
  }

  /** A pass of the worker is the step whose sweep and claim its two queries returned. */
  method ServeWork(store: Store, e: Issue) returns (ghost f: Issue)
    requires e.command.Work?
    modifies store
    ensures Records(f, e) && Step(old(store.db), f, store.db)
  {
    ghost var w := store.db;
    WorkerService.RunOnce(store, e.command.batch, e.now);
    ghost var sweep, claim :|
      && Selection.IsEarliest(Overdue(w.tasks, e.now), e.command.batch, sweep)
      && Selection.IsEarliest(Ready(w.jobs, e.now), e.command.batch, claim)
      && store.db == WorkerPass(w, sweep, claim, e.now);
    f := e.(command := Work(e.command.batch, sweep, claim));
    StepBy(w, f, store.db);
  }

  method Dispatch(store: Store, e: Issue) returns (ghost f: Issue)
    requires Sound(store.db) && Servable(e.command)
    modifies store
    ensures Records(f, e) && Step(old(store.db), f, store.db)
  {
    f := e;
    var c := e.command;
    if MovesVoyages(c) { ServeVoyage(store, e); }
    else if MovesAnomalies(c) { ServeReview(store, e); }
    else if c.OpenTask? || c.SettleTask? { ServeTask(store, e); }
    else if c.Work? { f := ServeWork(store, e); }
    else { ServeCatalog(store, e); }
  }

  class Service {
    const store: Store
    ghost var worlds: seq<World>
    ghost var issues: seq<Issue>

    /** The states seen so far are a run, and the store is in the last of them. */
    ghost predicate Valid()
      reads this, store
    {
      |worlds| > 0 && IsRun(worlds, issues) && worlds[|worlds| - 1] == store.db
    }

    constructor (users: map<Id, User>)
      ensures Valid() && fresh(store) && |worlds| == 1
    {
      var empty := World(users, map[], map[], map[], map[], map[], map[], map[], map[], map[], map[], map[], map[],
        map[], map[]);
      store := new Store(empty);
      worlds, issues := [empty], [];
    }

    /** Any service call by anyone at any time. */
    method Serve(e: Issue)
      requires Valid() && Servable(e.command)
      modifies this, store
      ensures Valid()
      ensures worlds == old(worlds) + [store.db] && |issues| == |old(issues)| + 1
              && issues[..|old(issues)|] == old(issues)
      ensures Records(issues[|old(issues)|], e)
    {
      RunIsSound(worlds, issues, |worlds| - 1);
      ghost var f := Dispatch(store, e);
      RunExtends(worlds, issues, f, store.db);
      worlds, issues := worlds + [store.db], issues + [f];
    }
  }
}
