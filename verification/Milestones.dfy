/** The life of a voyage: its plan never changes, its states follow the voyage table, and its
    timestamps record exactly the stages it has reached, in order (internal/domain/fishing_voyage.go). */
module Milestones {
  import opened Domain
  import opened Commands
  import opened Invariants
  import opened Runs

  /** Stages still ahead of a voyage. */
  function Ahead(s: VoyageState): nat {
    match s
    case Planned => 4
    case Cleared => 3
    case Departed => 2
    case Landed => 1
    case _ => 0
  }

  predicate Follows(v: FishingVoyage, u: FishingVoyage) {
    SamePlan(v, u) && (u == v || (VoyageEdge(v.state, u.state) && u.version == v.version + 1))
  }

  predicate AllFollow(voyages: Voyages, voyages': Voyages) {
    forall y | y in voyages :: y in voyages' && Follows(voyages[y], voyages'[y])
  }

  /** The three stage times, by state, and in order up to the latest command. */
  predicate Stamped(v: FishingVoyage, clock: int) {
    && (v.departedAt.Some? <==> v.state in {Departed, VoyageState.Landed, Closed})
    && (v.landedAt.Some? <==> v.state in {VoyageState.Landed, Closed})
    && (v.closedAt.Some? <==> v.state == Closed)
    && v.createdAt <= v.updatedAt <= clock
    && (v.departedAt.Some? ==> v.createdAt <= v.departedAt.value <= v.updatedAt)
    && (v.landedAt.Some? ==> v.departedAt.value <= v.landedAt.value <= v.updatedAt)
    && (v.closedAt.Some? ==> v.landedAt.value <= v.closedAt.value == v.updatedAt)
  }

  predicate AllStamped(voyages: Voyages, clock: int) { forall y | y in voyages :: Stamped(voyages[y], clock) }

  // ---- one command ----

  lemma MoveFollows(v: FishingVoyage, target: VoyageState, now: int, clock: int)
    requires VoyageEdge(v.state, target)
    ensures v.Transition(target, now).Success?
    ensures var u := v.Transition(target, now).value.(version := v.version + 1);
            Follows(v, u) && (Stamped(v, clock) && clock <= now ==> Stamped(u, now))
  {
  }

  /** The voyages after a command: one row may have moved, or one may be new. */
  ghost predicate OneMoves(voyages: Voyages, voyages': Voyages, now: int) {
    || voyages' == voyages
    || (exists y, target ::
         y in voyages && VoyageEdge(voyages[y].state, target) && voyages[y].Transition(target, now).Success?
         && voyages' == voyages[y := voyages[y].Transition(target, now).value.(version := voyages[y].version + 1)])
    || (exists y, input, hold :: y !in voyages && voyages' == voyages[y := NewVoyage(input, hold, now)])
  }

  lemma PlanMovesOne(w: World, p: Principal, input: PlanInput, now: int, y: Id, jobId: Id)
    ensures OneMoves(w.voyages, Plan(w, p, input, now, y, jobId).After(w).voyages, now)
  {
  }

  lemma AdvanceMovesOne(w: World, p: Principal, y: Id, target: VoyageState, now: int)
    ensures OneMoves(w.voyages, Advance(w, p, y, target, now).After(w).voyages, now)
  {
  }

  lemma CancelMovesOne(w: World, p: Principal, y: Id, now: int)
    ensures OneMoves(w.voyages, Cancel(w, p, y, now).After(w).voyages, now)
  {
  }

  lemma CommandMovesOne(w: World, e: Issue)
    ensures OneMoves(w.voyages, Perform(w, e).voyages, e.now)
  {
    match e.command
    case PlanVoyage(input, y, job) => PlanMovesOne(w, e.actor, input, e.now, y, job);
    case AdvanceVoyage(y, target) => AdvanceMovesOne(w, e.actor, y, target, e.now);
    case CancelVoyage(y) => CancelMovesOne(w, e.actor, y, e.now);
    case _ => Spares(w, e);
  }

  /** One row moves on, the others stay. */
  lemma RowMoves(voyages: Voyages, y: Id, u: FishingVoyage, now: int, clock: int)
    requires y in voyages && Follows(voyages[y], u)
    requires Stamped(voyages[y], clock) && clock <= now ==> Stamped(u, now)
    ensures AllFollow(voyages, voyages[y := u])
    ensures AllStamped(voyages, clock) && clock <= now ==> AllStamped(voyages[y := u], now)
  {
  }

  lemma RowAdded(voyages: Voyages, y: Id, input: PlanInput, hold: int, now: int, clock: int)
    requires y !in voyages
    ensures AllFollow(voyages, voyages[y := NewVoyage(input, hold, now)])
    ensures AllStamped(voyages, clock) && clock <= now ==> AllStamped(voyages[y := NewVoyage(input, hold, now)], now)
  {
  }

  lemma OneMoveFollows(voyages: Voyages, voyages': Voyages, now: int, clock: int)
    requires OneMoves(voyages, voyages', now)
    ensures AllFollow(voyages, voyages')
    ensures AllStamped(voyages, clock) && clock <= now ==> AllStamped(voyages', now)
  {
    if voyages' != voyages {
      if y, target :|
        y in voyages && VoyageEdge(voyages[y].state, target) && voyages[y].Transition(target, now).Success?
        && voyages' == voyages[y := voyages[y].Transition(target, now).value.(version := voyages[y].version + 1)]
      {
        MoveFollows(voyages[y], target, now, clock);
        RowMoves(voyages, y, voyages'[y], now, clock);
      } else {
        var y, input, hold :| y !in voyages && voyages' == voyages[y := NewVoyage(input, hold, now)];
        RowAdded(voyages, y, input, hold, now, clock);
      }
    }
  }

  lemma StepFollows(worlds: seq<World>, issues: seq<Issue>, i: nat, clock: int)
    requires IsRun(worlds, issues) && i < |issues|
    ensures AllFollow(worlds[i].voyages, worlds[i + 1].voyages)
    ensures AllStamped(worlds[i].voyages, clock) && clock <= issues[i].now
            ==> AllStamped(worlds[i + 1].voyages, issues[i].now)
  {
    StepInRun(worlds, issues, i);
    StepOpens(worlds[i], issues[i], worlds[i + 1]);
    CommandMovesOne(worlds[i], issues[i]);
    OneMoveFollows(worlds[i].voyages, worlds[i + 1].voyages, issues[i].now, clock);
  }

  // ---- whole runs ----

  /** How often the row of voyage y differs between neighbours among the states from i to j. */
  function Moves(worlds: seq<World>, y: Id, i: nat, j: nat): nat
    requires i <= j < |worlds|
  {
    if i == j then 0
    else Moves(worlds, y, i, j - 1) +
         if y in worlds[j - 1].voyages && y in worlds[j].voyages && worlds[j - 1].voyages[y] != worlds[j].voyages[y]
         then 1 else 0
  }

  lemma RowFollows(worlds: seq<World>, issues: seq<Issue>, i: nat, y: Id)
    requires IsRun(worlds, issues) && i < |issues| && y in worlds[i].voyages
    ensures y in worlds[i + 1].voyages && Follows(worlds[i].voyages[y], worlds[i + 1].voyages[y])
  {
    StepFollows(worlds, issues, i, 0);
  }

  /** From v to u in so many moves. */
  predicate Reaches(v: FishingVoyage, u: FishingVoyage, moves: nat) {
    && SamePlan(v, u) && u.version == v.version + moves && moves <= Ahead(v.state) - Ahead(u.state)
    && (moves == 0 ==> u == v)
  }

  lemma ReachesNext(v: FishingVoyage, u: FishingVoyage, moves: nat, t: FishingVoyage)
    requires Reaches(v, u, moves) && Follows(u, t)
    ensures Reaches(v, t, moves + if t == u then 0 else 1)
  {
  }

  /** A voyage keeps its plan for good, and its version counts its moves along the voyage table,
      of which there are at most four. */
  lemma {:induction false} PlansStand(worlds: seq<World>, issues: seq<Issue>, i: nat, j: nat, y: Id)
    requires IsRun(worlds, issues) && i <= j < |worlds| && y in worlds[i].voyages
    ensures y in worlds[j].voyages && Reaches(worlds[i].voyages[y], worlds[j].voyages[y], Moves(worlds, y, i, j))
    ensures Moves(worlds, y, i, j) <= 4
  {
    if i < j {
      PlansStand(worlds, issues, i, j - 1, y);
      RowFollows(worlds, issues, j - 1, y);
      ReachesNext(worlds[i].voyages[y], worlds[j - 1].voyages[y], Moves(worlds, y, i, j - 1), worlds[j].voyages[y]);
    }
  }

  function Clock(issues: seq<Issue>, i: nat): int
    requires i <= |issues|
  {
    if issues == [] then 0 else if i == 0 then issues[0].now else issues[i - 1].now
  }

  /** With a clock that never goes back, every voyage's stage times are those of the stages it has
      reached, and in order. */
  lemma {:induction false} StagesAreStamped(worlds: seq<World>, issues: seq<Issue>, i: nat)
    requires IsRun(worlds, issues) && Monotone(issues) && i < |worlds|
    ensures AllStamped(worlds[i].voyages, Clock(issues, i))
  {
    if i > 0 {
      StagesAreStamped(worlds, issues, i - 1);
      StepFollows(worlds, issues, i - 1, Clock(issues, i - 1));
    }
  }
}
