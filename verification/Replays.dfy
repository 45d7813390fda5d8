/** Planning is idempotent under its key until the key's record expires. */
module Replays {
  import opened Basics
  import opened Domain
  import opened Commands
  import opened Invariants
  import opened Runs

  predicate WellFormed(p: Principal, input: PlanInput) {
    p.userId != "" && p.role == Coordinator && input.vesselIds != [] && ValidIdempotencyKey(input.key)
  }

  /** The command is a plan that was carried out rather than replayed. */
  ghost predicate PlansAfresh(w: World, e: Issue) {
    && e.command.PlanVoyage? && !KeyHeld(w, e.command.input.key, e.now)
    && Plan(w, e.actor, e.command.input, e.now, e.command.voyageId, e.command.jobId).Commit?
  }

  function FirstResponse(w: World, e: Issue): (Id, FishingVoyage)
    requires e.command.PlanVoyage?
  {
    (e.command.voyageId, NewVoyage(e.command.input,
      Volume(w, e.command.input.vesselIds, |e.command.input.vesselIds|), e.now))
  }

  /** The outcome hands back `response` and leaves it on file, as a voyage and under the key for a day. */
  predicate Stores(w: World, input: PlanInput, now: int, response: (Id, FishingVoyage),
                   o: Outcome<(Id, FishingVoyage)>)
  {
    && o.Commit? && o.value == response
    && o.world.keys == w.keys[input.key := KeyRecord(input, response, now + DAY, now)]
    && response.0 in o.world.voyages && o.world.voyages[response.0] == response.1
  }

  lemma PlanStores(w: World, p: Principal, input: PlanInput, now: int, y: Id, jobId: Id)
    requires Plan(w, p, input, now, y, jobId).Commit? && !KeyHeld(w, input.key, now)
    ensures var run := NewVoyage(input, Volume(w, input.vesselIds, |input.vesselIds|), now);
            Stores(w, input, now, (y, run), Plan(w, p, input, now, y, jobId))
  {
  }

  /** The conditional upsert that ends a fresh plan always takes effect, and what it stores is
      what the planner was told. */
  lemma FreshPlanKeepsItsRecord(w: World, e: Issue)
    requires PlansAfresh(w, e)
    ensures var c := e.command;
            Stores(w, c.input, e.now, FirstResponse(w, e), Plan(w, e.actor, c.input, e.now, c.voyageId, c.jobId))
  {
    PlanStores(w, e.actor, e.command.input, e.now, e.command.voyageId, e.command.jobId);
  }

  /** A record that has not expired survives any one command. */
  lemma PlanKeepsRecord(w: World, p: Principal, input: PlanInput, now: int, y: Id, jobId: Id, key: string)
    requires key in w.keys && now < w.keys[key].expiresAt
    ensures var n := Plan(w, p, input, now, y, jobId).After(w); key in n.keys && n.keys[key] == w.keys[key]
  {
  }

  lemma CommandKeepsRecord(w: World, e: Issue, key: string)
    requires key in w.keys && e.now < w.keys[key].expiresAt
    ensures key in Perform(w, e).keys && Perform(w, e).keys[key] == w.keys[key]
  {
    if e.command.PlanVoyage? {
      PlanKeepsRecord(w, e.actor, e.command.input, e.now, e.command.voyageId, e.command.jobId, key);
    } else {
      Spares(w, e);
    }
  }

  predicate AllBefore(issues: seq<Issue>, i: nat, j: nat, limit: int)
    requires j <= |issues|
  {
    forall k | i <= k < j :: issues[k].now < limit
  }

  /** The key's record is that of the plan made from `input` at time `at`. */
  predicate Records(w: World, input: PlanInput, response: (Id, FishingVoyage), at: int) {
    input.key in w.keys && w.keys[input.key] == KeyRecord(input, response, at + DAY, at)
  }

  lemma StepKeepsRecord(w: World, e: Issue, n: World, input: PlanInput, response: (Id, FishingVoyage), at: int)
    requires Step(w, e, n) && Records(w, input, response, at) && e.now < at + DAY
    ensures Records(n, input, response, at)
  {
    StepOpens(w, e, n);
    CommandKeepsRecord(w, e, input.key);
  }

  lemma {:induction false} RecordSurvives(worlds: seq<World>, issues: seq<Issue>, i: nat, j: nat, input: PlanInput,
                                          response: (Id, FishingVoyage), at: int)
    requires IsRun(worlds, issues) && i <= j < |worlds| && Records(worlds[i], input, response, at)
    requires AllBefore(issues, i, j, at + DAY)
    ensures Records(worlds[j], input, response, at)
  {
    if i < j {
      RecordSurvives(worlds, issues, i, j - 1, input, response, at);
      StepInRun(worlds, issues, j - 1);
      StepKeepsRecord(worlds[j - 1], issues[j - 1], worlds[j], input, response, at);
    }
  }

  /** While a record is held, its request gets the stored response and every other request under
      the key is refused; neither touches the store. */
  lemma HeldKeyAnswers(w: World, p: Principal, again: PlanInput, now: int, y: Id, jobId: Id)
    requires WellFormed(p, again) && KeyHeld(w, again.key, now)
    ensures Plan(w, p, again, now, y, jobId) ==
            if again == w.keys[again.key].request then Commit(w, w.keys[again.key].response) else Refuse(Conflict)
  {
  }

  lemma FreshStepKeepsRecord(worlds: seq<World>, issues: seq<Issue>, i: nat)
    requires IsRun(worlds, issues) && i < |issues| && PlansAfresh(worlds[i], issues[i])
    ensures Records(worlds[i + 1], issues[i].command.input, FirstResponse(worlds[i], issues[i]), issues[i].now)
  {
    StepInRun(worlds, issues, i);
    StepOpens(worlds[i], issues[i], worlds[i + 1]);
    FreshPlanKeepsItsRecord(worlds[i], issues[i]);
  }

  /** For a day after a plan its record stands, whatever else happens. */
  lemma RecordStands(worlds: seq<World>, issues: seq<Issue>, i: nat, j: nat)
    requires IsRun(worlds, issues) && i < j < |worlds| && PlansAfresh(worlds[i], issues[i])
    requires AllBefore(issues, i + 1, j, issues[i].now + DAY)
    ensures var input := issues[i].command.input;
            Records(worlds[j], input, FirstResponse(worlds[i], issues[i]), issues[i].now)
  {
    var input, response, at := issues[i].command.input, FirstResponse(worlds[i], issues[i]), issues[i].now;
    FreshStepKeepsRecord(worlds, issues, i);
    RecordSurvives(worlds, issues, i + 1, j, input, response, at);
  }

  lemma RecordAnswers(w: World, p: Principal, again: PlanInput, now: int, y: Id, jobId: Id, first: PlanInput,
                      response: (Id, FishingVoyage), at: int)
    requires Records(w, first, response, at) && now < at + DAY && WellFormed(p, again) && again.key == first.key
    ensures Plan(w, p, again, now, y, jobId) == if again == first then Commit(w, response) else Refuse(Conflict)
  {
    HeldKeyAnswers(w, p, again, now, y, jobId);
  }

  /** For a day after a plan, whatever else happens, the same request gets the first response
      back and any other request under the key is refused, and the whole store stays as it is. */
  lemma PlanningIsIdempotent(worlds: seq<World>, issues: seq<Issue>, i: nat, j: nat, p: Principal, again: PlanInput,
                             now: int, y: Id, jobId: Id)
    requires IsRun(worlds, issues) && i < j < |worlds| && PlansAfresh(worlds[i], issues[i])
    requires forall k | i < k < j :: issues[k].now < issues[i].now + DAY
    requires now < issues[i].now + DAY && WellFormed(p, again) && again.key == issues[i].command.input.key
    ensures Plan(worlds[j], p, again, now, y, jobId) ==
            if again == issues[i].command.input then Commit(worlds[j], FirstResponse(worlds[i], issues[i]))
              else Refuse(Conflict)
  {
    RecordStands(worlds, issues, i, j);
    var first := issues[i].command.input;
    RecordAnswers(worlds[j], p, again, now, y, jobId, first, FirstResponse(worlds[i], issues[i]), issues[i].now);
  }

  lemma KeyStillHeld(worlds: seq<World>, issues: seq<Issue>, i: nat, j: nat, now: int)
    requires IsRun(worlds, issues) && i < j < |worlds| && PlansAfresh(worlds[i], issues[i]) && now < issues[i].now + DAY
    requires forall k | i < k < j :: issues[k].now <= now
    ensures KeyHeld(worlds[j], issues[i].command.input.key, now)
  {
    RecordStands(worlds, issues, i, j);
  }

  /** Two plans carried out under one key are at least 24 hours apart. */
  lemma FreshPlansADayApart(worlds: seq<World>, issues: seq<Issue>, i: nat, j: nat)
    requires IsRun(worlds, issues) && i < j < |issues| && Monotone(issues)
    requires PlansAfresh(worlds[i], issues[i]) && PlansAfresh(worlds[j], issues[j])
    requires issues[i].command.input.key == issues[j].command.input.key
    ensures issues[i].now + DAY <= issues[j].now
  {
    if issues[j].now < issues[i].now + DAY { KeyStillHeld(worlds, issues, i, j, issues[j].now); }
  }

  /** The same on the rows: two voyages planned under one key were created at least 24 hours apart in either
      order, and every voyage has exactly one planning job. */
  lemma KeysSpaceVoyages(worlds: seq<World>, issues: seq<Issue>, i: nat, y: Id, z: Id)
    requires IsRun(worlds, issues) && i < |worlds| && y in worlds[i].voyages && z in worlds[i].voyages
    ensures y in worlds[i].plannedUnder && z in worlds[i].plannedUnder
    ensures y != z && worlds[i].plannedUnder[y] == worlds[i].plannedUnder[z] ==>
              var s, t := worlds[i].voyages[y].createdAt, worlds[i].voyages[z].createdAt; s + DAY <= t || t + DAY <= s
    ensures |JobsFor(worlds[i].jobs, VoyagePlanned, y)| == 1
  {
    RunKeepsInv(worlds, issues, i);
  }
}
