/** Two history columns against the run: the anomaly each declaration was included in, and the key each
    voyage was planned under, are what the callers were answered and asked. */
module Histories {
  import opened Basics
  import opened Domain
  import opened Commands
  import opened Runs
  import opened Replays

  /** What one submission was answered: the anomaly its declaration went into, if any. */
  ghost function Answered(w: World, e: Issue): map<Id, Id> {
    if !e.command.SubmitDeclaration? then map[]
    else
      var c := e.command;
      Placed(c.declarationId, Submit(w, e.actor, Received(c.declaration, e.now), e.now, c.declarationId, c.anomalyId,
        c.jobId))
  }

  function Placed(id: Id, o: Outcome<(CatchDeclaration, Option<(Id, CatchAnomaly)>)>): map<Id, Id> {
    if o.Commit? && o.value.1.Some? then map[id := o.value.1.value.0] else map[]
  }

  /** The answers to the first n commands. */
  ghost function Inclusions(worlds: seq<World>, issues: seq<Issue>, n: nat): map<Id, Id>
    requires n <= |issues| < |worlds|
  {
    if n == 0 then map[] else Inclusions(worlds, issues, n - 1) + Answered(worlds[n - 1], issues[n - 1])
  }

  /** The key of a plan that was carried out. */
  ghost function Asked(w: World, e: Issue): map<Id, string> {
    if PlansAfresh(w, e) then map[e.command.voyageId := e.command.input.key] else map[]
  }

  ghost function Plans(worlds: seq<World>, issues: seq<Issue>, n: nat): map<Id, string>
    requires n <= |issues| < |worlds|
  {
    if n == 0 then map[] else Plans(worlds, issues, n - 1) + Asked(worlds[n - 1], issues[n - 1])
  }

  lemma PutIsSum<K, V>(m: map<K, V>, k: K, v: V)
    ensures m + map[k := v] == m[k := v] && m + map[] == m
  {
  }

  lemma FlagIncludes(w: World, d: CatchDeclaration, due: int, now: int, id: Id, a: Id, job: Id)
    ensures FlaggedWorld(w, d, due, now, id, a, job).includedIn == w.includedIn[id := a]
  {
  }

  lemma SubmitIncludes(w: World, p: Principal, d: CatchDeclaration, now: int, id: Id, a: Id, job: Id)
    requires Submit(w, p, d, now, id, a, job).Commit?
    ensures var o := Submit(w, p, d, now, id, a, job);
            o.world.includedIn == match o.value.1
                                  case None => w.includedIn
                                  case Some(anomaly) => w.includedIn[id := anomaly.0]
  {
    var permit := w.permits[w.voyages[d.voyageId].permitId];
    if !permit.Contains(d.variance) {
      FlagIncludes(w, d, permit.reviewDeadline, now, id, TargetAnomaly(w, d.voyageId, a), job);
    }
  }

  lemma SubmitPlaces(w: World, p: Principal, d: CatchDeclaration, now: int, id: Id, a: Id, job: Id)
    ensures var o := Submit(w, p, d, now, id, a, job); o.After(w).includedIn == w.includedIn + Placed(id, o)
  {
    var o := Submit(w, p, d, now, id, a, job);
    PutIsSum(w.includedIn, id, a);
    if o.Commit? {
      SubmitIncludes(w, p, d, now, id, a, job);
      if o.value.1.Some? { PutIsSum(w.includedIn, id, o.value.1.value.0); }
    }
  }

  lemma SubmitAddsItsAnswer(w: World, e: Issue)
    requires e.command.SubmitDeclaration?
    ensures Perform(w, e).includedIn == w.includedIn + Answered(w, e)
  {
    var c := e.command;
    SubmitPlaces(w, e.actor, Received(c.declaration, e.now), e.now, c.declarationId, c.anomalyId, c.jobId);
  }

  lemma PlanFiles(w: World, p: Principal, input: PlanInput, now: int, y: Id, job: Id)
    ensures var o := Plan(w, p, input, now, y, job);
            o.After(w).plannedUnder == if o.Commit? && !KeyHeld(w, input.key, now) then w.plannedUnder[y := input.key]
              else w.plannedUnder
  {
  }

  lemma PlanAddsItsKey(w: World, e: Issue)
    requires e.command.PlanVoyage?
    ensures Perform(w, e).plannedUnder == w.plannedUnder + Asked(w, e)
  {
    PlanFiles(w, e.actor, e.command.input, e.now, e.command.voyageId, e.command.jobId);
    PutIsSum(w.plannedUnder, e.command.voyageId, e.command.input.key);
  }

  lemma CommandAddsItsHistory(w: World, e: Issue)
    ensures Perform(w, e).includedIn == w.includedIn + Answered(w, e)
    ensures Perform(w, e).plannedUnder == w.plannedUnder + Asked(w, e)
  {
    Spares(w, e);
    PutIsSum(w.includedIn, "", "");
    PutIsSum(w.plannedUnder, "", "");
    if e.command.SubmitDeclaration? { SubmitAddsItsAnswer(w, e); }
    if e.command.PlanVoyage? { PlanAddsItsKey(w, e); }
  }

  /** The history columns grow by what each command answered or was asked, and by nothing else. */
  lemma StepAddsItsHistory(worlds: seq<World>, issues: seq<Issue>, i: nat)
    requires IsRun(worlds, issues) && i < |issues|
    ensures worlds[i + 1].includedIn == worlds[i].includedIn + Answered(worlds[i], issues[i])
    ensures worlds[i + 1].plannedUnder == worlds[i].plannedUnder + Asked(worlds[i], issues[i])
  {
    StepInRun(worlds, issues, i);
    StepOpens(worlds[i], issues[i], worlds[i + 1]);
    CommandAddsItsHistory(worlds[i], issues[i]);
  }

  lemma HistoriesStartEmpty(worlds: seq<World>, issues: seq<Issue>)
    requires IsRun(worlds, issues)
    ensures worlds[0].includedIn == map[] && worlds[0].plannedUnder == map[]
  {
  }

  /** Each declaration was included in the anomaly its submitter was given. */
  lemma {:induction false} InclusionsAreAnswers(worlds: seq<World>, issues: seq<Issue>, n: nat)
    requires IsRun(worlds, issues) && n < |worlds|
    ensures worlds[n].includedIn == Inclusions(worlds, issues, n)
  {
    if n == 0 {
      HistoriesStartEmpty(worlds, issues);
    } else {
      InclusionsAreAnswers(worlds, issues, n - 1);
      StepAddsItsHistory(worlds, issues, n - 1);
    }
  }

  /** Each voyage is filed under the key of the plan that was carried out for it. */
  lemma {:induction false} PlansAreKeys(worlds: seq<World>, issues: seq<Issue>, n: nat)
    requires IsRun(worlds, issues) && n < |worlds|
    ensures worlds[n].plannedUnder == Plans(worlds, issues, n)
  {
    if n == 0 {
      HistoriesStartEmpty(worlds, issues);
    } else {
      PlansAreKeys(worlds, issues, n - 1);
      StepAddsItsHistory(worlds, issues, n - 1);
    }
  }
}
