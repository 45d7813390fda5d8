/** The promises to the people at sea, for every state of every run: what may be done by the
    deadline, and what the closure report says. */
module Progress {
  import opened Basics
  import opened Domain
  import opened Commands
  import opened Invariants
  import opened Readiness
  import opened Runs

  /** The closure report agrees with the close command of anyone who may close. */
  lemma ReportMatchesClose(worlds: seq<World>, issues: seq<Issue>, i: nat, y: Id, last: Option<int>, p: Principal,
                           now: int)
    requires IsRun(worlds, issues) && i < |worlds| && y in worlds[i].voyages
    ensures if worlds[i].voyages[y].state == Closed then Report(worlds[i], y, last).Complete()
            else (Advance(worlds[i], p, y, Closed, now).Commit?
                  <==> Permitted(p, Closed) && Report(worlds[i], y, last).Complete())
  {
    RunKeepsInv(worlds, issues, i);
    ReadinessAgrees(worlds[i], y, last, p, now);
  }

  /** Nothing but a re-verified vessel stands in the way of a voyage before its deadline: a move
      the voyage table allows commits if and only if it is asked for in the right role and is a
      clearing or a landing, or all vessels of the voyage are still assigned. */
  lemma NobodyIsHeldUp(worlds: seq<World>, issues: seq<Issue>, i: nat, y: Id, p: Principal, target: VoyageState,
                       now: int)
    requires IsRun(worlds, issues) && i < |worlds| && y in worlds[i].voyages && now <= worlds[i].voyages[y].deadlineAt
    requires VoyageEdge(worlds[i].voyages[y].state, target) && target != Closed
    ensures (if target == Cancelled then Cancel(worlds[i], p, y, now).Commit?
            else Advance(worlds[i], p, y, target, now).Commit?)
            <==> Permitted(p, target)
                 && (target in {VoyageState.Cleared, VoyageState.Landed} || AllAssigned(worlds[i], y))
  {
    RunKeepsInv(worlds, issues, i);
    ProgressByDeadline(worlds[i], y, p, target, now);
  }

  /** In a run that verifies no vessel twice, every such move commits exactly for those who may ask. */
  lemma NobodyIsEverHeldUp(worlds: seq<World>, issues: seq<Issue>, i: nat, y: Id, p: Principal, target: VoyageState,
                           now: int)
    requires IsRun(worlds, issues) && NeverReverifies(worlds, issues)
    requires i < |worlds| && y in worlds[i].voyages && now <= worlds[i].voyages[y].deadlineAt
    requires VoyageEdge(worlds[i].voyages[y].state, target) && target != Closed
    ensures (if target == Cancelled then Cancel(worlds[i], p, y, now).Commit?
            else Advance(worlds[i], p, y, target, now).Commit?) <==> Permitted(p, target)
  {
    NobodyIsHeldUp(worlds, issues, i, y, p, target, now);
    StaysInLockstep(worlds, issues, i);
    if BeforeDeparture(worlds[i].voyages[y].state) { LockstepAssigned(worlds[i], y); }
  }

  lemma LockstepAssigned(w: World, y: Id)
    requires InLockstep(w) && y in w.voyages && BeforeDeparture(w.voyages[y].state)
    ensures AllAssigned(w, y)
  {
  }
}
