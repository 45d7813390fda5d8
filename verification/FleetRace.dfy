/** Planning, transitions, cancellation and maintenance racing for a fleet. Sessions read rows
    whenever they like and act on what they read; only the version predicate of each UPDATE
    (internal/storage/sqlite/write_core.go) stands between a stale row and the table. */
module FleetRace {
  import opened Basics
  import opened Domain
  import opened Commands
  import opened Invariants
  import opened Mooring
  import opened Answers
  import opened StateTables
  import opened Books

  datatype Intent =
    | Planning(voyageId: Id, run: FishingVoyage)
    | Moving(voyageId: Id, target: VoyageState)
    | Changing(fleetId: Id, change: FleetChange)

  /** A session and the rows it has read so far. */
  datatype Session = Session(intent: Intent, voyage: Option<FishingVoyage>, fleet: Option<SupportFleet>)
  {
    /** The fleet row the session wants; a transition learns it from the voyage it read. */
    function FleetId(): Option<Id> {
      match intent
      case Planning(_, run) => Some(run.fleetId)
      case Moving(_, _) => if voyage.Some? then Some(voyage.value.fleetId) else None
      case Changing(f, _) => Some(f)
    }
  }

  datatype Race = Race(voyages: Voyages, fleets: Fleets, sessions: map<nat, Session>)

  datatype Move =
    | Open(intent: Intent)
    | ReadVoyage
    | ReadFleet
    | Finish(now: int)
    | Abandon

  // ---- the versioned writes ----

  function UpdateVoyage(voyages: Voyages, y: Id, row: FishingVoyage, expected: int): Result<Voyages> {
    if y in voyages && voyages[y].version == expected
      then Success(voyages[y := row.(version := voyages[y].version + 1)])
    else Failure(VersionConflict)
  }

  function UpdateFleet(fleets: Fleets, f: Id, row: SupportFleet, expected: int): Result<Fleets> {
    if f in fleets && fleets[f].version == expected then Success(fleets[f := row.(version := fleets[f].version + 1)])
    else Failure(VersionConflict)
  }

  function Booking(fleet: SupportFleet, y: Id, now: int): SupportFleet {
    fleet.(state := FleetState.Assigned, voyageId := y, updatedAt := now)
  }

  function Moved(fleet: SupportFleet, target: VoyageState, now: int): SupportFleet {
    Rebooked(fleet, target, now).(version := fleet.version)
  }

  type Tables = (Voyages, Fleets)

  /** A plan: insert the voyage and book the fleet row that was read. */
  function FinishPlan(voyages: Voyages, fleets: Fleets, y: Id, run: FishingVoyage, read: SupportFleet, now: int)
      : Result<Tables>
  {
    if run.state != Planned || read.EligibleFor(run.opensAt, run.hold).Some? then Failure(Conflict)
    else if y in voyages then Failure(Conflict)
    else match UpdateFleet(fleets, run.fleetId, Booking(read, y, now), read.version)
         case Failure(e) => Failure(e)
         case Success(booked) => Success((voyages[y := run], booked))
  }

  /** A transition or cancellation: the moves are computed from the rows that were read. */
  function FinishMove(voyages: Voyages, fleets: Fleets, y: Id, target: VoyageState, read: FishingVoyage,
                      fleet: SupportFleet, now: int): Result<Tables>
  {
    match read.Transition(target, now)
    case Failure(e) => Failure(e)
    case Success(run) =>
      match UpdateFleet(fleets, read.fleetId, Moved(fleet, target, now), fleet.version)
      case Failure(e) => Failure(e)
      case Success(rebooked) =>
        match UpdateVoyage(voyages, y, run, read.version)
        case Failure(e) => Failure(e)
        case Success(moved) => Success((moved, rebooked))
  }

  function FinishChange(voyages: Voyages, fleets: Fleets, f: Id, change: FleetChange, read: SupportFleet, now: int)
      : Result<Tables>
  {
    match read.Change(change, now)
    case Failure(e) => Failure(e)
    case Success(row) =>
      match UpdateFleet(fleets, f, row, read.version)
      case Failure(e) => Failure(e)
      case Success(changed) => Success((voyages, changed))
  }

  /** The end of a session: on any error the transaction rolls back. */
  function Finished(voyages: Voyages, fleets: Fleets, s: Session, now: int): Result<Tables> {
    match s
    case Session(Planning(y, run), _, Some(fleet)) => FinishPlan(voyages, fleets, y, run, fleet, now)
    case Session(Moving(y, target), Some(run), Some(fleet)) => FinishMove(voyages, fleets, y, target, run, fleet, now)
    case Session(Changing(f, change), _, Some(fleet)) => FinishChange(voyages, fleets, f, change, fleet, now)
    case _ => Failure(NotFound)
  }

  function AfterFinish(r: Race, s: nat, now: int): Race
    requires s in r.sessions
  {
    match Finished(r.voyages, r.fleets, r.sessions[s], now)
    case Success(tables) => Race(tables.0, tables.1, r.sessions - {s})
    case Failure(_) => r.(sessions := r.sessions - {s})
  }

  function Step(r: Race, s: nat, m: Move): Race {
    match m
    case Open(intent) => if s in r.sessions then r else r.(sessions := r.sessions[s := Session(intent, None, None)])
    case ReadVoyage =>
      if s in r.sessions && r.sessions[s].intent.Moving? && r.sessions[s].voyage.None?
        && r.sessions[s].intent.voyageId in r.voyages
      then r.(sessions := r.sessions[s := r.sessions[s].(voyage := Some(r.voyages[r.sessions[s].intent.voyageId]))])
        else r
    case ReadFleet =>
      if s in r.sessions && r.sessions[s].FleetId().Some? && r.sessions[s].fleet.None?
        && r.sessions[s].FleetId().value in r.fleets
      then r.(sessions := r.sessions[s := r.sessions[s].(fleet := Some(r.fleets[r.sessions[s].FleetId().value]))])
        else r
    case Finish(now) => if s in r.sessions then AfterFinish(r, s, now) else r
    case Abandon => r.(sessions := r.sessions - {s})
  }

  ghost predicate IsRace(races: seq<Race>, moves: seq<(nat, Move)>) {
    && |races| == |moves| + 1 && Escorted(races[0].voyages, races[0].fleets) && races[0].sessions == map[]
    && forall i | 0 <= i < |moves| :: races[i + 1] == Step(races[i], moves[i].0, moves[i].1)
  }

  // ---- a matching version means the row that was read ----

  /** Rows read are no newer than the table, and a row of the same version is the same row. */
  predicate Remembers(voyages: Voyages, fleets: Fleets, s: Session) {
    && (s.voyage.Some? ==>
          s.intent.Moving? && s.intent.voyageId in voyages
          && s.voyage.value.version <= voyages[s.intent.voyageId].version
          && s.voyage.value.fleetId == voyages[s.intent.voyageId].fleetId
          && (s.voyage.value.version == voyages[s.intent.voyageId].version
            ==> s.voyage.value == voyages[s.intent.voyageId]))
    && (s.fleet.Some? ==>
          s.FleetId().Some? && s.FleetId().value in fleets
          && s.fleet.value.version <= fleets[s.FleetId().value].version
          && (s.fleet.value.version == fleets[s.FleetId().value].version
            ==> s.fleet.value == fleets[s.FleetId().value]))
  }

  ghost predicate Inv(r: Race) {
    Escorted(r.voyages, r.fleets) && forall s | s in r.sessions :: Remembers(r.voyages, r.fleets, r.sessions[s])
  }

  /** The session has read all it needs and every row it read is still current. */
  predicate Current(voyages: Voyages, fleets: Fleets, s: Session) {
    && s.fleet.Some? && s.FleetId().Some? && s.FleetId().value in fleets && fleets[s.FleetId().value] == s.fleet.value
    && (s.intent.Moving? ==>
         s.voyage.Some? && s.intent.voyageId in voyages && voyages[s.intent.voyageId] == s.voyage.value)
  }

  /** The same command carried out in one go on the tables as they stand. */
  function Serial(voyages: Voyages, fleets: Fleets, intent: Intent, now: int): Result<Tables> {
    match intent
    case Planning(y, run) =>
      if run.fleetId !in fleets then Failure(NotFound)
      else if run.state != Planned || fleets[run.fleetId].EligibleFor(run.opensAt, run.hold).Some? || y in voyages
        then Failure(Conflict)
      else
        var f := fleets[run.fleetId];
        Success((voyages[y := run],
          fleets[run.fleetId := f.(state := FleetState.Assigned, voyageId := y, updatedAt := now,
          version := f.version + 1)]))
    case Moving(y, target) =>
      if y !in voyages || voyages[y].fleetId !in fleets then Failure(NotFound)
      else (match voyages[y].Transition(target, now)
            case Failure(e) => Failure(e)
            case Success(run) =>
              Success((voyages[y := run.(version := run.version + 1)],
                       fleets[run.fleetId := Rebooked(fleets[run.fleetId], target, now)])))
    case Changing(f, change) =>
      if f !in fleets then Failure(NotFound)
      else match fleets[f].Change(change, now)
           case Failure(e) => Failure(e)
           case Success(row) => Success((voyages, fleets[f := row.(version := row.version + 1)]))
  }

  /** A finish on rows that are current is the serial command; on any stale row it changes
      nothing. */
  lemma FinishIsSerialOrNothing(voyages: Voyages, fleets: Fleets, s: Session, now: int)
    requires Remembers(voyages, fleets, s)
    ensures Current(voyages, fleets, s) ==> Finished(voyages, fleets, s, now) == Serial(voyages, fleets, s.intent, now)
    ensures !Current(voyages, fleets, s) ==> Finished(voyages, fleets, s, now).Failure?
  {
  }

  /** The serial commands on the columns: what they ask, and which error they end with otherwise. */
  lemma SerialAnswers(voyages: Voyages, fleets: Fleets, intent: Intent, now: int)
    ensures match Serial(voyages, fleets, intent, now)
            case Success(_) => SerialVerdict(voyages, fleets, intent).None?
            case Failure(e) => SerialVerdict(voyages, fleets, intent) == Some(e)
  {
  }

  function SerialVerdict(voyages: Voyages, fleets: Fleets, intent: Intent): Option<Error> {
    match intent
    case Planning(y, run) =>
      var f := run.fleetId;
      Need(f in fleets, NotFound,
      Need(run.state == Planned && y !in voyages, Conflict,
      Need(f in fleets && fleets[f].state == Standby && fleets[f].inspectedAt <= run.opensAt < fleets[f].certifiedUntil
           && run.hold <= fleets[f].cargo, Conflict, None)))
    case Moving(y, target) =>
      Need(y in voyages && voyages[y].fleetId in fleets, NotFound,
      Need(y in voyages && (voyages[y].state, target) in VOYAGE_EDGES, InvalidTransition, None))
    case Changing(f, change) =>
      Need(f in fleets, NotFound,
      match change
      case StartMaintenance => Need(f in fleets && fleets[f].state == Standby, InvalidTransition, None)
      case CompleteMaintenance => Need(f in fleets && fleets[f].state == Maintenance, InvalidTransition, None)
      case Retire(_) => Need(f in fleets && fleets[f].state in {Standby, Maintenance}, Conflict, None))
  }

  /** A session opens with nothing read, reads each row once as it then stands, and may give up; none of this
      touches the tables, and no session touches another. */
  lemma SessionMoves(r: Race, s: nat, m: Move)
    requires !m.Finish?
    ensures var n := Step(r, s, m);
            && n.voyages == r.voyages && n.fleets == r.fleets
            && (forall o | o != s :: (o in n.sessions <==> o in r.sessions)
                                     && (o in r.sessions ==> n.sessions[o] == r.sessions[o]))
            && match m
               case Open(intent) =>
                 s in n.sessions && n.sessions[s] == if s in r.sessions then r.sessions[s]
                   else Session(intent, None, None)
               case Abandon => s !in n.sessions
               case _ =>
                 (s in n.sessions <==> s in r.sessions)
                   && (s in r.sessions ==> Reads(r, r.sessions[s], n.sessions[s], m))
  {
  }

  predicate Reads(r: Race, before: Session, after: Session, m: Move) {
    && after.intent == before.intent
    && (after.voyage == before.voyage
        || (m.ReadVoyage? && before.voyage.None? && before.intent.Moving? && before.intent.voyageId in r.voyages
            && after.voyage == Some(r.voyages[before.intent.voyageId])))
    && (after.fleet == before.fleet
        || (m.ReadFleet? && before.fleet.None? && before.FleetId().Some? && before.FleetId().value in r.fleets
            && after.fleet == Some(r.fleets[before.FleetId().value])))
    && (m.ReadVoyage? && before.intent.Moving? && before.intent.voyageId in r.voyages ==> after.voyage.Some?)
    && (m.ReadFleet? && before.FleetId().Some? && before.FleetId().value in r.fleets ==> after.fleet.Some?)
  }

  // ---- every race keeps the fleets paired ----

  lemma SerialPlanPairs(voyages: Voyages, fleets: Fleets, y: Id, run: FishingVoyage, now: int)
    requires Escorted(voyages, fleets) && Serial(voyages, fleets, Planning(y, run), now).Success?
    ensures var t := Serial(voyages, fleets, Planning(y, run), now).value; Escorted(t.0, t.1)
  {
    BookKeepsEscorted(voyages, fleets, y, run, now);
  }

  lemma SerialMovePairs(voyages: Voyages, fleets: Fleets, y: Id, target: VoyageState, now: int)
    requires Escorted(voyages, fleets) && Serial(voyages, fleets, Moving(y, target), now).Success?
    ensures var t := Serial(voyages, fleets, Moving(y, target), now).value; Escorted(t.0, t.1)
  {
    var t := Serial(voyages, fleets, Moving(y, target), now).value;
    assert Progressed(voyages, t.0, y);
    RebookKeepsEscorted(voyages, t.0, fleets, y, now);
  }

  lemma SerialKeepsEscorted(voyages: Voyages, fleets: Fleets, intent: Intent, now: int)
    requires Escorted(voyages, fleets) && Serial(voyages, fleets, intent, now).Success?
    ensures var t := Serial(voyages, fleets, intent, now).value; Escorted(t.0, t.1)
  {
    match intent
    case Planning(y, run) => SerialPlanPairs(voyages, fleets, y, run, now);
    case Moving(y, target) => SerialMovePairs(voyages, fleets, y, target, now);
    case Changing(f, change) => ChangeKeepsPairing(voyages, fleets, f, change, now);
  }

  lemma ChangeKeepsPairing(voyages: Voyages, fleets: Fleets, f: Id, change: FleetChange, now: int)
    requires Escorted(voyages, fleets) && f in fleets && fleets[f].Change(change, now).Success?
    ensures var row := fleets[f].Change(change, now).value;
            Escorted(voyages, fleets[f := row.(version := row.version + 1)])
  {
  }

  /** Every write raises the version of the row it writes, so older rows stay recognisably old. */
  lemma FinishKeepsMemory(voyages: Voyages, fleets: Fleets, s: Session, now: int, other: Session)
    requires Remembers(voyages, fleets, s) && Remembers(voyages, fleets, other)
             && Finished(voyages, fleets, s, now).Success?
    ensures var t := Finished(voyages, fleets, s, now).value; Remembers(t.0, t.1, other)
  {
  }

  lemma FinishKeepsInv(r: Race, s: nat, now: int)
    requires Inv(r) && s in r.sessions
    ensures Inv(AfterFinish(r, s, now))
  {
    FinishIsSerialOrNothing(r.voyages, r.fleets, r.sessions[s], now);
    if Finished(r.voyages, r.fleets, r.sessions[s], now).Success? {
      SerialKeepsEscorted(r.voyages, r.fleets, r.sessions[s].intent, now);
      forall o | o in r.sessions ensures var t := Finished(r.voyages, r.fleets, r.sessions[s], now).value;
        Remembers(t.0, t.1, r.sessions[o]) {
        FinishKeepsMemory(r.voyages, r.fleets, r.sessions[s], now, r.sessions[o]);
      }
    }
  }

  lemma StepKeepsInv(r: Race, s: nat, m: Move)
    requires Inv(r)
    ensures Inv(Step(r, s, m))
  {
    if m.Finish? && s in r.sessions { FinishKeepsInv(r, s, m.now); }
  }

  lemma {:induction false} RaceKeepsInv(races: seq<Race>, moves: seq<(nat, Move)>, i: nat)
    requires IsRace(races, moves) && i < |races|
    ensures Inv(races[i])
  {
    if i > 0 {
      RaceKeepsInv(races, moves, i - 1);
      StepKeepsInv(races[i - 1], moves[i - 1].0, moves[i - 1].1);
    }
  }

  /** However sessions interleave and however stale their rows, underway voyages and busy fleets
      stay in bijection. */
  lemma RaceKeepsFleetsPaired(races: seq<Race>, moves: seq<(nat, Move)>, i: nat)
    requires IsRace(races, moves) && i < |races|
    ensures Paired(races[i].voyages, races[i].fleets)
  {
    RaceKeepsInv(races, moves, i);
    EscortsPair(races[i].voyages, races[i].fleets);
  }

  /** The tables after any finish are those of the serial command, or those before it. */
  lemma FinishRefinesSerial(races: seq<Race>, moves: seq<(nat, Move)>, i: nat, s: nat, now: int)
    requires IsRace(races, moves) && i < |races| && s in races[i].sessions
    ensures var r, n := races[i], AfterFinish(races[i], s, now);
            var serial := Serial(r.voyages, r.fleets, r.sessions[s].intent, now);
            if Current(r.voyages, r.fleets, r.sessions[s]) && serial.Success? then (n.voyages, n.fleets) == serial.value
            else n.voyages == r.voyages && n.fleets == r.fleets
  {
    RaceKeepsInv(races, moves, i);
    FinishIsSerialOrNothing(races[i].voyages, races[i].fleets, races[i].sessions[s], now);
  }

  // ---- the serial commands are the service's own ----

  lemma SerialIsAdvance(w: World, p: Principal, y: Id, target: VoyageState, now: int)
    requires Advance(w, p, y, target, now).Commit?
    ensures var n := Advance(w, p, y, target, now).world;
            Serial(w.voyages, w.fleets, Moving(y, target), now) == Success((n.voyages, n.fleets))
  {
  }

  lemma SerialIsCancel(w: World, p: Principal, y: Id, now: int)
    requires Cancel(w, p, y, now).Commit?
    ensures var n := Cancel(w, p, y, now).world;
            Serial(w.voyages, w.fleets, Moving(y, Cancelled), now) == Success((n.voyages, n.fleets))
  {
  }

  lemma SerialIsChange(w: World, p: Principal, f: Id, change: FleetChange, now: int)
    requires ChangeFleet(w, p, f, change, now).Commit?
    ensures var n := ChangeFleet(w, p, f, change, now).world;
            Serial(w.voyages, w.fleets, Changing(f, change), now) == Success((n.voyages, n.fleets))
  {
  }

  lemma PlanFindsFleet(w: World, input: PlanInput, now: int)
    requires PlanObjection(w, input, now).None?
    ensures input.fleetId in w.fleets
    ensures w.fleets[input.fleetId].EligibleFor(input.opensAt, Volume(w, input.vesselIds, |input.vesselIds|)).None?
  {
  }

  lemma PlanIsFresh(w: World, p: Principal, input: PlanInput, now: int, y: Id, jobId: Id)
    requires Plan(w, p, input, now, y, jobId).Commit? && !KeyHeld(w, input.key, now)
    ensures PlanObjection(w, input, now).None? && y !in w.voyages && !PlanClashes(w, input, y, jobId)
    ensures Plan(w, p, input, now, y, jobId).world == PlannedWorld(w, input, now, y, jobId)
  {
  }

  lemma PlanBooks(w: World, input: PlanInput, now: int, y: Id, jobId: Id)
    requires y !in w.voyages && input.fleetId in w.fleets && !PlanClashes(w, input, y, jobId)
    requires w.fleets[input.fleetId].EligibleFor(input.opensAt, Volume(w, input.vesselIds, |input.vesselIds|)).None?
    ensures var n := PlannedWorld(w, input, now, y, jobId);
            Serial(w.voyages, w.fleets,
              Planning(y, NewVoyage(input, Volume(w, input.vesselIds, |input.vesselIds|), now)), now)
            == Success((n.voyages, n.fleets))
  {
  }

  lemma SerialIsPlan(w: World, p: Principal, input: PlanInput, now: int, y: Id, jobId: Id)
    requires Plan(w, p, input, now, y, jobId).Commit? && !KeyHeld(w, input.key, now)
    ensures var n := Plan(w, p, input, now, y, jobId).world;
            Serial(w.voyages, w.fleets,
              Planning(y, NewVoyage(input, Volume(w, input.vesselIds, |input.vesselIds|), now)), now)
            == Success((n.voyages, n.fleets))
  {
    PlanIsFresh(w, p, input, now, y, jobId);
    PlanFindsFleet(w, input, now);
    PlanBooks(w, input, now, y, jobId);
  }
}
