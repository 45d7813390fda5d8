/** The state tables and the row rules of internal/domain, edge by edge: what each move of a row asks, what it
    answers otherwise, and what it writes. */
module StateTables {
  import opened Basics
  import opened Domain
  import opened Answers

  const VESSEL_EDGES := {
    (Berthed, SeaReady), (Berthed, VesselState.Retired), (SeaReady, VesselState.Assigned),
      (SeaReady, VesselState.Retired),
    (VesselState.Assigned, SeaReady), (VesselState.Assigned, AtSea), (AtSea, VesselState.Landed), (AtSea, Quarantined),
    (VesselState.Landed, Reinspected), (VesselState.Landed, Quarantined), (Quarantined, Reinspected),
    (Quarantined, VesselState.Retired) }

  const VOYAGE_EDGES := {
    (Planned, VoyageState.Cleared), (Planned, Cancelled), (VoyageState.Cleared, Departed),
      (VoyageState.Cleared, Cancelled),
    (Departed, VoyageState.Landed), (VoyageState.Landed, Closed) }

  predicate Moved<T(==)>(r: Result<T>, verdict: Option<Error>, row: T) {
    r == match verdict case Some(e) => Failure(e) case None => Success(row)
  }

  /** A vessel moves along its table, and with a certificate that has run out only into quarantine or retirement. */
  lemma VesselMoves(v: FishingVessel, to: VesselState, now: int)
    ensures Moved(v.Transition(to, now),
                  Need((v.state, to) in VESSEL_EDGES, InvalidTransition,
                  Need(v.expiresAt > now || to == Quarantined || to == VesselState.Retired, Conflict, None)),
                  v.(state := to, updatedAt := now))
  {
  }

  /** A voyage moves along its table, and each stage sets its own time. */
  lemma VoyageMoves(v: FishingVoyage, to: VoyageState, now: int)
    ensures Moved(v.Transition(to, now), Need((v.state, to) in VOYAGE_EDGES, InvalidTransition, None),
                  var r := v.(state := to, updatedAt := now);
                  match to
                  case Departed => r.(departedAt := Some(now))
                  case Landed => r.(landedAt := Some(now))
                  case Closed => r.(closedAt := Some(now))
                  case _ => r)
  {
  }

  /** A pending task takes any answer in time and after it only its expiry. */
  lemma TaskMoves(t: CatchLandingTask, to: TaskStatus, text: string, now: int)
    ensures Moved(t.Resolve(to, text, now),
                  Need(t.status == TaskStatus.Pending, InvalidTransition,
                  Need(now <= t.expiresAt || to == TaskStatus.Expired, Error.Expired,
                  Need(to != TaskStatus.Pending, Validation, None))),
                  t.(status := to, note := TrimSpace(text), resolvedAt := Some(now), updatedAt := now))
  {
  }

  /** An open anomaly goes under review; an open or reviewed one is cleared or rejected. */
  lemma AnomalyMoves(a: CatchAnomaly, decision: AnomalyStatus, now: int)
    ensures Moved(a.StartReview(now), Need(a.status == Open, InvalidTransition, None),
                  a.(status := Reviewing, updatedAt := now))
    ensures Moved(a.Decide(decision, now),
                  Need(a.status in {Open, Reviewing}, InvalidTransition,
                  Need(decision in {AnomalyStatus.Cleared, Rejected}, Validation, None)),
                  a.(status := decision, updatedAt := now))
  {
  }

  /** A fleet goes into maintenance from standby and back freshly inspected, and retires from either. */
  lemma FleetMoves(f: SupportFleet, reason: string, now: int)
    ensures Moved(f.Change(StartMaintenance, now), Need(f.state == Standby, InvalidTransition, None),
                  f.(state := Maintenance, updatedAt := now))
    ensures Moved(f.Change(CompleteMaintenance, now), Need(f.state == Maintenance, InvalidTransition, None),
                  f.(state := Standby, inspectedAt := now, updatedAt := now))
    ensures Moved(f.Change(Retire(reason), now), Need(f.state in {Standby, Maintenance}, Conflict, None),
                  f.(state := FleetState.Retired, voyageId := "", updatedAt := now))
  {
  }

  /** A fleet may escort from standby, with its certificate running past the start and its inspection by then,
      and with room for the volume. */
  lemma FleetEscorts(f: SupportFleet, start: int, volume: int)
    ensures f.EligibleFor(start, volume) ==
            Need(f.state == Standby, Conflict,
            Need(start < f.certifiedUntil && f.inspectedAt <= start, Conflict,
            Need(volume <= f.cargo, CapacityExceeded, None)))
  {
  }

  predicate LowerCase(c: char) { 'a' <= c <= 'z' }

  predicate HexDigit(c: char) { '0' <= c <= '9' || 'a' <= c <= 'f' }

  /** A prefix of lower-case words, an underscore, and the hexadecimal digits of 12 bytes. */
  predicate MadeOf(id: Id, prefix: string, digits: string) {
    && id == prefix + "_" + digits && prefix != "" && LowerCase(prefix[0]) && |digits| == 2 * 12
    && (forall k | 0 <= k < |prefix| :: LowerCase(prefix[k]) || prefix[k] == '_')
    && forall k | 0 <= k < |digits| :: HexDigit(digits[k])
  }

  /** What is generated is so made, and what is so made is generated. */
  lemma GeneratedIsMade(id: Id) returns (prefix: string, digits: string)
    requires Generated(id)
    ensures MadeOf(id, prefix, digits)
  {
    var n := |id| - 25;
    prefix, digits := id[..n], id[n + 1..];
    assert id == prefix + "_" + digits;
    forall k | 0 <= k < |digits| ensures HexDigit(digits[k]) {
      assert digits[k] == id[n + 1 + k] && IsHex(id[n + 1 + k]);
    }
  }

  lemma MadeIsGenerated(id: Id, prefix: string, digits: string)
    requires MadeOf(id, prefix, digits)
    ensures Generated(id)
  {
    var n := |id| - 25;
    assert n == |prefix| && id[..n] == prefix && id[n] == '_';
    forall i | n < i < |id| ensures IsHex(id[i]) {
      assert id[i] == digits[i - n - 1];
    }
  }
}
