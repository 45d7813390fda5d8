/** The rows a transaction works on: a record is loaded, changed in place, and written back
    (the methods of internal/domain that change their receiver). */
module Records {
  import opened Basics
  import opened Domain
  import opened Readiness

  class VesselRecord {
    var row: FishingVessel

    constructor (row: FishingVessel)
      ensures this.row == row
    {
      this.row := row;
    }

    method Transition(to: VesselState, now: int) returns (r: Result<()>)
      modifies this
      ensures match old(row).Transition(to, now)
              case Success(v) => r.Success? && row == v
              case Failure(e) => r == Failure(e) && row == old(row)
    {
      if !VesselEdge(row.state, to) { return Failure(InvalidTransition); }
      if !row.UsableAt(now) && to != VesselState.Retired && to != Quarantined { return Failure(Conflict); }
      row := row.(state := to);
      row := row.(updatedAt := now);
      return Success(());
    }
  }

  class VoyageRecord {
    var row: FishingVoyage

    constructor (row: FishingVoyage)
      ensures this.row == row
    {
      this.row := row;
    }

    method Transition(to: VoyageState, now: int) returns (r: Result<()>)
      modifies this
      ensures match old(row).Transition(to, now)
              case Success(v) => r.Success? && row == v
              case Failure(e) => r == Failure(e) && row == old(row)
    {
      if !VoyageEdge(row.state, to) { return Failure(InvalidTransition); }
      if to == Departed {
        row := row.(departedAt := Some(now));
      } else if to == VoyageState.Landed {
        row := row.(landedAt := Some(now));
      } else if to == Closed {
        row := row.(closedAt := Some(now));
      }
      row := row.(state := to, updatedAt := now);
      return Success(());
    }
  }

  class FleetRecord {
    var row: SupportFleet

    constructor (row: SupportFleet)
      ensures this.row == row
    {
      this.row := row;
    }

    method StartMaintenance(now: int) returns (r: Result<()>)
      modifies this
      ensures r.Success? <==> old(row).state == Standby
      ensures row == if r.Success? then old(row).(state := Maintenance, updatedAt := now) else old(row)
      ensures r.Failure? ==> r.error == InvalidTransition
    {
      if row.state != Standby { return Failure(InvalidTransition); }
      row := row.(state := Maintenance, updatedAt := now);
      return Success(());
    }

    method CompleteMaintenance(now: int) returns (r: Result<()>)
      modifies this
      ensures r.Success? <==> old(row).state == Maintenance
      ensures row == if r.Success? then old(row).(state := Standby, inspectedAt := now, updatedAt := now) else old(row)
      ensures r.Failure? ==> r.error == InvalidTransition
    {
      if row.state != Maintenance { return Failure(InvalidTransition); }
      row := row.(state := Standby, inspectedAt := now, updatedAt := now);
      return Success(());
    }

    method Retire(now: int) returns (r: Result<()>)
      modifies this
      ensures r.Success? <==> old(row).state in {Standby, Maintenance}
      ensures row == if r.Success? then old(row).(state := FleetState.Retired, voyageId := "", updatedAt := now)
              else old(row)
      ensures r.Failure? ==> r.error == Conflict
    {
      if row.state != Standby && row.state != Maintenance { return Failure(Conflict); }
      row := row.(state := FleetState.Retired, voyageId := "", updatedAt := now);
      return Success(());
    }

    /** The three maintenance commands as one, chosen by the caller's closure. */
    method Change(change: FleetChange, now: int) returns (r: Result<()>)
      modifies this
      ensures match old(row).Change(change, now)
              case Success(f) => r.Success? && row == f
              case Failure(e) => r == Failure(e) && row == old(row)
    {
      match change
      case StartMaintenance => r := StartMaintenance(now);
      case CompleteMaintenance => r := CompleteMaintenance(now);
      case Retire(_) => r := Retire(now);
    }
  }

  class AnomalyRecord {
    var row: CatchAnomaly

    constructor (row: CatchAnomaly)
      ensures this.row == row
    {
      this.row := row;
    }

    method Include(d: CatchDeclaration, now: int)
      modifies this
      ensures row == old(row).Include(d, now)
    {
      if row.count == 0 || d.recordedAt < row.firstAt { row := row.(firstAt := d.recordedAt); }
      if row.count == 0 || d.recordedAt > row.lastAt { row := row.(lastAt := d.recordedAt); }
      if row.count == 0 || d.variance < row.minimum { row := row.(minimum := d.variance); }
      if row.count == 0 || d.variance > row.maximum { row := row.(maximum := d.variance); }
      row := row.(count := row.count + 1);
      row := row.(updatedAt := now);
    }

    method StartReview(now: int) returns (r: Result<()>)
      modifies this
      ensures match old(row).StartReview(now)
              case Success(a) => r.Success? && row == a
              case Failure(e) => r == Failure(e) && row == old(row)
    {
      if row.status != Open { return Failure(InvalidTransition); }
      row := row.(status := Reviewing, updatedAt := now);
      return Success(());
    }

    method Decide(decision: AnomalyStatus, now: int) returns (r: Result<()>)
      modifies this
      ensures match old(row).Decide(decision, now)
              case Success(a) => r.Success? && row == a
              case Failure(e) => r == Failure(e) && row == old(row)
    {
      if row.status != Open && row.status != Reviewing { return Failure(InvalidTransition); }
      if decision != AnomalyStatus.Cleared && decision != Rejected { return Failure(Validation); }
      row := row.(status := decision, updatedAt := now);
      return Success(());
    }
  }

  class TaskRecord {
    var row: CatchLandingTask

    constructor (row: CatchLandingTask)
      ensures this.row == row
    {
      this.row := row;
    }

    method Resolve(to: TaskStatus, text: string, now: int) returns (r: Result<()>)
      modifies this
      ensures match old(row).Resolve(to, text, now)
              case Success(t) => r.Success? && row == t
              case Failure(e) => r == Failure(e) && row == old(row)
    {
      if row.status != TaskStatus.Pending { return Failure(InvalidTransition); }
      if now > row.expiresAt && to != TaskStatus.Expired { return Failure(Error.Expired); }
      if to != Approved && to != TaskStatus.Denied && to != TaskStatus.Expired { return Failure(Validation); }
      row := row.(status := to, note := TrimSpace(text));
      row := row.(resolvedAt := Some(now), updatedAt := now);
      return Success(());
    }
  }

  class VoyageReadiness {
    var figures: Figures
    var complete: bool
    var blockers: seq<Blocker>

    constructor (figures: Figures)
      ensures this.figures == figures && !complete && blockers == []
    {
      this.figures := figures;
      complete, blockers := false, [];
    }

    method Evaluate()
      modifies this`complete, this`blockers
      ensures blockers == figures.Blockers() && (complete <==> figures.Complete())
    {
      blockers := [];
      if figures.pending { blockers := blockers + [PendingHandoff]; }
      ghost var first := if figures.pending then [PendingHandoff] else [];
      assert blockers == first;
      if figures.open { blockers := blockers + [OpenAnomaly]; }
      ghost var second := first + if figures.open then [OpenAnomaly] else [];
      assert blockers == second;
      if figures.quarantined > 0 { blockers := blockers + [QuarantinedVessels]; }
      ghost var third := second + if figures.quarantined > 0 then [QuarantinedVessels] else [];
      assert blockers == third;
      if figures.expected == 0 { blockers := blockers + [NoVessels]; }
      ghost var fourth := third + if figures.expected == 0 then [NoVessels] else [];
      assert blockers == fourth;
      if figures.landed < figures.expected && figures.state == VoyageState.Landed {
        blockers := blockers + [VesselsNotLanded];
      }
      complete := |blockers| == 0 && (figures.state == Closed || figures.state == VoyageState.Landed);
    }
  }
}
