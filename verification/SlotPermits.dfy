/** Slot-exclusive permits of internal/runtimeops: version-checked transitions that leave an
    audit row or an outbox row each. */
module SlotPermits {
  import opened Basics

  type Id = string

  /** The state column is text; each text has one value. */
  type OtherState = s: string | s !in {"pending", "approved", "executing", "cancelled"} witness ""

  datatype PermitState = Pending | Approved | Executing | Cancelled | Other(text: OtherState)

  datatype Permit = Permit(tenant: Id, slot: Id, state: PermitState, version: int)

  /** The texts permit_approved, permit_executing and permit_cancelled. */
  datatype Note = PermitApproved | PermitExecuting | PermitCancelled

  /** An audit row (its action) or an outbox row (its payload). */
  datatype Row = Row(tenant: Id, entity: Id, note: Note)

  datatype Office = Office(permits: map<Id, Permit>, audit: seq<Row>, outbox: seq<Row>)

  // ---- what each call does ----

  function Occupants(permits: map<Id, Permit>, tenant: Id, slot: Id): set<Id> {
    set id | id in permits && permits[id].tenant == tenant && permits[id].slot == slot && permits[id].state == Executing
  }

  predicate Occupied(permits: map<Id, Permit>, tenant: Id, slot: Id) {
    |Occupants(permits, tenant, slot)| > 0
  }

  function Created(o: Office, id: Id, p: Permit): Result<Office> {
    if id in o.permits || (p.state == Executing && Occupied(o.permits, p.tenant, p.slot)) then Failure(Constraint)
    else Success(o.(permits := o.permits[id := p]))
  }

  predicate Matches(o: Office, tenant: Id, id: Id, expected: int, states: set<PermitState>) {
    id in o.permits && o.permits[id].tenant == tenant && o.permits[id].version == expected
      && o.permits[id].state in states
  }

  function Moved(o: Office, id: Id, state: PermitState): map<Id, Permit>
    requires id in o.permits
  {
    o.permits[id := o.permits[id].(state := state, version := o.permits[id].version + 1)]
  }

  function ApprovedBy(o: Office, tenant: Id, id: Id, expected: int): Result<Office> {
    if Matches(o, tenant, id, expected, {Pending}) then
      Success(o.(permits := Moved(o, id, Approved), audit := o.audit + [Row(tenant, id, PermitApproved)]))
    else Failure(Conflict)
  }

  function ExecutedBy(o: Office, tenant: Id, id: Id, expected: int): Result<Office> {
    if id !in o.permits || o.permits[id].tenant != tenant then Failure(NotFound)
    else if !Matches(o, tenant, id, expected, {Approved}) || Occupied(o.permits, tenant, o.permits[id].slot)
      then Failure(Conflict)
    else Success(o.(permits := Moved(o, id, Executing), outbox := o.outbox + [Row(tenant, id, PermitExecuting)]))
  }

  function CancelledBy(o: Office, tenant: Id, id: Id, expected: int): Result<Office> {
    if Matches(o, tenant, id, expected, {Pending, Approved}) then
      Success(o.(permits := Moved(o, id, Cancelled), outbox := o.outbox + [Row(tenant, id, PermitCancelled)]))
    else Failure(Conflict)
  }

  class PermitStore {
    var permits: map<Id, Permit>
    var audit: seq<Row>
    var outbox: seq<Row>

    ghost function Contents(): (o: Office)
      reads this
    {
      Office(permits, audit, outbox)
    }

    ghost predicate Agrees(expected: Result<Office>, r: Result<()>, before: Office)
      reads this
    {
      match expected
      case Success(o) => r.Success? && Contents() == o
      case Failure(e) => r == Failure(e) && Contents() == before
    }

    constructor ()
      ensures Contents() == Office(map[], [], [])
    {
      permits, audit, outbox := map[], [], [];
    }

    method CreatePermit(id: Id, p: Permit) returns (r: Result<()>)
      modifies this
      ensures Agrees(Created(old(Contents()), id, p), r, old(Contents()))
    {
      if id in permits || (p.state == Executing && Occupied(permits, p.tenant, p.slot)) { return Failure(Constraint); }
      permits := permits[id := p];
      return Success(());
    }

    method ApprovePermit(tenant: Id, id: Id, expected: int) returns (r: Result<()>)
      modifies this
      ensures Agrees(ApprovedBy(old(Contents()), tenant, id, expected), r, old(Contents()))
    {
      if !(id in permits && permits[id].tenant == tenant && permits[id].state == Pending
        && permits[id].version == expected) {
        return Failure(Conflict);
      }
      permits := permits[id := permits[id].(state := Approved, version := permits[id].version + 1)];
      audit := audit + [Row(tenant, id, PermitApproved)];
      return Success(());
    }

    method ExecutePermit(tenant: Id, id: Id, expected: int) returns (r: Result<()>)
      modifies this
      ensures Agrees(ExecutedBy(old(Contents()), tenant, id, expected), r, old(Contents()))
    {
      if id !in permits || permits[id].tenant != tenant { return Failure(NotFound); }
      var slot := permits[id].slot;
      if permits[id].state != Approved { return Failure(Conflict); }
      if Occupied(permits, tenant, slot) { return Failure(Conflict); }
      if permits[id].version != expected { return Failure(Conflict); }
      permits := permits[id := permits[id].(state := Executing, version := permits[id].version + 1)];
      outbox := outbox + [Row(tenant, id, PermitExecuting)];
      return Success(());
    }

    method CancelPermit(tenant: Id, id: Id, expected: int) returns (r: Result<()>)
      modifies this
      ensures Agrees(CancelledBy(old(Contents()), tenant, id, expected), r, old(Contents()))
    {
      if !(id in permits && permits[id].tenant == tenant && permits[id].version == expected
           && (permits[id].state == Pending || permits[id].state == Approved)) {
        return Failure(Conflict);
      }
      permits := permits[id := permits[id].(state := Cancelled, version := permits[id].version + 1)];
      outbox := outbox + [Row(tenant, id, PermitCancelled)];
      return Success(());
    }
  }

  // ---- runs ----

  datatype Call =
    | Create(id: Id, permit: Permit)
    | Approve(tenant: Id, id: Id, expected: int)
    | Execute(tenant: Id, id: Id, expected: int)
    | Cancel(tenant: Id, id: Id, expected: int)

  function Outcome(o: Office, c: Call): Result<Office> {
    match c
    case Create(id, p) => Created(o, id, p)
    case Approve(tenant, id, expected) => ApprovedBy(o, tenant, id, expected)
    case Execute(tenant, id, expected) => ExecutedBy(o, tenant, id, expected)
    case Cancel(tenant, id, expected) => CancelledBy(o, tenant, id, expected)
  }

  /** The tables together with each permit's row at creation. */
  datatype Ledger = Ledger(office: Office, born: map<Id, Permit>)

  ghost function Step(l: Ledger, c: Call): Ledger {
    match Outcome(l.office, c)
    case Failure(_) => l
    case Success(o) => Ledger(o, if c.Create? then l.born[c.id := c.permit] else l.born)
  }

  ghost predicate IsRun(ledgers: seq<Ledger>, calls: seq<Call>) {
    && |ledgers| == |calls| + 1
    && ledgers[0] == Ledger(Office(map[], [], []), map[])
    && forall i | 0 <= i < |calls| :: ledgers[i + 1] == Step(ledgers[i], calls[i])
  }

  /** What one table says about one permit, in order. */
  function Notes(rows: seq<Row>, tenant: Id, id: Id): seq<Note> {
    if rows == [] then []
    else
      var last := rows[|rows| - 1];
      Notes(rows[..|rows| - 1], tenant, id) + if last.tenant == tenant && last.entity == id then [last.note] else []
  }

  /** A permit created pending is where its audit and outbox rows say it is, and its version
      counts them. */
  predicate FollowsPath(p: Permit, born: Permit, audits: seq<Note>, messages: seq<Note>) {
    && p.tenant == born.tenant && p.slot == born.slot
    && p.version == born.version + |audits| + |messages|
    && match p.state
       case Pending => audits == [] && messages == []
       case Approved => audits == [PermitApproved] && messages == []
       case Executing => audits == [PermitApproved] && messages == [PermitExecuting]
       case Cancelled => (audits == [] || audits == [PermitApproved]) && messages == [PermitCancelled]
       case Other(_) => false
  }

  ghost predicate OnPath(l: Ledger, id: Id)
    requires id in l.office.permits && id in l.born
  {
    FollowsPath(l.office.permits[id], l.born[id], Notes(l.office.audit, l.born[id].tenant, id),
      Notes(l.office.outbox, l.born[id].tenant, id))
  }

  ghost predicate Exclusive(permits: map<Id, Permit>) {
    forall i, j | i in permits && j in permits && i != j && permits[i].state == permits[j].state == Executing ::
      !(permits[i].tenant == permits[j].tenant && permits[i].slot == permits[j].slot)
  }

  ghost predicate Inv(l: Ledger) {
    && l.born.Keys == l.office.permits.Keys
    && Exclusive(l.office.permits)
    && (forall row | row in l.office.audit || row in l.office.outbox :: row.entity in l.office.permits)
    && forall id | id in l.office.permits && l.born[id].state == Pending :: OnPath(l, id)
  }

  lemma {:induction false} NoNotes(rows: seq<Row>, tenant: Id, id: Id)
    requires forall row | row in rows :: row.entity != id
    ensures Notes(rows, tenant, id) == []
  {
    if rows != [] {
      NoNotes(rows[..|rows| - 1], tenant, id);
      assert rows[|rows| - 1] in rows;
    }
  }

  lemma NotesAppend(rows: seq<Row>, row: Row, tenant: Id, id: Id)
    ensures Notes(rows + [row], tenant, id)
         == if row.tenant == tenant && row.entity == id then Notes(rows, tenant, id) + [row.note]
           else Notes(rows, tenant, id)
  {
  }

  lemma KeepsExclusive(l: Ledger, c: Call, i: Id, j: Id)
    requires Inv(l) && Outcome(l.office, c).Success? && i != j
    requires var o := Outcome(l.office, c).value;
             i in o.permits && j in o.permits && o.permits[i].state == o.permits[j].state == Executing && c.id == i
    ensures var o := Outcome(l.office, c).value;
            !(o.permits[i].tenant == o.permits[j].tenant && o.permits[i].slot == o.permits[j].slot)
  {
    var p := Outcome(l.office, c).value.permits[i];
    assert j !in Occupants(l.office.permits, p.tenant, p.slot) by {
      if j in Occupants(l.office.permits, p.tenant, p.slot) {
        SubsetSize({j}, Occupants(l.office.permits, p.tenant, p.slot));
      }
    }
  }

  lemma CreateKeepsPath(l: Ledger, c: Call, id: Id)
    requires Inv(l) && c.Create? && Outcome(l.office, c).Success?
    requires id in Step(l, c).office.permits && Step(l, c).born[id].state == Pending
    ensures OnPath(Step(l, c), id)
  {
    if id == c.id {
      var tenant := Step(l, c).born[id].tenant;
      NoNotes(l.office.audit, tenant, id);
      NoNotes(l.office.outbox, tenant, id);
    } else {
      assert OnPath(l, id);
    }
  }

  lemma ApproveKeepsPath(l: Ledger, c: Call, id: Id)
    requires id in l.office.permits && id in l.born && OnPath(l, id)
    requires c.Approve? && Outcome(l.office, c).Success?
    ensures id in Step(l, c).office.permits && id in Step(l, c).born && OnPath(Step(l, c), id)
  {
    NotesAppend(l.office.audit, Row(c.tenant, c.id, PermitApproved), l.born[id].tenant, id);
  }

  lemma ExecuteKeepsPath(l: Ledger, c: Call, id: Id)
    requires id in l.office.permits && id in l.born && OnPath(l, id)
    requires c.Execute? && Outcome(l.office, c).Success?
    ensures id in Step(l, c).office.permits && id in Step(l, c).born && OnPath(Step(l, c), id)
  {
    NotesAppend(l.office.outbox, Row(c.tenant, c.id, PermitExecuting), l.born[id].tenant, id);
  }

  lemma CancelKeepsPath(l: Ledger, c: Call, id: Id)
    requires id in l.office.permits && id in l.born && OnPath(l, id)
    requires c.Cancel? && Outcome(l.office, c).Success?
    ensures id in Step(l, c).office.permits && id in Step(l, c).born && OnPath(Step(l, c), id)
  {
    NotesAppend(l.office.outbox, Row(c.tenant, c.id, PermitCancelled), l.born[id].tenant, id);
  }

  lemma MoveKeepsPath(l: Ledger, c: Call, id: Id)
    requires id in l.office.permits && id in l.born && OnPath(l, id)
    requires !c.Create? && Outcome(l.office, c).Success?
    ensures id in Step(l, c).office.permits && id in Step(l, c).born && OnPath(Step(l, c), id)
  {
    match c
    case Approve(_, _, _) => ApproveKeepsPath(l, c, id);
    case Execute(_, _, _) => ExecuteKeepsPath(l, c, id);
    case Cancel(_, _, _) => CancelKeepsPath(l, c, id);
  }

  lemma StepKeepsPath(l: Ledger, c: Call, id: Id)
    requires Inv(l) && Outcome(l.office, c).Success?
    requires id in Step(l, c).office.permits && Step(l, c).born[id].state == Pending
    ensures OnPath(Step(l, c), id)
  {
    if c.Create? { CreateKeepsPath(l, c, id); } else { MoveKeepsPath(l, c, id); }
  }

  lemma StepKeepsExclusive(l: Ledger, c: Call)
    requires Inv(l)
    ensures Exclusive(Step(l, c).office.permits)
  {
    var n := Step(l, c).office.permits;
    forall i, j | i in n && j in n && i != j && n[i].state == n[j].state == Executing
      ensures !(n[i].tenant == n[j].tenant && n[i].slot == n[j].slot)
    {
      if Outcome(l.office, c).Success? {
        if c.id == i { KeepsExclusive(l, c, i, j); }
        if c.id == j { KeepsExclusive(l, c, j, i); }
      }
    }
  }

  lemma StepKeepsInv(l: Ledger, c: Call)
    requires Inv(l)
    ensures Inv(Step(l, c))
  {
    StepKeepsExclusive(l, c);
    if Outcome(l.office, c).Success? {
      var n := Step(l, c);
      forall id | id in n.office.permits && n.born[id].state == Pending ensures OnPath(n, id) {
        StepKeepsPath(l, c, id);
      }
    }
  }

  lemma {:induction false} RunKeepsInv(ledgers: seq<Ledger>, calls: seq<Call>, i: nat)
    requires IsRun(ledgers, calls) && i < |ledgers|
    ensures Inv(ledgers[i])
  {
    if i > 0 {
      RunKeepsInv(ledgers, calls, i - 1);
      StepKeepsInv(ledgers[i - 1], calls[i - 1]);
    }
  }

  /** Execution is never undone: the row stays as it is for the rest of the run. */
  lemma {:induction false} ExecutingStays(ledgers: seq<Ledger>, calls: seq<Call>, i: nat, j: nat, id: Id)
    requires IsRun(ledgers, calls) && i <= j < |ledgers|
    requires id in ledgers[i].office.permits && ledgers[i].office.permits[id].state == Executing
    ensures id in ledgers[j].office.permits && ledgers[j].office.permits[id] == ledgers[i].office.permits[id]
  {
    if i < j {
      ExecutingStays(ledgers, calls, i, j - 1, id);
      assert ledgers[j] == Step(ledgers[j - 1], calls[j - 1]);
    }
  }

  /** At most one permit of a tenant's slot ever executes in a run. */
  lemma OneExecutionPerSlot(ledgers: seq<Ledger>, calls: seq<Call>, i: nat, j: nat, p: Id, q: Id)
    requires IsRun(ledgers, calls) && i < |ledgers| && j < |ledgers|
    requires p in ledgers[i].office.permits && q in ledgers[j].office.permits
    requires ledgers[i].office.permits[p].state == ledgers[j].office.permits[q].state == Executing
    requires ledgers[i].office.permits[p].tenant == ledgers[j].office.permits[q].tenant
    requires ledgers[i].office.permits[p].slot == ledgers[j].office.permits[q].slot
    ensures p == q
  {
    var last := if i <= j then j else i;
    ExecutingStays(ledgers, calls, i, last, p);
    ExecutingStays(ledgers, calls, j, last, q);
    RunKeepsInv(ledgers, calls, last);
  }

  /** The version of a permit created pending counts its transitions, and its rows tell the path. */
  lemma PathMatchesRows(ledgers: seq<Ledger>, calls: seq<Call>, i: nat, id: Id)
    requires IsRun(ledgers, calls) && i < |ledgers|
    requires id in ledgers[i].office.permits && id in ledgers[i].born && ledgers[i].born[id].state == Pending
    ensures var l := ledgers[i]; var p := l.office.permits[id];
            FollowsPath(p, l.born[id], Notes(l.office.audit, p.tenant, id), Notes(l.office.outbox, p.tenant, id))
  {
    RunKeepsInv(ledgers, calls, i);
  }

  // ---- the store's calls are the steps of a run ----

  lemma RunExtends(ledgers: seq<Ledger>, calls: seq<Call>, c: Call)
    requires IsRun(ledgers, calls)
    ensures IsRun(ledgers + [Step(ledgers[|ledgers| - 1], c)], calls + [c])
  {
    var ls, cs := ledgers + [Step(ledgers[|ledgers| - 1], c)], calls + [c];
    forall i | 0 <= i < |cs| ensures ls[i + 1] == Step(ls[i], cs[i]) {
      if i < |calls| { assert ledgers[i + 1] == Step(ledgers[i], calls[i]); }
    }
  }

  method Dispatch(store: PermitStore, c: Call) returns (r: Result<()>)
    modifies store
    ensures store.Agrees(Outcome(old(store.Contents()), c), r, old(store.Contents()))
  {
    match c
    case Create(id, p) => r := store.CreatePermit(id, p);
    case Approve(tenant, id, expected) => r := store.ApprovePermit(tenant, id, expected);
    case Execute(tenant, id, expected) => r := store.ExecutePermit(tenant, id, expected);
    case Cancel(tenant, id, expected) => r := store.CancelPermit(tenant, id, expected);
  }

  /** The permits behind any sequence of calls. */
  class Registry {
    const store: PermitStore
    ghost var ledgers: seq<Ledger>
    ghost var calls: seq<Call>

    ghost predicate Valid()
      reads this, store
    {
      |ledgers| > 0 && IsRun(ledgers, calls) && ledgers[|ledgers| - 1].office == store.Contents()
    }

    constructor ()
      ensures Valid() && fresh(store)
    {
      store := new PermitStore();
      ledgers, calls := [Ledger(Office(map[], [], []), map[])], [];
    }

    method Serve(c: Call) returns (r: Result<()>)
      requires Valid()
      modifies this, store
      ensures Valid() && calls == old(calls) + [c] && |ledgers| == |old(ledgers)| + 1
              && ledgers[..|old(ledgers)|] == old(ledgers)
      ensures r.Success? <==> Outcome(old(ledgers)[|old(ledgers)| - 1].office, c).Success?
    {
      r := Dispatch(store, c);
      RunExtends(ledgers, calls, c);
      ledgers, calls := ledgers + [Step(ledgers[|ledgers| - 1], c)], calls + [c];
    }
  }
}
