/** Counted event batches of internal/runtimeops. */
module EventBatches {
  import opened Basics

  type Id = string

  /** Both columns are text; each text has one value. */
  type OtherState = s: string | s !in {"collecting", "closed"} witness ""

  type ClassText = s: string | s != "unclassified" witness ""

  datatype BatchState = Collecting | Closed | Other(text: OtherState)

  datatype EventStatus = Unclassified | Class(text: ClassText)

  datatype Batch = Batch(tenant: Id, state: BatchState, eventCount: int)

  datatype Event = Event(batch: Id, status: EventStatus, magnitude: real)

  /** Events are keyed by (tenant, id). */
  datatype Log = Log(batches: map<Id, Batch>, events: map<(Id, Id), Event>)

  predicate Open(l: Log, tenant: Id, id: Id) {
    id in l.batches && l.batches[id].tenant == tenant && l.batches[id].state == Collecting
  }

  function Created(l: Log, tenant: Id, id: Id, state: BatchState): Result<Log> {
    if id in l.batches then Failure(Constraint) else Success(l.(batches := l.batches[id := Batch(tenant, state, 0)]))
  }

  function Recorded(l: Log, tenant: Id, id: Id, e: Event): Result<Log> {
    if e.batch !in l.batches || l.batches[e.batch].tenant != tenant then Failure(NotFound)
    else if !Open(l, tenant, e.batch) then Failure(Conflict)
    else if (tenant, id) in l.events then Failure(Constraint)
    else
      var b := l.batches[e.batch];
      Success(Log(l.batches[e.batch := b.(eventCount := b.eventCount + 1)], l.events[(tenant, id) := e]))
  }

  function Unresolved(l: Log, tenant: Id, id: Id): set<(Id, Id)> {
    set k | k in l.events && k.0 == tenant && l.events[k].batch == id && l.events[k].status == Unclassified
  }

  function ClosedBatch(l: Log, tenant: Id, id: Id): Result<Log> {
    if Unresolved(l, tenant, id) != {} || !Open(l, tenant, id) then Failure(Conflict)
    else Success(l.(batches := l.batches[id := l.batches[id].(state := Closed)]))
  }

  function Classified(l: Log, tenant: Id, id: Id, status: EventStatus): Result<Log> {
    if (tenant, id) !in l.events || l.events[(tenant, id)].status != Unclassified then Failure(Conflict)
    else Success(l.(events := l.events[(tenant, id) := l.events[(tenant, id)].(status := status)]))
  }

  class BatchStore {
    var batches: map<Id, Batch>
    var events: map<(Id, Id), Event>

    ghost function Contents(): (l: Log)
      reads this
    {
      Log(batches, events)
    }

    ghost predicate Agrees(expected: Result<Log>, r: Result<()>, before: Log)
      reads this
    {
      match expected
      case Success(l) => r.Success? && Contents() == l
      case Failure(e) => r == Failure(e) && Contents() == before
    }

    constructor ()
      ensures Contents() == Log(map[], map[])
    {
      batches, events := map[], map[];
    }

    method CreateBatch(tenant: Id, id: Id, state: BatchState) returns (r: Result<()>)
      modifies this
      ensures Agrees(Created(old(Contents()), tenant, id, state), r, old(Contents()))
    {
      if id in batches { return Failure(Constraint); }
      batches := batches[id := Batch(tenant, state, 0)];
      return Success(());
    }

    method RecordEvent(tenant: Id, id: Id, e: Event) returns (r: Result<()>)
      modifies this
      ensures Agrees(Recorded(old(Contents()), tenant, id, e), r, old(Contents()))
    {
      if e.batch !in batches || batches[e.batch].tenant != tenant { return Failure(NotFound); }
      if batches[e.batch].state != Collecting { return Failure(Conflict); }
      if (tenant, id) in events { return Failure(Constraint); }
      events := events[(tenant, id) := e];
      batches := batches[e.batch := batches[e.batch].(eventCount := batches[e.batch].eventCount + 1)];
      return Success(());
    }

    method CloseBatch(tenant: Id, id: Id) returns (r: Result<()>)
      modifies this
      ensures Agrees(ClosedBatch(old(Contents()), tenant, id), r, old(Contents()))
    {
      var unresolved := set k | k in events && k.0 == tenant && events[k].batch == id
        && events[k].status == Unclassified;
      assert unresolved == Unresolved(Contents(), tenant, id);
      if |unresolved| > 0 { return Failure(Conflict); }
      if !(id in batches && batches[id].tenant == tenant && batches[id].state == Collecting) {
        return Failure(Conflict);
      }
      batches := batches[id := batches[id].(state := Closed)];
      return Success(());
    }

    method ClassifyEvent(tenant: Id, id: Id, status: EventStatus) returns (r: Result<()>)
      modifies this
      ensures Agrees(Classified(old(Contents()), tenant, id, status), r, old(Contents()))
    {
      if !((tenant, id) in events && events[(tenant, id)].status == Unclassified) { return Failure(Conflict); }
      events := events[(tenant, id) := events[(tenant, id)].(status := status)];
      return Success(());
    }
  }

  // ---- runs ----

  datatype Call =
    | Create(tenant: Id, id: Id, state: BatchState)
    | Record(tenant: Id, id: Id, event: Event)
    | Close(tenant: Id, id: Id)
    | Classify(tenant: Id, id: Id, status: EventStatus)

  function Outcome(l: Log, c: Call): Result<Log> {
    match c
    case Create(tenant, id, state) => Created(l, tenant, id, state)
    case Record(tenant, id, e) => Recorded(l, tenant, id, e)
    case Close(tenant, id) => ClosedBatch(l, tenant, id)
    case Classify(tenant, id, status) => Classified(l, tenant, id, status)
  }

  function Step(l: Log, c: Call): Log {
    var r := Outcome(l, c);
    if r.Success? then r.value else l
  }

  ghost predicate IsRun(logs: seq<Log>, calls: seq<Call>) {
    && |logs| == |calls| + 1 && logs[0] == Log(map[], map[])
    && forall i | 0 <= i < |calls| :: logs[i + 1] == Step(logs[i], calls[i])
  }

  function EventsOf(l: Log, batch: Id): set<(Id, Id)> {
    set k | k in l.events && l.events[k].batch == batch
  }

  ghost predicate Inv(l: Log) {
    && (forall k | k in l.events :: l.events[k].batch in l.batches && l.batches[l.events[k].batch].tenant == k.0)
    && (forall b | b in l.batches :: l.batches[b].eventCount == |EventsOf(l, b)|)
    && (forall k | k in l.events && l.batches[l.events[k].batch].state == Closed :: l.events[k].status != Unclassified)
  }

  lemma OneMoreEvent(l: Log, batches: map<Id, Batch>, key: (Id, Id), e: Event, b: Id)
    requires key !in l.events
    ensures |EventsOf(Log(batches, l.events[key := e]), b)| == |EventsOf(l, b)| + if e.batch == b then 1 else 0
  {
    var events := EventsOf(Log(batches, l.events[key := e]), b);
    assert events == if e.batch == b then EventsOf(l, b) + {key} else EventsOf(l, b);
  }

  lemma RecordKeepsCount(l: Log, c: Call, b: Id)
    requires Inv(l) && c.Record? && Outcome(l, c).Success? && b in Step(l, c).batches
    ensures Step(l, c).batches[b].eventCount == |EventsOf(Step(l, c), b)|
  {
    OneMoreEvent(l, Step(l, c).batches, (c.tenant, c.id), c.event, b);
  }

  lemma SameEvents(l: Log, n: Log, b: Id)
    requires n.events.Keys == l.events.Keys && forall k | k in l.events :: n.events[k].batch == l.events[k].batch
    ensures EventsOf(n, b) == EventsOf(l, b)
  {
  }

  lemma StepKeepsCount(l: Log, c: Call, b: Id)
    requires Inv(l) && b in Step(l, c).batches
    ensures Step(l, c).batches[b].eventCount == |EventsOf(Step(l, c), b)|
  {
    if c.Record? && Outcome(l, c).Success? {
      RecordKeepsCount(l, c, b);
    } else {
      SameEvents(l, Step(l, c), b);
      if b !in l.batches { assert EventsOf(l, b) == {}; }
    }
  }

  lemma StepKeepsInv(l: Log, c: Call)
    requires Inv(l)
    ensures Inv(Step(l, c))
  {
    var n := Step(l, c);
    forall b | b in n.batches ensures n.batches[b].eventCount == |EventsOf(n, b)| { StepKeepsCount(l, c, b); }
    forall k | k in n.events
      ensures n.events[k].batch in n.batches && n.batches[n.events[k].batch].tenant == k.0
      ensures n.batches[n.events[k].batch].state == Closed ==> n.events[k].status != Unclassified
    {
      if c.Close? { assert k !in Unresolved(l, c.tenant, c.id) || Outcome(l, c).Failure?; }
    }
  }

  lemma {:induction false} RunKeepsInv(logs: seq<Log>, calls: seq<Call>, i: nat)
    requires IsRun(logs, calls) && i < |logs|
    ensures Inv(logs[i])
  {
    if i > 0 {
      RunKeepsInv(logs, calls, i - 1);
      StepKeepsInv(logs[i - 1], calls[i - 1]);
    }
  }

  /** The stored counter is the number of events of the batch in every reachable state. */
  lemma CountMatchesEvents(logs: seq<Log>, calls: seq<Call>, i: nat, batch: Id)
    requires IsRun(logs, calls) && i < |logs| && batch in logs[i].batches
    ensures logs[i].batches[batch].eventCount == |EventsOf(logs[i], batch)|
  {
    RunKeepsInv(logs, calls, i);
  }

  /** One call leaves a closed batch and all its events as they are. */
  lemma StepSparesClosed(l: Log, c: Call, batch: Id)
    requires Inv(l) && batch in l.batches && l.batches[batch].state == Closed
    ensures var n := Step(l, c);
            && batch in n.batches && n.batches[batch] == l.batches[batch] && EventsOf(n, batch) == EventsOf(l, batch)
            && forall k | k in EventsOf(l, batch) :: n.events[k] == l.events[k] && l.events[k].status != Unclassified
  {
  }

  /** A closed batch holds only classified events, and neither its row nor any of its events
      changes again. */
  lemma {:induction false} ClosedIsFinal(logs: seq<Log>, calls: seq<Call>, i: nat, j: nat, batch: Id)
    requires IsRun(logs, calls) && i <= j < |logs|
    requires batch in logs[i].batches && logs[i].batches[batch].state == Closed
    ensures batch in logs[j].batches && logs[j].batches[batch] == logs[i].batches[batch]
    ensures EventsOf(logs[j], batch) == EventsOf(logs[i], batch)
    ensures forall k | k in EventsOf(logs[i], batch) ::
              k in logs[j].events && logs[j].events[k] == logs[i].events[k] && logs[i].events[k].status != Unclassified
  {
    RunKeepsInv(logs, calls, i);
    if i < j {
      ClosedIsFinal(logs, calls, i, j - 1, batch);
      RunKeepsInv(logs, calls, j - 1);
      StepSparesClosed(logs[j - 1], calls[j - 1], batch);
    }
  }

  // ---- the store's calls are the steps of a run ----

  lemma RunExtends(logs: seq<Log>, calls: seq<Call>, c: Call)
    requires IsRun(logs, calls)
    ensures IsRun(logs + [Step(logs[|logs| - 1], c)], calls + [c])
  {
    var ls, cs := logs + [Step(logs[|logs| - 1], c)], calls + [c];
    forall i | 0 <= i < |cs| ensures ls[i + 1] == Step(ls[i], cs[i]) {
      if i < |calls| { assert logs[i + 1] == Step(logs[i], calls[i]); }
    }
  }

  method Dispatch(store: BatchStore, c: Call) returns (r: Result<()>)
    modifies store
    ensures store.Agrees(Outcome(old(store.Contents()), c), r, old(store.Contents()))
  {
    match c
    case Create(tenant, id, state) => r := store.CreateBatch(tenant, id, state);
    case Record(tenant, id, e) => r := store.RecordEvent(tenant, id, e);
    case Close(tenant, id) => r := store.CloseBatch(tenant, id);
    case Classify(tenant, id, status) => r := store.ClassifyEvent(tenant, id, status);
  }

  /** The batches behind any sequence of calls. */
  class Ingest {
    const store: BatchStore
    ghost var logs: seq<Log>
    ghost var calls: seq<Call>

    ghost predicate Valid()
      reads this, store
    {
      |logs| > 0 && IsRun(logs, calls) && logs[|logs| - 1] == store.Contents()
    }

    constructor ()
      ensures Valid() && fresh(store)
    {
      store := new BatchStore();
      logs, calls := [Log(map[], map[])], [];
    }

    method Serve(c: Call) returns (r: Result<()>)
      requires Valid()
      modifies this, store
      ensures Valid() && calls == old(calls) + [c] && logs == old(logs) + [store.Contents()]
      ensures r.Success? <==> Outcome(old(logs)[|old(logs)| - 1], c).Success?
    {
      r := Dispatch(store, c);
      RunExtends(logs, calls, c);
      logs, calls := logs + [Step(logs[|logs| - 1], c)], calls + [c];
    }
  }
}
