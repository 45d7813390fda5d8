/** What SQL decides on the stored timestamp text, against what Go decides on the times: the
    idempotency upsert, the job claim, the task sweep, the daily count and the last declaration
    (internal/storage/sqlite). */
module StoredTimes {
  import opened Basics
  import opened Timestamps

  /** Two times of one second whose trimmed fractions extend one another. */
  predicate Tangled(a: Stamp, b: Stamp)
    requires Valid(a) && Valid(b)
  {
    Fields(a) == Fields(b)
    && (ProperPrefix(Fraction(a.nano), Fraction(b.nano)) || ProperPrefix(Fraction(b.nano), Fraction(a.nano)))
  }

  /** SQLite's <= on text. */
  predicate AtMost(s: string, t: string) { Before(s, t) || s == t }

  lemma {:induction false} FieldsTotal(f: seq<nat>, g: seq<nat>, i: nat)
    requires |f| == |g| == 6 && i <= 6
    ensures FieldsBefore(f, g, i) || FieldsBefore(g, f, i) || SameFields(f, g, i)
    ensures !(FieldsBefore(f, g, i) && FieldsBefore(g, f, i))
    ensures SameFields(f, g, i) ==> !FieldsBefore(f, g, i) && !FieldsBefore(g, f, i)
    decreases 6 - i
  {
    if i < 6 { FieldsTotal(f, g, i + 1); }
  }

  lemma EarlierTotal(a: Stamp, b: Stamp)
    ensures (a == b || Earlier(a, b) || Earlier(b, a)) && !Earlier(a, a) && !(Earlier(a, b) && Earlier(b, a))
  {
    FieldsTotal(Fields(a), Fields(b), 0);
    FieldsTotal(Fields(a), Fields(a), 0);
    if SameFields(Fields(a), Fields(b), 0) {
      assert Fields(a) == Fields(b);
      assert Fields(a)[0] == a.year && Fields(a)[1] == a.month && Fields(a)[2] == a.day;
      assert Fields(a)[3] == a.hour && Fields(a)[4] == a.minute && Fields(a)[5] == a.second;
    }
  }

  lemma SameText(a: Stamp, b: Stamp)
    requires Valid(a) && Valid(b)
    ensures FormatTime(a) == FormatTime(b) <==> a == b
  {
    RoundTrip(a);
    RoundTrip(b);
  }

  /** The text reverses tangled times and keeps the order of all others, for < and for <=. */
  lemma TextDecides(a: Stamp, b: Stamp)
    requires Valid(a) && Valid(b)
    ensures Before(FormatTime(a), FormatTime(b)) <==> if Tangled(a, b) then Earlier(b, a) else Earlier(a, b)
    ensures AtMost(FormatTime(a), FormatTime(b)) <==> if Tangled(a, b) then !Earlier(a, b) else !Earlier(b, a)
  {
    TextOrder(a, b);
    SameText(a, b);
    EarlierTotal(a, b);
  }

  lemma TextMisjudges(a: Stamp, b: Stamp)
    requires Valid(a) && Valid(b)
    ensures (AtMost(FormatTime(a), FormatTime(b)) <==> !Earlier(b, a)) <==> !Tangled(a, b)
    ensures (Before(FormatTime(a), FormatTime(b)) <==> Earlier(a, b)) <==> !Tangled(a, b)
  {
    TextDecides(a, b);
    EarlierTotal(a, b);
    if Tangled(a, b) { assert Fraction(a.nano) != Fraction(b.nano); }
  }

  // ---- the idempotency upsert ----

  datatype KeyRow = KeyRow(hash: string, body: string, expiresAt: string, createdAt: string)

  /** INSERT ... ON CONFLICT DO UPDATE ... WHERE expires_at <= excluded.created_at. */
  function Upsert(rows: map<string, KeyRow>, key: string, record: KeyRow): map<string, KeyRow> {
    if key in rows && !AtMost(rows[key].expiresAt, record.createdAt) then rows else rows[key := record]
  }

  /** existing.ExpiresAt.After(now), on the time read back. */
  predicate Held(rows: map<string, KeyRow>, key: string, now: Stamp) {
    key in rows && match ParseTime(rows[key].expiresAt) case Some(expiry) => Earlier(now, expiry) case None => false
  }

  /** A plan made because Go saw the key as expired leaves its record behind exactly when the two
      times are not tangled. */
  lemma FreshRecordKeptIff(rows: map<string, KeyRow>, key: string, record: KeyRow, expiry: Stamp, now: Stamp,
                           until: Stamp)
    requires Valid(expiry) && Valid(now) && Valid(until) && Earlier(now, until)
    requires key in rows && rows[key].expiresAt == FormatTime(expiry) && !Held(rows, key, now)
    requires record.createdAt == FormatTime(now) && record.expiresAt == FormatTime(until)
    ensures Upsert(rows, key, record)[key] == record <==> !Tangled(expiry, now)
  {
    RoundTrip(expiry);
    TextDecides(expiry, now);
    EarlierTotal(expiry, now);
    SameText(expiry, until);
    if Tangled(expiry, now) { assert Fraction(expiry.nano) != Fraction(now.nano); }
  }

  /** When the record is dropped, the key is open again at once: the same request plans anew. */
  lemma DroppedRecordNeverReplays(rows: map<string, KeyRow>, key: string, record: KeyRow, expiry: Stamp, now: Stamp,
                                  later: Stamp)
    requires Valid(expiry) && Valid(now) && Valid(later) && !Earlier(later, now) && Tangled(expiry, now)
    requires key in rows && rows[key].expiresAt == FormatTime(expiry) && !Held(rows, key, now)
    requires record.createdAt == FormatTime(now)
    ensures Upsert(rows, key, record) == rows && !Held(rows, key, later)
  {
    RoundTrip(expiry);
    TextDecides(expiry, now);
    EarlierTotal(expiry, now);
    assert Fraction(expiry.nano) != Fraction(now.nano);
    NotEarlier(later, now, expiry);
  }

  lemma {:induction false} FieldsTransitive(f: seq<nat>, g: seq<nat>, h: seq<nat>, i: nat)
    requires |f| == |g| == |h| == 6 && i <= 6 && FieldsBefore(f, g, i) && FieldsBefore(g, h, i)
    ensures FieldsBefore(f, h, i)
    decreases 6 - i
  {
    if i < 6 && f[i] == g[i] == h[i] { FieldsTransitive(f, g, h, i + 1); }
  }

  lemma NotEarlier(a: Stamp, b: Stamp, c: Stamp)
    requires !Earlier(a, b) && !Earlier(b, c)
    ensures !Earlier(a, c)
  {
    EarlierTotal(a, b);
    EarlierTotal(b, c);
    EarlierTotal(a, c);
    var f, g, h := Fields(a), Fields(b), Fields(c);
    if FieldsBefore(h, g, 0) && FieldsBefore(g, f, 0) { FieldsTransitive(h, g, f, 0); }
  }

  /** A record that expires on a whole second is not replaced half a second later. */
  lemma HalfSecondIsTangled()
    ensures var expiry, now := Stamp(2026, 8, 1, 0, 0, 0, 0), Stamp(2026, 8, 1, 0, 0, 0, 500_000_000);
            Valid(expiry) && Valid(now) && Earlier(expiry, now) && Tangled(expiry, now)
  {
    WholeSecondTangles(Stamp(2026, 8, 1, 0, 0, 0, 0), Stamp(2026, 8, 1, 0, 0, 0, 500_000_000));
  }

  // ---- the job claim and the task sweep ----

  type Times = map<string, Stamp>

  predicate AllValid(times: Times) { forall k | k in times :: Valid(times[k]) }

  /** available_at <= ?, and what it stands for. */
  function DueByText(times: Times, now: Stamp): set<string>
    requires AllValid(times) && Valid(now)
  {
    set k | k in times && AtMost(FormatTime(times[k]), FormatTime(now))
  }

  function Due(times: Times, now: Stamp): set<string> { set k | k in times && !Earlier(now, times[k]) }

  /** expires_at < ?, and what it stands for. */
  function OverdueByText(times: Times, now: Stamp): set<string>
    requires AllValid(times) && Valid(now)
  {
    set k | k in times && Before(FormatTime(times[k]), FormatTime(now))
  }

  function Overdue(times: Times, now: Stamp): set<string> { set k | k in times && Earlier(times[k], now) }

  function TangledWith(times: Times, now: Stamp): set<string>
    requires AllValid(times) && Valid(now)
  {
    set k | k in times && Tangled(times[k], now)
  }

  function Difference(a: set<string>, b: set<string>): set<string> { (a - b) + (b - a) }

  lemma ClaimMisjudgesTheTangled(times: Times, now: Stamp)
    requires AllValid(times) && Valid(now)
    ensures Difference(DueByText(times, now), Due(times, now)) == TangledWith(times, now)
  {
    forall k | k in times
      ensures k in TangledWith(times, now) <==> k in Difference(DueByText(times, now), Due(times, now))
    {
      TextMisjudges(times[k], now);
    }
  }

  lemma SweepMisjudgesTheTangled(times: Times, now: Stamp)
    requires AllValid(times) && Valid(now)
    ensures Difference(OverdueByText(times, now), Overdue(times, now)) == TangledWith(times, now)
  {
    forall k | k in times
      ensures k in TangledWith(times, now) <==> k in Difference(OverdueByText(times, now), Overdue(times, now))
    {
      TextMisjudges(times[k], now);
    }
  }

  /** The claim and the sweep misjudge exactly the rows whose time is tangled with the clock,
      and so never a row of another second. */
  lemma QueriesMisjudgeTheTangled(times: Times, now: Stamp)
    requires AllValid(times) && Valid(now)
    ensures Difference(DueByText(times, now), Due(times, now)) == TangledWith(times, now)
    ensures Difference(OverdueByText(times, now), Overdue(times, now)) == TangledWith(times, now)
    ensures forall k | k in TangledWith(times, now) :: Fields(times[k]) == Fields(now)
  {
    ClaimMisjudgesTheTangled(times, now);
    SweepMisjudgesTheTangled(times, now);
  }

  // ---- the daily count ----

  /** departure_window_opens_at >= ? AND departure_window_opens_at < ?. */
  predicate InWindowByText(at: Stamp, start: Stamp, end: Stamp)
    requires Valid(at) && Valid(start) && Valid(end)
  {
    AtMost(FormatTime(start), FormatTime(at)) && Before(FormatTime(at), FormatTime(end))
  }

  predicate InWindow(at: Stamp, start: Stamp, end: Stamp) { !Earlier(at, start) && Earlier(at, end) }

  /** An operating day starts and ends on a whole second. A voyage is counted in the wrong day
      exactly when it opens inside the first second of a day, after its very start: it then
      counts for the day before. */
  lemma CountedInItsDayIff(at: Stamp, start: Stamp, end: Stamp)
    requires Valid(at) && Valid(start) && Valid(end) && start.nano == end.nano == 0 && Earlier(start, end)
    ensures (InWindowByText(at, start, end) <==> InWindow(at, start, end))
            <==> at.nano == 0 || (Fields(at) != Fields(start) && Fields(at) != Fields(end))
    ensures at.nano != 0 && Fields(at) == Fields(start) ==> InWindow(at, start, end) && !InWindowByText(at, start, end)
    ensures at.nano != 0 && Fields(at) == Fields(end) ==> !InWindow(at, start, end) && InWindowByText(at, start, end)
  {
    WholeSecondTangles(start, at);
    WholeSecondTangles(end, at);
    TextDecides(start, at);
    TextDecides(at, end);
    EarlierTotal(start, at);
    EarlierTotal(at, end);
    EarlierTotal(start, end);
  }

  lemma WholeSecondTangles(whole: Stamp, at: Stamp)
    requires Valid(whole) && Valid(at) && whole.nano == 0
    ensures Tangled(whole, at) == Tangled(at, whole) == (Fields(whole) == Fields(at) && at.nano != 0)
  {
    ZeroFraction();
    if Fraction(at.nano) == "" { SameFraction(at.nano, 0); }
  }

  // ---- what the daily limit then limits ----

  /** An operating day, from one whole second to a later one. */
  datatype Day = Day(start: Stamp, end: Stamp)
  {
    ghost predicate IsDay() { Valid(start) && Valid(end) && start.nano == end.nano == 0 && Earlier(start, end) }

    predicate Holds(at: Stamp) { InWindow(at, start, end) }

    /** Inside the day's first second, after its very start. */
    predicate Opening(at: Stamp) { Fields(at) == Fields(start) && at.nano != 0 }
  }

  /** The voyages the query counts in a day, of the opening times of all that are not cancelled. */
  ghost function Counted(openings: Times, day: Day): set<string>
    requires AllValid(openings) && day.IsDay()
  {
    set k | k in openings && InWindowByText(openings[k], day.start, day.end)
  }

  /** The voyages of a day that open outside its first second. */
  ghost function Later(openings: Times, day: Day): set<string> {
    set k | k in openings && day.Holds(openings[k]) && !day.Opening(openings[k])
  }

  /** A voyage is planned, within the limit if it opens in this day, or one is cancelled. */
  ghost predicate Plans(openings: Times, openings': Times, day: Day, limit: nat)
    requires AllValid(openings) && day.IsDay()
  {
    || (exists k, at :: k !in openings && Valid(at) && openings' == openings[k := at]
                        && (day.Holds(at) ==> |Counted(openings, day)| < limit))
    || (exists k :: k in openings && openings' == openings - {k})
  }

  ghost predicate IsPlanning(states: seq<Times>, day: Day, limit: nat)
    requires day.IsDay()
  {
    && states != [] && states[0] == map[] && (forall i | 0 <= i < |states| :: AllValid(states[i]))
    && forall i | 0 < i < |states| :: Plans(states[i - 1], states[i], day, limit)
  }

  lemma LaterIsCounted(day: Day, at: Stamp)
    requires day.IsDay() && Valid(at) && day.Holds(at) && !day.Opening(at)
    ensures InWindowByText(at, day.start, day.end)
  {
    CountedInItsDayIff(at, day.start, day.end);
  }

  lemma LaterAreCounted(openings: Times, day: Day)
    requires AllValid(openings) && day.IsDay()
    ensures Later(openings, day) <= Counted(openings, day)
  {
    forall k | k in Later(openings, day) ensures k in Counted(openings, day) { LaterIsCounted(day, openings[k]); }
  }

  lemma PlansKeepsLimit(openings: Times, openings': Times, day: Day, limit: nat)
    requires AllValid(openings) && day.IsDay() && Plans(openings, openings', day, limit)
    requires |Later(openings, day)| <= limit
    ensures |Later(openings', day)| <= limit
  {
    LaterAreCounted(openings, day);
    SubsetSize(Later(openings, day), Counted(openings, day));
    if k, at :| k !in openings && Valid(at) && openings' == openings[k := at]
                && (day.Holds(at) ==> |Counted(openings, day)| < limit)
    {
      assert Later(openings', day) == Later(openings, day) + if day.Holds(at) && !day.Opening(at) then {k} else {};
    } else {
      SubsetSize(Later(openings', day), Later(openings, day));
    }
  }

  /** Whatever is planned and cancelled, at most the limit of a day's voyages opens outside its
      first second. */
  lemma {:induction false} LimitHoldsAfterTheFirstSecond(states: seq<Times>, day: Day, limit: nat, i: nat)
    requires day.IsDay() && IsPlanning(states, day, limit) && i < |states|
    ensures |Later(states[i], day)| <= limit
  {
    if i > 0 {
      LimitHoldsAfterTheFirstSecond(states, day, limit, i - 1);
      PlansKeepsLimit(states[i - 1], states[i], day, limit);
    }
  }

  /** Inside it there is no limit: any number of voyages can be planned half a second into the day. */
  lemma {:induction false} NoLimitInTheFirstSecond(day: Day, limit: nat, n: nat) returns (states: seq<Times>)
    requires day.IsDay() && limit > 0
    ensures IsPlanning(states, day, limit) && |states| == n + 1 && |states[n]| == n
    ensures forall k | k in states[n] :: day.Holds(states[n][k]) && day.Opening(states[n][k])
    ensures forall k | k in states[n] :: |k| < n
  {
    if n == 0 {
      states := [map[]];
    } else {
      var before := NoLimitInTheFirstSecond(day, limit, n - 1);
      var last, at := before[n - 1], day.start.(nano := 500_000_000);
      var k := seq(n - 1, _ => 'x');
      assert |k| == n - 1 && k !in last;
      NoneCounted(last, day);
      OpeningIsHeld(day, at);
      PlanningExtends(before, day, limit, k, at);
      states := before + [last[k := at]];
      OneMore(last, k, at);
    }
  }

  lemma OneMore(openings: Times, k: string, at: Stamp)
    requires k !in openings
    ensures |openings[k := at]| == |openings| + 1
  {
    assert openings[k := at].Keys == openings.Keys + {k};
  }

  lemma PlanningExtends(states: seq<Times>, day: Day, limit: nat, k: string, at: Stamp)
    requires day.IsDay() && IsPlanning(states, day, limit)
    requires var last := states[|states| - 1]; k !in last && Valid(at) && |Counted(last, day)| < limit
    ensures IsPlanning(states + [states[|states| - 1][k := at]], day, limit)
  {
    var last := states[|states| - 1];
    var longer := states + [last[k := at]];
    assert Plans(last, last[k := at], day, limit);
    forall i | 0 < i < |longer| ensures Plans(longer[i - 1], longer[i], day, limit) {
      if i < |states| { assert longer[i - 1] == states[i - 1] && longer[i] == states[i]; }
    }
  }

  lemma NoneCounted(openings: Times, day: Day)
    requires AllValid(openings) && day.IsDay() && forall k | k in openings :: day.Opening(openings[k])
    ensures Counted(openings, day) == {}
  {
    forall k | k in openings ensures !InWindowByText(openings[k], day.start, day.end) {
      CountedInItsDayIff(openings[k], day.start, day.end);
    }
  }

  lemma OpeningIsHeld(day: Day, at: Stamp)
    requires day.IsDay() && Valid(at) && day.Opening(at)
    ensures day.Holds(at)
  {
    CountedInItsDayIff(at, day.start, day.end);
  }

  // ---- the last declaration ----

  predicate IsLatest(times: Times, k: string) { k in times && forall j | j in times :: !Earlier(times[k], times[j]) }

  /** MAX(recorded_at). */
  predicate IsLatestByText(times: Times, k: string)
    requires AllValid(times)
  {
    k in times && forall j | j in times :: AtMost(FormatTime(times[j]), FormatTime(times[k]))
  }

  /** The latest declaration is the one reported exactly when no other is tangled with it. */
  lemma LatestIsReportedIff(times: Times, k: string)
    requires AllValid(times) && IsLatest(times, k)
    ensures IsLatestByText(times, k) <==> TangledWith(times, times[k]) == {}
  {
    forall j | j in times
      ensures AtMost(FormatTime(times[j]), FormatTime(times[k])) <==> j !in TangledWith(times, times[k])
    {
      TextMisjudges(times[j], times[k]);
    }
  }
}
