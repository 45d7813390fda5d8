/** The queries that end in ORDER BY ... LIMIT: a job claim and the overdue-task sweep. */
module Selection {
  import opened Basics

  function Min(a: nat, b: nat): nat { if a < b then a else b }

  /** ORDER BY key, id. */
  predicate Precedes(keys: map<string, int>, a: string, b: string)
    requires a in keys && b in keys
  {
    keys[a] < keys[b] || (keys[a] == keys[b] && Before(a, b))
  }

  /** `ids` is what ORDER BY key, id LIMIT limit returns over the rows of `keys`. */
  ghost predicate IsFirst(keys: map<string, int>, limit: nat, ids: seq<string>) {
    && |ids| == Min(limit, |keys|)
    && (forall i | 0 <= i < |ids| :: ids[i] in keys)
    && (forall i, j | 0 <= i < j < |ids| :: Precedes(keys, ids[i], ids[j]))
    && (forall i, k | 0 <= i < |ids| && k in keys && k !in ids :: Precedes(keys, ids[i], k))
  }

  /** `chosen` is a possible answer of ORDER BY key LIMIT limit, where ties fall either way. */
  ghost predicate IsEarliest(keys: map<string, int>, limit: nat, chosen: set<string>) {
    && chosen <= keys.Keys
    && |chosen| == Min(limit, |keys|)
    && forall a, b | a in chosen && b in keys && b !in chosen :: keys[a] <= keys[b]
  }

  lemma {:induction false} DistinctSize(keys: map<string, int>, ids: seq<string>)
    requires forall i | 0 <= i < |ids| :: ids[i] in keys
    requires forall i, j | 0 <= i < j < |ids| :: Precedes(keys, ids[i], ids[j])
    ensures |set id | id in ids| == |ids|
    ensures forall i, j | 0 <= i < j < |ids| :: ids[i] != ids[j]
  {
    forall i, j | 0 <= i < j < |ids| ensures ids[i] != ids[j] { BeforeTotal(ids[i], ids[j]); }
    if ids != [] {
      var front, last := ids[..|ids| - 1], ids[|ids| - 1];
      DistinctSize(keys, front);
      assert ids == front + [last];
      assert (set id | id in ids) == (set id | id in front) + {last};
    }
  }

  /** The least keys have been taken in order, and `rest` is what is left. */
  ghost predicate TakenSoFar(keys: map<string, int>, ids: seq<string>, rest: map<string, int>) {
    && |rest| + |ids| == |keys|
    && (forall k | k in rest :: k in keys && k !in ids && rest[k] == keys[k])
    && (forall k | k in keys && k !in rest :: k in ids)
    && (forall i | 0 <= i < |ids| :: ids[i] in keys)
    && (forall i, j | 0 <= i < j < |ids| :: Precedes(keys, ids[i], ids[j]))
    && (forall i, k | 0 <= i < |ids| && k in rest :: Precedes(keys, ids[i], k))
  }

  lemma TakeNext(keys: map<string, int>, ids: seq<string>, rest: map<string, int>, next: string)
    requires TakenSoFar(keys, ids, rest) && next in rest
    requires forall k | k in rest && k != next :: Precedes(rest, next, k)
    ensures TakenSoFar(keys, ids + [next], rest - {next})
  {
    forall k | k in rest && k != next ensures Precedes(keys, next, k) { assert Precedes(rest, next, k); }
    assert (rest - {next}).Keys == rest.Keys - {next};
  }

  /** The deterministic answer is one of the answers the coarser order allows. */
  lemma FirstIsEarliest(keys: map<string, int>, limit: nat, ids: seq<string>)
    requires IsFirst(keys, limit, ids)
    ensures IsEarliest(keys, limit, set id | id in ids)
  {
    DistinctSize(keys, ids);
    forall a, b | a in ids && b in keys && b !in ids ensures keys[a] <= keys[b] {
      var i :| 0 <= i < |ids| && ids[i] == a;
      assert Precedes(keys, ids[i], b);
    }
  }

  method Least(keys: map<string, int>) returns (least: string)
    requires keys != map[]
    ensures least in keys
    ensures forall k | k in keys && k != least :: Precedes(keys, least, k)
  {
    least :| least in keys;
    var rest := keys.Keys - {least};
    while rest != {}
      invariant least in keys && rest <= keys.Keys && least !in rest
      invariant forall k | k in keys && k != least && k !in rest :: Precedes(keys, least, k)
      decreases |rest|
    {
      var k :| k in rest;
      rest := rest - {k};
      BeforeTotal(k, least);
      if Precedes(keys, k, least) {
        forall j | j in keys && j != k && j !in rest ensures Precedes(keys, k, j) {
          if j != least && keys[j] == keys[least] == keys[k] { BeforeTransitive(k, least, j); }
        }
        least := k;
      }
    }
  }

  method TakeFirst(keys: map<string, int>, limit: nat) returns (ids: seq<string>)
    ensures IsFirst(keys, limit, ids)
    ensures forall i, j | 0 <= i < j < |ids| :: ids[i] != ids[j]
  {
    ids := [];
    var rest := keys;
    while |ids| < limit && rest != map[]
      invariant |ids| <= limit && TakenSoFar(keys, ids, rest)
      decreases |rest|
    {
      var next := Least(rest);
      TakeNext(keys, ids, rest, next);
      ids, rest := ids + [next], rest - {next};
    }
    DistinctSize(keys, ids);
    forall i, k | 0 <= i < |ids| && k in keys && k !in ids ensures Precedes(keys, ids[i], k) {
      assert k in rest;
    }
  }
}
