/** Shared vocabulary: results, the error kinds of internal/domain/errors.go, string order,
    and sums over the values of a finite map. */
module Basics {

  datatype Option<+T> = None | Some(value: T)

  datatype Error =
    | Validation
    | NotFound
    | Conflict
    | InvalidTransition
    | CapacityExceeded
    | VersionConflict
    | Expired
    | Constraint  // a storage constraint error passed on untranslated

  datatype Result<+T> = Success(value: T) | Failure(error: Error)

  /** Byte-wise string order, the order SQLite gives to TEXT columns. */
  predicate Before(a: string, b: string) {
    if b == "" then false
    else if a == "" then true
    else a[0] < b[0] || (a[0] == b[0] && Before(a[1..], b[1..]))
  }

  lemma {:induction false} BeforeTotal(a: string, b: string)
    ensures a == b || Before(a, b) || Before(b, a)
    ensures !(Before(a, b) && Before(b, a)) && !Before(a, a)
  {
    if a != "" && b != "" {
      BeforeTotal(a[1..], b[1..]);
      assert a == [a[0]] + a[1..] && b == [b[0]] + b[1..];
    }
    if a != "" {
      BeforeTotal(a[1..], a[1..]);
    }
  }

  lemma {:induction false} BeforeTransitive(a: string, b: string, c: string)
    requires Before(a, b) && Before(b, c)
    ensures Before(a, c)
  {
    if a != "" && a[0] == b[0] && b[0] == c[0] {
      BeforeTransitive(a[1..], b[1..], c[1..]);
    }
  }

  // ---- the first of a set of identifiers ----

  ghost predicate IsFirstOf(x: string, s: set<string>) {
    x in s && forall y {:trigger Before(x, y)} | y in s && y != x :: Before(x, y)
  }

  lemma {:induction false} FirstExists(s: set<string>)
    requires s != {}
    ensures exists x :: IsFirstOf(x, s)
    decreases |s|
  {
    var x :| x in s;
    if s == {x} {
      assert IsFirstOf(x, s);
    } else {
      FirstExists(s - {x});
      var y :| IsFirstOf(y, s - {x});
      BeforeTotal(x, y);
      if Before(y, x) {
        assert IsFirstOf(y, s);
      } else {
        forall z | z in s && z != x ensures Before(x, z) {
          if z != y { BeforeTransitive(x, y, z); }
        }
        assert IsFirstOf(x, s);
      }
    }
  }

  lemma FirstIsUnique(s: set<string>, x: string, y: string)
    requires IsFirstOf(x, s) && IsFirstOf(y, s)
    ensures x == y
  {
    BeforeTotal(x, y);
    assert x != y ==> Before(x, y) && Before(y, x);
  }

  ghost function FirstOf(s: set<string>): (x: string)
    requires s != {}
    ensures IsFirstOf(x, s)
  {
    FirstExists(s);
    var x :| IsFirstOf(x, s); x
  }

  // ---- sums over maps ----

  /** The sum of the values of a finite map. */
  ghost function Sum<K>(m: map<K, int>): int
    decreases |m.Keys|
  {
    if m == map[] then 0
    else
      var k :| k in m;
      assert (m - {k}).Keys == m.Keys - {k};
      m[k] + Sum(m - {k})
  }

  lemma {:induction false} SumRemove<K>(m: map<K, int>, k: K)
    requires k in m
    ensures Sum(m) == m[k] + Sum(m - {k})
    decreases |m.Keys|
  {
    var j :| j in m && Sum(m) == m[j] + Sum(m - {j});
    if j != k {
      assert (m - {j}).Keys == m.Keys - {j};
      assert (m - {k}).Keys == m.Keys - {k};
      SumRemove(m - {j}, k);
      SumRemove(m - {k}, j);
      assert m - {j} - {k} == m - {k} - {j};
    }
  }

  lemma SumInsert<K>(m: map<K, int>, k: K, v: int)
    requires k !in m
    ensures Sum(m[k := v]) == Sum(m) + v
  {
    SumRemove(m[k := v], k);
    assert m[k := v] - {k} == m;
  }

  lemma SumReplace<K>(m: map<K, int>, k: K, v: int)
    requires k in m
    ensures Sum(m[k := v]) == Sum(m) - m[k] + v
  {
    SumRemove(m[k := v], k);
    SumRemove(m, k);
    assert m[k := v] - {k} == m - {k};
  }

  lemma {:induction false} SumNonNegative<K>(m: map<K, int>)
    requires forall k | k in m :: m[k] >= 0
    ensures Sum(m) >= 0
    decreases |m.Keys|
  {
    if m != map[] {
      var k :| k in m && Sum(m) == m[k] + Sum(m - {k});
      assert (m - {k}).Keys == m.Keys - {k};
      SumNonNegative(m - {k});
    }
  }

  ghost function Fibre<E, K>(owner: map<E, K>, k: K): set<E> {
    set e | e in owner && owner[e] == k
  }

  ghost function FibreSizes<E, K>(owner: map<E, K>, keys: set<K>): map<K, int> {
    map k | k in keys :: |Fibre(owner, k)|
  }

  lemma OtherFibre<E, K>(owner: map<E, K>, k: K, j: K)
    requires j != k
    ensures Fibre(owner - Fibre(owner, k), j) == Fibre(owner, j)
  {
  }

  lemma SizesWithout<E, K>(owner: map<E, K>, keys: set<K>, k: K)
    requires k in keys
    ensures FibreSizes(owner, keys)
         == FibreSizes(owner - Fibre(owner, k), keys - {k})[k := |Fibre(owner, k)|]
  {
    var sizes := FibreSizes(owner - Fibre(owner, k), keys - {k});
    forall j | j in keys - {k} ensures sizes[j] == FibreSizes(owner, keys)[j] { OtherFibre(owner, k, j); }
  }

  lemma DropFibre<E, K>(owner: map<E, K>, keys: set<K>, k: K)
    requires forall e | e in owner :: owner[e] in keys
    requires k in keys
    ensures var rest := owner - Fibre(owner, k);
            && (forall e | e in rest :: rest[e] in keys - {k})
            && FibreSizes(owner, keys) == FibreSizes(rest, keys - {k})[k := |Fibre(owner, k)|]
            && |owner| == |rest| + |Fibre(owner, k)|
  {
    var rest := owner - Fibre(owner, k);
    SizesWithout(owner, keys, k);
    assert rest.Keys == owner.Keys - Fibre(owner, k) && owner.Keys == rest.Keys + Fibre(owner, k);
  }

  /** The fibres of a map partition its domain, so their sizes add up. */
  lemma {:induction false} SumOfFibres<E, K>(owner: map<E, K>, keys: set<K>)
    requires forall e | e in owner :: owner[e] in keys
    ensures Sum(FibreSizes(owner, keys)) == |owner|
    decreases |keys|
  {
    if keys == {} {
      assert owner.Keys == {} && FibreSizes(owner, keys) == map[];
    } else {
      var k :| k in keys;
      DropFibre(owner, keys, k);
      var rest := owner - Fibre(owner, k);
      SumOfFibres(rest, keys - {k});
      SumInsert(FibreSizes(rest, keys - {k}), k, |Fibre(owner, k)|);
    }
  }

  lemma {:induction false} SubsetSize<T>(a: set<T>, b: set<T>)
    requires a <= b
    ensures |a| <= |b|
  {
    assert b == a + (b - a);
  }

  /** A total injective relation between finite sets, given as a map, preserves size. */
  lemma {:induction false} InjectionSize<A, B>(f: map<A, B>, target: set<B>)
    requires forall a | a in f :: f[a] in target
    requires forall a, b | a in f && b in f && a != b :: f[a] != f[b]
    ensures |f.Keys| <= |target|
    decreases |f.Keys|
  {
    if f != map[] {
      var a :| a in f;
      assert (f - {a}).Keys == f.Keys - {a};
      InjectionSize(f - {a}, target - {f[a]});
    }
  }
}
