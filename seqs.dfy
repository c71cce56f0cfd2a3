/** The array operations of the JavaScript runtime used by the tool layer
    (`map`, `filter`, `slice(0, n)`, `[...new Set(xs)]`) as functions on sequences. */
module Seqs {
  import opened Base

  /** `s.map(f)`. */
  function Map<T, U>(f: T -> U, s: seq<T>): (r: seq<U>)
    ensures |r| == |s|
    ensures forall i :: 0 <= i < |s| ==> r[i] == f(s[i])
  {
    seq(|s|, i requires 0 <= i < |s| => f(s[i]))
  }

  lemma MapCons<T, U>(f: T -> U, x: T, s: seq<T>)
    ensures Map(f, [x] + s) == [f(x)] + Map(f, s)
  {
  }

  /** `s.filter(p)`. */
  function Filter<T>(p: T -> bool, s: seq<T>): (r: seq<T>)
    ensures |r| <= |s|
    ensures forall i :: 0 <= i < |r| ==> r[i] in s && p(r[i])
    ensures forall i :: 0 <= i < |s| && p(s[i]) ==> s[i] in r
    decreases |s|
  {
    if |s| == 0 then []
    else
      var rest := Filter(p, s[1..]);
      assert forall i :: 0 < i < |s| ==> s[i] == s[1..][i - 1];
      if p(s[0]) then [s[0]] + rest else rest
  }

  lemma FilterCons<T>(p: T -> bool, x: T, s: seq<T>)
    ensures Filter(p, [x] + s) == (if p(x) then [x] else []) + Filter(p, s)
  {
    assert ([x] + s)[1..] == s;
  }

  lemma FilterAll<T>(p: T -> bool, s: seq<T>)
    requires forall i :: 0 <= i < |s| ==> p(s[i])
    ensures Filter(p, s) == s
    decreases |s|
  {
    if |s| > 0 {
      FilterAll(p, s[1..]);
    }
  }

  /** Filtering a concatenation filters each part. */
  lemma {:induction false} FilterAppend<T>(p: T -> bool, a: seq<T>, b: seq<T>)
    ensures Filter(p, a + b) == Filter(p, a) + Filter(p, b)
    decreases |a|
  {
    if |a| == 0 {
      assert a + b == b;
    } else {
      assert (a + b)[0] == a[0];
      assert (a + b)[1..] == a[1..] + b;
      FilterAppend(p, a[1..], b);
      var head := if p(a[0]) then [a[0]] else [];
      assert Filter(p, a + b) == head + Filter(p, a[1..] + b);
      assert Filter(p, a) == head + Filter(p, a[1..]);
    }
  }

  /** Two filters can be applied in either order. */
  lemma {:induction false} FilterCommutes<T>(p: T -> bool, q: T -> bool, s: seq<T>)
    ensures Filter(p, Filter(q, s)) == Filter(q, Filter(p, s))
    decreases |s|
  {
    if |s| > 0 {
      FilterCommutes(p, q, s[1..]);
      var pq := Filter(p, Filter(q, s[1..]));
      if q(s[0]) {
        assert Filter(q, s) == [s[0]] + Filter(q, s[1..]);
        assert ([s[0]] + Filter(q, s[1..]))[1..] == Filter(q, s[1..]);
      }
      if p(s[0]) {
        assert Filter(p, s) == [s[0]] + Filter(p, s[1..]);
        assert ([s[0]] + Filter(p, s[1..]))[1..] == Filter(p, s[1..]);
      }
    }
  }

  /** `s.slice(0, n)` for a non-negative `n`. */
  function Take<T>(s: seq<T>, n: nat): (r: seq<T>)
    ensures r <= s
    ensures |r| == if |s| <= n then |s| else n
  {
    if |s| <= n then s else s[..n]
  }

  /** What a filter keeps from a prefix is a prefix of what it keeps from the whole. */
  lemma FilterTake<T>(p: T -> bool, s: seq<T>, n: nat)
    ensures Filter(p, Take(s, n)) <= Filter(p, s)
  {
    if n < |s| {
      assert s == s[..n] + s[n..];
      FilterAppend(p, s[..n], s[n..]);
    }
  }

  function Identity<T>(x: T): T { x }

  /** Keeps the first element of each key, in order of first appearance; keys
      in `seen` count as already met. With `seen = {}` and the identity key
      this is `[...new Set(s)]`; with a field as key it is the `filter` over a
      `seen` set that the source writes by hand. */
  function DistinctBy<T, K(==)>(s: seq<T>, key: T -> K, seen: set<K>): seq<T>
    decreases |s|
  {
    if |s| == 0 then []
    else if key(s[0]) in seen then DistinctBy(s[1..], key, seen)
    else [s[0]] + DistinctBy(s[1..], key, seen + {key(s[0])})
  }

  /** `[...new Set(s)]`. */
  function Distinct<T(==)>(s: seq<T>): seq<T> {
    DistinctBy(s, Identity, {})
  }

  predicate KeysDistinct<T, K(==)>(s: seq<T>, key: T -> K) {
    forall i, j :: 0 <= i < j < |s| ==> key(s[i]) != key(s[j])
  }

  predicate NoDuplicates<T(==)>(s: seq<T>) {
    forall i, j :: 0 <= i < j < |s| ==> s[i] != s[j]
  }

  function KeySet<T, K(==)>(s: seq<T>, key: T -> K): set<K>
    decreases |s|
  {
    if |s| == 0 then {} else {key(s[0])} + KeySet(s[1..], key)
  }

  /** The first element of `s` whose key is `k`. */
  function FirstWithKey<T, K(==)>(s: seq<T>, key: T -> K, k: K): Option<T>
    decreases |s|
  {
    if |s| == 0 then None
    else if key(s[0]) == k then Some(s[0])
    else FirstWithKey(s[1..], key, k)
  }

  /** Every kept element comes from `s`, has a key not seen before, and no two
      kept elements share a key. */
  lemma {:induction false} DistinctByKeys<T, K>(s: seq<T>, key: T -> K, seen: set<K>)
    ensures KeysDistinct(DistinctBy(s, key, seen), key)
    ensures forall x :: x in DistinctBy(s, key, seen) ==> x in s && key(x) !in seen
    decreases |s|
  {
    if |s| > 0 {
      if key(s[0]) in seen {
        DistinctByKeys(s[1..], key, seen);
      } else {
        var rest := DistinctBy(s[1..], key, seen + {key(s[0])});
        DistinctByKeys(s[1..], key, seen + {key(s[0])});
        var r := [s[0]] + rest;
        assert forall j :: 0 < j < |r| ==> r[j] == rest[j - 1] && r[j] in rest;
      }
    }
  }

  /** Every key of `s` that was not already seen is kept. */
  lemma {:induction false} DistinctByCovers<T, K>(s: seq<T>, key: T -> K, seen: set<K>)
    ensures KeySet(DistinctBy(s, key, seen), key) == KeySet(s, key) - seen
    decreases |s|
  {
    if |s| > 0 {
      if key(s[0]) in seen {
        DistinctByCovers(s[1..], key, seen);
      } else {
        var rest := DistinctBy(s[1..], key, seen + {key(s[0])});
        DistinctByCovers(s[1..], key, seen + {key(s[0])});
        assert ([s[0]] + rest)[1..] == rest;
      }
    }
  }

  /** Each kept element is the first element of `s` with its key (first seen wins). */
  lemma {:induction false} DistinctByFirst<T, K>(s: seq<T>, key: T -> K, seen: set<K>, y: T)
    requires y in DistinctBy(s, key, seen)
    ensures FirstWithKey(s, key, key(y)) == Some(y)
    decreases |s|
  {
    DistinctByKeys(s, key, seen);
    if key(s[0]) in seen {
      assert key(y) != key(s[0]);
      DistinctByFirst(s[1..], key, seen, y);
    } else if y != s[0] {
      var rest := DistinctBy(s[1..], key, seen + {key(s[0])});
      assert y in rest;
      DistinctByKeys(s[1..], key, seen + {key(s[0])});
      DistinctByFirst(s[1..], key, seen + {key(s[0])}, y);
    }
  }

  /** Processing `a + b` keeps what `a` keeps, then what `b` keeps beyond `a`'s keys. */
  lemma {:induction false} DistinctByAppend<T, K>(a: seq<T>, b: seq<T>, key: T -> K, seen: set<K>)
    ensures DistinctBy(a + b, key, seen) == DistinctBy(a, key, seen) + DistinctBy(b, key, seen + KeySet(a, key))
    decreases |a|
  {
    if |a| == 0 {
      assert a + b == b;
      assert seen + KeySet(a, key) == seen;
    } else {
      assert (a + b)[0] == a[0];
      assert (a + b)[1..] == a[1..] + b;
      if key(a[0]) in seen {
        DistinctByAppend(a[1..], b, key, seen);
        assert seen + KeySet(a, key) == seen + KeySet(a[1..], key);
      } else {
        DistinctByAppend(a[1..], b, key, seen + {key(a[0])});
        assert seen + {key(a[0])} + KeySet(a[1..], key) == seen + KeySet(a, key);
      }
    }
  }

  /** A sequence whose keys are already distinct and unseen is kept whole. */
  lemma {:induction false} DistinctByOfDistinct<T, K>(s: seq<T>, key: T -> K, seen: set<K>)
    requires KeysDistinct(s, key)
    requires forall i :: 0 <= i < |s| ==> key(s[i]) !in seen
    ensures DistinctBy(s, key, seen) == s
    decreases |s|
  {
    if |s| > 0 {
      assert forall i :: 0 <= i < |s[1..]| ==> key(s[1..][i]) != key(s[0]);
      DistinctByOfDistinct(s[1..], key, seen + {key(s[0])});
    }
  }

  lemma DistinctByEmpty<T, K>(s: seq<T>, key: T -> K)
    ensures DistinctBy(s, key, {}) == [] <==> s == []
  {
  }

  lemma DistinctNoDuplicates<T>(s: seq<T>)
    ensures NoDuplicates(Distinct(s))
    ensures forall x :: x in Distinct(s) ==> x in s
  {
    DistinctByKeys(s, Identity, {});
  }

  /** What holds of every element still holds after de-duplication. */
  lemma DistinctKeepsProperty<T>(s: seq<T>, p: T -> bool)
    requires forall i :: 0 <= i < |s| ==> p(s[i])
    ensures forall i :: 0 <= i < |Distinct(s)| ==> p(Distinct(s)[i])
  {
    DistinctNoDuplicates(s);
    forall i | 0 <= i < |Distinct(s)|
      ensures p(Distinct(s)[i])
    {
      var x := Distinct(s)[i];
      assert x in s;
      var j :| 0 <= j < |s| && s[j] == x;
    }
  }

  /** `rel` holds of every pair of elements taken in order. */
  predicate Pairwise<T>(s: seq<T>, rel: (T, T) -> bool) {
    forall i, j :: 0 <= i < j < |s| ==> rel(s[i], s[j])
  }

  /** Filtering keeps the relative order of what it keeps. */
  lemma {:induction false} FilterPairwise<T>(p: T -> bool, s: seq<T>, rel: (T, T) -> bool)
    requires Pairwise(s, rel)
    ensures Pairwise(Filter(p, s), rel)
    decreases |s|
  {
    if |s| > 0 {
      var rest := Filter(p, s[1..]);
      FilterPairwise(p, s[1..], rel);
      if p(s[0]) {
        var r := [s[0]] + rest;
        forall j | 0 < j < |r| ensures rel(r[0], r[j]) {
          assert r[j] == rest[j - 1];
          var k :| 0 <= k < |s[1..]| && s[1..][k] == rest[j - 1];
          assert s[k + 1] == r[j];
        }
        forall i, j | 0 < i < j < |r| ensures rel(r[i], r[j]) {
          assert r[i] == rest[i - 1] && r[j] == rest[j - 1];
        }
      }
    }
  }

  /** Filtering keeps keys distinct. */
  lemma {:induction false} FilterKeysDistinct<T, K>(p: T -> bool, s: seq<T>, key: T -> K)
    requires KeysDistinct(s, key)
    ensures KeysDistinct(Filter(p, s), key)
    decreases |s|
  {
    if |s| > 0 {
      var rest := Filter(p, s[1..]);
      FilterKeysDistinct(p, s[1..], key);
      if p(s[0]) {
        var r := [s[0]] + rest;
        forall j | 0 < j < |r| ensures key(r[0]) != key(r[j]) {
          assert r[j] == rest[j - 1];
          var k :| 0 <= k < |s[1..]| && s[1..][k] == rest[j - 1];
          assert s[k + 1] == r[j];
        }
        forall i, j | 0 < i < j < |r| ensures key(r[i]) != key(r[j]) {
          assert r[i] == rest[i - 1] && r[j] == rest[j - 1];
        }
      }
    }
  }

  /** The concatenation of `f` over `s`, in order. */
  function Flatten<T, U>(f: T -> seq<U>, s: seq<T>): seq<U>
    decreases |s|
  {
    if s == [] then [] else f(s[0]) + Flatten(f, s[1..])
  }

  lemma FlattenCons<T, U>(f: T -> seq<U>, x: T, s: seq<T>)
    ensures Flatten(f, [x] + s) == f(x) + Flatten(f, s)
  {
    assert ([x] + s)[1..] == s;
  }

  lemma FlattenSix<T, U>(f: T -> seq<U>, x0: T, x1: T, x2: T, x3: T, x4: T, x5: T)
    ensures Flatten(f, [x0, x1, x2, x3, x4, x5]) == f(x0) + f(x1) + f(x2) + f(x3) + f(x4) + f(x5)
  {
    FlattenCons(f, x5, []);
    assert [x5] + [] == [x5];
    FlattenCons(f, x4, [x5]);
    FlattenCons(f, x3, [x4, x5]);
    assert [x3] + [x4, x5] == [x3, x4, x5];
    FlattenCons(f, x2, [x3, x4, x5]);
    assert [x2] + [x3, x4, x5] == [x2, x3, x4, x5];
    FlattenCons(f, x1, [x2, x3, x4, x5]);
    assert [x1] + [x2, x3, x4, x5] == [x1, x2, x3, x4, x5];
    FlattenCons(f, x0, [x1, x2, x3, x4, x5]);
    assert [x0] + [x1, x2, x3, x4, x5] == [x0, x1, x2, x3, x4, x5];
  }

  lemma {:induction false} FlattenAppend<T, U>(f: T -> seq<U>, s: seq<T>, i: nat)
    requires i < |s|
    ensures Flatten(f, s[..i + 1]) == Flatten(f, s[..i]) + f(s[i])
    decreases i
  {
    if i == 0 {
      assert s[..1][1..] == [];
    } else {
      assert s[..i + 1][1..] == s[1..][..i];
      assert s[..i][1..] == s[1..][..i - 1];
      FlattenAppend(f, s[1..], i - 1);
    }
  }

  /** The dictionary built by assigning `key(x) := val(x)` for every kept `x`
      of `s` in order, so that a later key overwrites an earlier one. */
  function Assign<T, K(==), V>(s: seq<T>, keep: T -> bool, key: T -> K, val: T -> V): map<K, V>
    decreases |s|
  {
    if s == [] then map[]
    else
      var prev := Assign(s[..|s| - 1], keep, key, val);
      var last := s[|s| - 1];
      if keep(last) then prev[key(last) := val(last)] else prev
  }

  /** Extending the input by one element is one more assignment, or none. */
  lemma AssignSnoc<T, K, V>(s: seq<T>, x: T, keep: T -> bool, key: T -> K, val: T -> V)
    ensures Assign(s + [x], keep, key, val)
      == (if keep(x) then Assign(s, keep, key, val)[key(x) := val(x)] else Assign(s, keep, key, val))
  {
    assert (s + [x])[..|s|] == s;
  }

  /** A key is present exactly when some kept element carries it. */
  lemma {:induction false} AssignKeys<T, K, V>(s: seq<T>, keep: T -> bool, key: T -> K, val: T -> V, k: K)
    ensures k in Assign(s, keep, key, val) <==> exists i :: 0 <= i < |s| && keep(s[i]) && key(s[i]) == k
    decreases |s|
  {
    if s != [] {
      var n := |s| - 1;
      var init := s[..n];
      AssignKeys(init, keep, key, val, k);
      if k in Assign(s, keep, key, val) {
        if !(keep(s[n]) && key(s[n]) == k) {
          var i :| 0 <= i < |init| && keep(init[i]) && key(init[i]) == k;
          assert s[i] == init[i];
        }
      } else {
        forall i | 0 <= i < |s|
          ensures !(keep(s[i]) && key(s[i]) == k)
        {
          if i < n {
            assert s[i] == init[i];
          }
        }
      }
    }
  }

  /** The value under a key is the one of the last kept element carrying it. */
  lemma {:induction false} AssignLast<T, K, V>(s: seq<T>, keep: T -> bool, key: T -> K, val: T -> V, i: nat)
    requires i < |s| && keep(s[i])
    requires forall j :: i < j < |s| && keep(s[j]) ==> key(s[j]) != key(s[i])
    ensures key(s[i]) in Assign(s, keep, key, val) && Assign(s, keep, key, val)[key(s[i])] == val(s[i])
    decreases |s|
  {
    var n := |s| - 1;
    if i < n {
      var init := s[..n];
      assert init[i] == s[i];
      forall j | i < j < |init| && keep(init[j])
        ensures key(init[j]) != key(init[i])
      {
        assert init[j] == s[j];
      }
      AssignLast(init, keep, key, val, i);
    }
  }
}
