/**
 * The list operations the components apply to their state and to backend
 * collections: `filter`, `map`, `reduce` to a sum, `find`, the dictionaries
 * filled by `forEach` (the last row written wins), and the delete-by-id and
 * replace-by-id updates of local lists.
 */
module Lists {
  import opened Wire

  /** `s.filter(p)`. */
  function Filter<T(!new)>(s: seq<T>, p: T -> bool): (r: seq<T>)
    ensures |r| <= |s|
  {
    if s == [] then []
    else (if p(s[0]) then [s[0]] else []) + Filter(s[1..], p)
  }

  /** The filter keeps exactly the elements that pass. */
  lemma {:induction false} FilterMembership<T(!new)>(s: seq<T>, p: T -> bool)
    ensures forall x :: x in Filter(s, p) <==> x in s && p(x)
  {
    if s != [] {
      FilterMembership(s[1..], p);
      assert s == [s[0]] + s[1..];
    }
  }

  /** Where each kept element sits in the original list. */
  function FilterPositions<T(!new)>(s: seq<T>, p: T -> bool): (ix: seq<nat>)
    ensures |ix| == |Filter(s, p)|
  {
    if s == [] then []
    else
      var tail := FilterPositions(s[1..], p);
      var shifted := seq(|tail|, k requires 0 <= k < |tail| => tail[k] + 1);
      if p(s[0]) then [0] + shifted else shifted
  }

  /**
   * Each kept element is the element at its position, and the positions
   * strictly increase, so the filter keeps the original order.
   */
  lemma {:induction false} FilterPositionsSound<T(!new)>(s: seq<T>, p: T -> bool)
    ensures forall k :: 0 <= k < |FilterPositions(s, p)| ==>
              FilterPositions(s, p)[k] < |s| && Filter(s, p)[k] == s[FilterPositions(s, p)[k]]
    ensures forall a, b :: 0 <= a < b < |FilterPositions(s, p)| ==> FilterPositions(s, p)[a] < FilterPositions(s, p)[b]
  {
    if s != [] {
      FilterPositionsSound(s[1..], p);
      var tail := FilterPositions(s[1..], p);
      var ft := Filter(s[1..], p);
      var ix := FilterPositions(s, p);
      var f := Filter(s, p);
      var d := if p(s[0]) then 1 else 0;
      assert f == (if p(s[0]) then [s[0]] else []) + ft;
      assert |ix| == |tail| + d;
      forall k | d <= k < |ix|
        ensures ix[k] == tail[k - d] + 1 && f[k] == ft[k - d]
      {
      }
      forall k | 0 <= k < |ix|
        ensures ix[k] < |s| && f[k] == s[ix[k]]
      {
        if k >= d {
          assert s[1..][tail[k - d]] == s[ix[k]];
        }
      }
    }
  }

  /** Filtering a concatenation filters each part and keeps them in order. */
  lemma {:induction false} FilterConcat<T(!new)>(a: seq<T>, b: seq<T>, p: T -> bool)
    ensures Filter(a + b, p) == Filter(a, p) + Filter(b, p)
  {
    if a == [] {
      assert a + b == b;
    } else {
      var ab := a + b;
      assert ab[0] == a[0] && ab[1..] == a[1..] + b;
      FilterConcat(a[1..], b, p);
      var head := if p(a[0]) then [a[0]] else [];
      calc {
        Filter(ab, p);
        head + Filter(a[1..] + b, p);
        head + (Filter(a[1..], p) + Filter(b, p));
        (head + Filter(a[1..], p)) + Filter(b, p);
      }
    }
  }

  /** Filtering keeps a list whose every element passes. */
  lemma {:induction false} FilterKeepsAll<T(!new)>(s: seq<T>, p: T -> bool)
    requires forall k :: 0 <= k < |s| ==> p(s[k])
    ensures Filter(s, p) == s
  {
    if s != [] {
      FilterKeepsAll(s[1..], p);
    }
  }

  /** Filtering empties a list whose every element fails. */
  lemma {:induction false} FilterDropsAll<T(!new)>(s: seq<T>, p: T -> bool)
    requires forall k :: 0 <= k < |s| ==> !p(s[k])
    ensures Filter(s, p) == []
  {
    if s != [] {
      FilterDropsAll(s[1..], p);
    }
  }

  /** The filter keeps every element exactly when every element passes. */
  lemma {:induction false} FilterFull<T(!new)>(s: seq<T>, p: T -> bool)
    ensures |Filter(s, p)| == |s| <==> forall k :: 0 <= k < |s| ==> p(s[k])
  {
    if s != [] {
      FilterFull(s[1..], p);
      if !p(s[0]) {
        assert |Filter(s, p)| == |Filter(s[1..], p)| <= |s| - 1;
      } else {
        forall k | 1 <= k < |s| && (forall k' :: 0 <= k' < |s| - 1 ==> p(s[1..][k']))
          ensures p(s[k])
        {
          assert s[k] == s[1..][k - 1];
        }
      }
    }
  }

  /**
   * When exactly one element fails, the filter removes it and keeps the rest
   * in their order.
   */
  lemma FilterDropsOne<T(!new)>(a: seq<T>, x: T, b: seq<T>, p: T -> bool)
    requires !p(x)
    requires forall k :: 0 <= k < |a| ==> p(a[k])
    requires forall k :: 0 <= k < |b| ==> p(b[k])
    ensures Filter(a + [x] + b, p) == a + b
  {
    FilterConcat(a + [x], b, p);
    FilterConcat(a, [x], p);
    FilterKeepsAll(a, p);
    FilterKeepsAll(b, p);
    assert [x][1..] == [];
    assert Filter([x], p) == [];
    assert Filter(a + [x], p) == a;
  }

  /** `s.filter(p).length`. */
  function Count<T(!new)>(s: seq<T>, p: T -> bool): (n: nat)
    ensures n <= |s|
  {
    |Filter(s, p)|
  }

  /** `s.map(f)`. */
  function Map<A, B>(s: seq<A>, f: A -> B): (r: seq<B>)
    ensures |r| == |s|
    ensures forall k :: 0 <= k < |s| ==> r[k] == f(s[k])
  {
    seq(|s|, k requires 0 <= k < |s| => f(s[k]))
  }

  /** `s.reduce((acc, x) => acc + f(x), 0)`. */
  function Sum<T>(s: seq<T>, f: T -> real): real {
    if s == [] then 0.0 else f(s[0]) + Sum(s[1..], f)
  }

  lemma {:induction false} SumConcat<T>(a: seq<T>, b: seq<T>, f: T -> real)
    ensures Sum(a + b, f) == Sum(a, f) + Sum(b, f)
  {
    if a == [] {
      assert a + b == b;
    } else {
      SumConcat(a[1..], b, f);
      assert (a + b)[1..] == a[1..] + b;
    }
  }

  /** A sum of non-negative terms is non-negative. */
  lemma {:induction false} SumNonNegative<T>(s: seq<T>, f: T -> real)
    requires forall k :: 0 <= k < |s| ==> f(s[k]) >= 0.0
    ensures Sum(s, f) >= 0.0
  {
    if s != [] {
      SumNonNegative(s[1..], f);
    }
  }

  /**
   * Summing over the elements that pass `either` is summing over those that
   * pass `p` plus those that pass `q`, when no element passes both.
   */
  lemma {:induction false} SumFilterSplit<T(!new)>(s: seq<T>, f: T -> real, either: T -> bool, p: T -> bool, q: T -> bool)
    requires forall k :: 0 <= k < |s| ==> (either(s[k]) <==> p(s[k]) || q(s[k]))
    requires forall k :: 0 <= k < |s| ==> !(p(s[k]) && q(s[k]))
    ensures Sum(Filter(s, either), f) == Sum(Filter(s, p), f) + Sum(Filter(s, q), f)
  {
    if s != [] {
      SumFilterSplit(s[1..], f, either, p, q);
      var head := if either(s[0]) then [s[0]] else [];
      SumConcat(head, Filter(s[1..], either), f);
      SumConcat(if p(s[0]) then [s[0]] else [], Filter(s[1..], p), f);
      SumConcat(if q(s[0]) then [s[0]] else [], Filter(s[1..], q), f);
    }
  }

  /** `s.find(p)` as a position: the first element that passes, or `|s|` when none does. */
  function FirstIndex<T>(s: seq<T>, p: T -> bool): (i: nat)
    ensures i <= |s|
    ensures i < |s| ==> p(s[i])
    ensures forall k :: 0 <= k < i ==> !p(s[k])
  {
    if s == [] || p(s[0]) then 0 else 1 + FirstIndex(s[1..], p)
  }

  /**
   * The dictionary a `forEach` loop builds when it writes `m[key(x)] = val(x)`
   * for every row `x` that passes `keep`, in list order: a later row
   * overwrites an earlier one with the same key.
   */
  function Index<T, K, V>(s: seq<T>, keep: T -> bool, key: T -> K, val: T -> V): map<K, V>
    decreases |s|
  {
    if s == [] then map[]
    else
      var m := Index(s[..|s| - 1], keep, key, val);
      var last := s[|s| - 1];
      if keep(last) then m[key(last) := val(last)] else m
  }

  /** Some row that passes `keep` has key `k`. */
  ghost predicate HasKeptRow<T, K>(s: seq<T>, keep: T -> bool, key: T -> K, k: K) {
    exists i :: 0 <= i < |s| && keep(s[i]) && key(s[i]) == k
  }

  /** Row `i` is the last row that passes `keep` with key `k`. */
  ghost predicate IsLastKeptRow<T, K>(s: seq<T>, keep: T -> bool, key: T -> K, k: K, i: int) {
    0 <= i < |s| && keep(s[i]) && key(s[i]) == k
    && forall j :: i < j < |s| ==> !(keep(s[j]) && key(s[j]) == k)
  }

  /**
   * The index has key `k` exactly when some kept row has that key, and its
   * value there comes from the last such row.
   */
  lemma {:induction false} IndexLastWins<T, K, V>(s: seq<T>, keep: T -> bool, key: T -> K, val: T -> V, k: K)
    ensures k in Index(s, keep, key, val) <==> HasKeptRow(s, keep, key, k)
    ensures k in Index(s, keep, key, val) ==>
              exists i :: IsLastKeptRow(s, keep, key, k, i) && Index(s, keep, key, val)[k] == val(s[i])
  {
    IndexKeys(s, keep, key, val, k);
    IndexValues(s, keep, key, val, k);
  }

  /** The index has key `k` exactly when some kept row has that key. */
  lemma {:induction false} IndexKeys<T, K, V>(s: seq<T>, keep: T -> bool, key: T -> K, val: T -> V, k: K)
    ensures k in Index(s, keep, key, val) <==> HasKeptRow(s, keep, key, k)
    decreases |s|
  {
    if s != [] {
      var init := s[..|s| - 1];
      IndexKeys(init, keep, key, val, k);
      if !(keep(s[|s| - 1]) && key(s[|s| - 1]) == k) {
        if HasKeptRow(s, keep, key, k) {
          var i :| 0 <= i < |s| && keep(s[i]) && key(s[i]) == k;
          assert init[i] == s[i];
        }
        if HasKeptRow(init, keep, key, k) {
          var i :| 0 <= i < |init| && keep(init[i]) && key(init[i]) == k;
          assert s[i] == init[i];
        }
      }
    }
  }

  /** The index's keys are exactly the keys of the kept rows. */
  lemma IndexKeySet<T, K, V>(s: seq<T>, keep: T -> bool, key: T -> K, val: T -> V)
    ensures forall k :: k in Index(s, keep, key, val) <==> HasKeptRow(s, keep, key, k)
  {
    forall k
      ensures k in Index(s, keep, key, val) <==> HasKeptRow(s, keep, key, k)
    {
      IndexKeys(s, keep, key, val, k);
    }
  }

  /** The value under key `k` comes from the last kept row with that key. */
  lemma {:induction false} IndexValues<T, K, V>(s: seq<T>, keep: T -> bool, key: T -> K, val: T -> V, k: K)
    ensures k in Index(s, keep, key, val) ==>
              exists i :: IsLastKeptRow(s, keep, key, k, i) && Index(s, keep, key, val)[k] == val(s[i])
    decreases |s|
  {
    if s != [] {
      var init := s[..|s| - 1];
      var m := Index(init, keep, key, val);
      IndexValues(init, keep, key, val, k);
      if keep(s[|s| - 1]) && key(s[|s| - 1]) == k {
        assert IsLastKeptRow(s, keep, key, k, |s| - 1);
      } else if k in m {
        var i :| IsLastKeptRow(init, keep, key, k, i) && m[k] == val(init[i]);
        assert s[i] == init[i];
        assert IsLastKeptRow(s, keep, key, k, i);
      }
    }
  }

  /** Appending a kept row makes its value the one stored under its key. */
  lemma IndexAppend<T, K, V>(s: seq<T>, x: T, keep: T -> bool, key: T -> K, val: T -> V)
    requires keep(x)
    ensures Index(s + [x], keep, key, val) == Index(s, keep, key, val)[key(x) := val(x)]
  {
    assert (s + [x])[..|s|] == s;
  }

  /** The `forEach` loop that fills the dictionary row by row. */
  method BuildIndex<T, K, V>(s: seq<T>, keep: T -> bool, key: T -> K, val: T -> V) returns (m: map<K, V>)
    ensures m == Index(s, keep, key, val)
  {
    m := map[];
    for i := 0 to |s|
      invariant m == Index(s[..i], keep, key, val)
    {
      assert s[..i + 1][..i] == s[..i];
      if keep(s[i]) {
        m := m[key(s[i]) := val(s[i])];
      }
    }
    assert s[..|s|] == s;
  }

  /** No two elements share an id. */
  predicate UniqueIds<T>(s: seq<T>, idOf: T -> string) {
    forall i, j :: 0 <= i < j < |s| ==> idOf(s[i]) != idOf(s[j])
  }

  /** Filtering keeps ids unique. */
  lemma {:induction false} FilterKeepsUnique<T(!new)>(s: seq<T>, idOf: T -> string, p: T -> bool)
    requires UniqueIds(s, idOf)
    ensures UniqueIds(Filter(s, p), idOf)
  {
    if s != [] {
      FilterKeepsUnique(s[1..], idOf, p);
      FilterMembership(s[1..], p);
      var rest := Filter(s[1..], p);
      if p(s[0]) {
        var r := [s[0]] + rest;
        forall i, j | 0 <= i < j < |r| ensures idOf(r[i]) != idOf(r[j]) {
          if i == 0 {
            assert r[j] in s[1..];
            var k :| 0 <= k < |s| - 1 && s[1..][k] == r[j];
            assert s[k + 1] == r[j];
          } else {
            assert r[i] == rest[i - 1] && r[j] == rest[j - 1];
          }
        }
      }
    }
  }

  /** No element occurs twice. */
  predicate NoDuplicates<T(==)>(s: seq<T>) {
    forall i, j :: 0 <= i < j < |s| ==> s[i] != s[j]
  }

  /** The ids of a list with unique ids have no duplicates. */
  lemma IdsOfUniqueHaveNoDuplicates<T>(s: seq<T>, idOf: T -> string)
    requires UniqueIds(s, idOf)
    ensures NoDuplicates(Map(s, idOf))
  {
  }

  /** `list.filter(x => x.id !== id)`. */
  function RemoveById<T(!new)>(s: seq<T>, idOf: T -> string, id: string): (r: seq<T>)
    ensures forall x :: x in r <==> x in s && idOf(x) != id
  {
    FilterMembership(s, x => idOf(x) != id);
    Filter(s, x => idOf(x) != id)
  }

  /**
   * On a list with unique ids, deleting the id of element `i` removes exactly
   * that element and keeps the others in order.
   */
  lemma RemoveByIdExactlyOne<T(!new)>(s: seq<T>, idOf: T -> string, i: nat)
    requires i < |s|
    requires UniqueIds(s, idOf)
    ensures RemoveById(s, idOf, idOf(s[i])) == s[..i] + s[i + 1..]
  {
    assert s == s[..i] + [s[i]] + s[i + 1..];
    FilterDropsOne(s[..i], s[i], s[i + 1..], x => idOf(x) != idOf(s[i]));
  }

  /** Deleting an id no element has leaves the list as it was. */
  lemma RemoveByIdAbsent<T(!new)>(s: seq<T>, idOf: T -> string, id: string)
    requires forall k :: 0 <= k < |s| ==> idOf(s[k]) != id
    ensures RemoveById(s, idOf, id) == s
  {
    FilterKeepsAll(s, x => idOf(x) != id);
  }

  /** `list.map(o => o.id === x.id ? x : o)`. */
  function ReplaceById<T>(s: seq<T>, idOf: T -> string, x: T): (r: seq<T>)
    ensures |r| == |s|
    ensures forall k :: 0 <= k < |s| ==> idOf(r[k]) == idOf(s[k])
    ensures forall k :: 0 <= k < |s| ==> r[k] == if idOf(s[k]) == idOf(x) then x else s[k]
  {
    Map(s, o => if idOf(o) == idOf(x) then x else o)
  }

  /** On a list with unique ids, replacing touches only the one matching position. */
  lemma ReplaceByIdExactlyOne<T>(s: seq<T>, idOf: T -> string, x: T, i: nat)
    requires i < |s| && idOf(s[i]) == idOf(x)
    requires UniqueIds(s, idOf)
    ensures ReplaceById(s, idOf, x) == s[..i] + [x] + s[i + 1..]
  {
  }

  /** Replacing with an id no element has leaves the list as it was. */
  lemma ReplaceByIdAbsent<T>(s: seq<T>, idOf: T -> string, x: T)
    requires forall k :: 0 <= k < |s| ==> idOf(s[k]) != idOf(x)
    ensures ReplaceById(s, idOf, x) == s
  {
  }

  /** Replacing twice with the same element is replacing once. */
  lemma ReplaceByIdIdempotent<T>(s: seq<T>, idOf: T -> string, x: T)
    ensures ReplaceById(ReplaceById(s, idOf, x), idOf, x) == ReplaceById(s, idOf, x)
  {
  }

  /** Replacing keeps the list's ids unique. */
  lemma ReplaceByIdKeepsUnique<T>(s: seq<T>, idOf: T -> string, x: T)
    requires UniqueIds(s, idOf)
    ensures UniqueIds(ReplaceById(s, idOf, x), idOf)
  {
  }
}
