/**
 * Group-by over a list of rows, as the components do with a `Map` or an object
 * filled inside `forEach`: the distinct keys in order of first appearance, the
 * rows of one key, per-key sums, and the sets of distinct truthy ids.
 */
module Grouping {
  import opened Common
  import opened Sorting

  /** The distinct keys of `s` in order of first appearance: the iteration order of a `Map` filled row by row. */
  function Keys<T, K(==)>(s: seq<T>, key: T -> K): seq<K> {
    if s == [] then []
    else
      var p := Keys(s[..|s| - 1], key);
      if key(s[|s| - 1]) in p then p else p + [key(s[|s| - 1])]
  }

  /** The rows of `s` whose key is `k`, in their original order. */
  function Where<T, K(==)>(s: seq<T>, key: T -> K, k: K): seq<T> {
    if s == [] then []
    else if key(s[|s| - 1]) == k then Where(s[..|s| - 1], key, k) + [s[|s| - 1]]
    else Where(s[..|s| - 1], key, k)
  }

  /** The sum over the keys `ks` of the sum of `v` over each key's rows. */
  function GroupTotal<T, K(==)>(s: seq<T>, key: T -> K, ks: seq<K>, v: T -> int): int {
    if ks == [] then 0
    else GroupTotal(s, key, ks[..|ks| - 1], v) + SumOf(Where(s, key, ks[|ks| - 1]), v)
  }

  /** `new Set(ids)` restricted to truthy ids: the ids that `if (id) set.add(id)` collects. */
  function TruthyIds<T>(s: seq<T>, id: T -> Option<int>): set<int> {
    if s == [] then {}
    else TruthyIds(s[..|s| - 1], id) + (if Truthy(id(s[|s| - 1])) then {id(s[|s| - 1]).value} else {})
  }

  /** Each key is listed once. */
  lemma {:induction false} KeysDistinct<T, K>(s: seq<T>, key: T -> K)
    ensures NoDup(Keys(s, key))
    decreases |s|
  {
    if s != [] {
      KeysDistinct(s[..|s| - 1], key);
    }
  }

  /** The keys listed are exactly the keys of the rows. */
  lemma {:induction false} KeysComplete<T, K>(s: seq<T>, key: T -> K)
    ensures forall k :: k in Keys(s, key) <==> exists i :: 0 <= i < |s| && key(s[i]) == k
    decreases |s|
  {
    if s != [] {
      var p := s[..|s| - 1];
      KeysComplete(p, key);
      forall k ensures k in Keys(s, key) <==> exists i :: 0 <= i < |s| && key(s[i]) == k {
        if k in Keys(s, key) && k != key(s[|s| - 1]) {
          assert k in Keys(p, key);
          var i :| 0 <= i < |p| && key(p[i]) == k;
          assert s[i] == p[i];
        }
        if exists i :: 0 <= i < |s| && key(s[i]) == k {
          var i :| 0 <= i < |s| && key(s[i]) == k;
          if i < |p| {
            assert p[i] == s[i];
          }
        }
      }
    }
  }

  /** Every row's key is listed. */
  lemma {:induction false} KeysContain<T, K>(s: seq<T>, key: T -> K, i: nat)
    requires i < |s|
    ensures key(s[i]) in Keys(s, key)
    decreases |s|
  {
    if i < |s| - 1 {
      KeysContain(s[..|s| - 1], key, i);
    }
  }

  /** Appending a row adds its key at the end if the key is new. */
  lemma KeysSnoc<T, K>(s: seq<T>, x: T, key: T -> K)
    ensures Keys(s + [x], key) == if key(x) in Keys(s, key) then Keys(s, key) else Keys(s, key) + [key(x)]
  {
    assert (s + [x])[..|s|] == s;
  }

  lemma WhereSnoc<T, K>(s: seq<T>, x: T, key: T -> K, k: K)
    ensures Where(s + [x], key, k) == if key(x) == k then Where(s, key, k) + [x] else Where(s, key, k)
  {
    assert (s + [x])[..|s|] == s;
  }

  lemma TruthyIdsSnoc<T>(s: seq<T>, x: T, id: T -> Option<int>)
    ensures TruthyIds(s + [x], id) == TruthyIds(s, id) + (if Truthy(id(x)) then {id(x).value} else {})
  {
    assert (s + [x])[..|s|] == s;
  }

  /** One key's rows are exactly the rows with that key. */
  lemma {:induction false} WhereMembers<T, K>(s: seq<T>, key: T -> K, k: K)
    ensures forall x :: x in Where(s, key, k) <==> x in s && key(x) == k
    ensures |Where(s, key, k)| <= |s|
    decreases |s|
  {
    if s != [] {
      WhereMembers(s[..|s| - 1], key, k);
      assert s == s[..|s| - 1] + [s[|s| - 1]];
    }
  }

  lemma WhereSubsequence<T, K>(s: seq<T>, key: T -> K, k: K, i: nat)
    requires i < |Where(s, key, k)|
    ensures Where(s, key, k)[i] in s
  {
    WhereMembers(s, key, k);
    assert Where(s, key, k)[i] in Where(s, key, k);
  }

  /** Picking one key's rows keeps distinct values of `f` distinct. */
  lemma {:induction false} WhereDistinctBy<T, K, J>(s: seq<T>, key: T -> K, k: K, f: T -> J)
    requires DistinctBy(s, f)
    ensures DistinctBy(Where(s, key, k), f)
    decreases |s|
  {
    if s != [] {
      var p := s[..|s| - 1];
      var last := s[|s| - 1];
      assert DistinctBy(p, f) by {
        forall i, j | 0 <= i < j < |p| ensures f(p[i]) != f(p[j]) {
          assert p[i] == s[i] && p[j] == s[j];
        }
      }
      WhereDistinctBy(p, key, k, f);
      if key(last) == k {
        var w := Where(p, key, k);
        WhereMembers(p, key, k);
        forall i | 0 <= i < |w| ensures f(w[i]) != f(last) {
          WhereSubsequence(p, key, k, i);
          var m :| 0 <= m < |p| && p[m] == w[i];
          assert s[m] == w[i];
        }
        DistinctByAppend(w, [last], f);
      }
    }
  }

  /** A key no row carries has no rows. */
  lemma WhereOfAbsentKey<T, K>(s: seq<T>, key: T -> K, k: K)
    requires k !in Keys(s, key)
    ensures Where(s, key, k) == []
  {
    WhereMembers(s, key, k);
    KeysComplete(s, key);
  }

  /** A key with rows is one of the listed keys. */
  lemma WhereNonEmptyKey<T, K>(s: seq<T>, key: T -> K, k: K)
    requires Where(s, key, k) != []
    ensures k in Keys(s, key)
  {
    KeysComplete(s, key);
    WhereSubsequence(s, key, k, 0);
    var x := Where(s, key, k)[0];
    WhereMembers(s, key, k);
    assert x in Where(s, key, k);
    var i :| 0 <= i < |s| && s[i] == x;
    assert key(s[i]) == k;
  }

  lemma KeySetListed<T, K>(s: seq<T>, key: T -> K, k: K)
    requires k in KeySet(s, key)
    ensures k in Keys(s, key)
  {
    KeysComplete(s, key);
    var x :| x in s && key(x) == k;
    var i :| 0 <= i < |s| && s[i] == x;
    assert key(s[i]) == k;
  }

  lemma ListedKeySet<T, K>(s: seq<T>, key: T -> K, k: K)
    requires k in Keys(s, key)
    ensures k in KeySet(s, key)
  {
    KeysComplete(s, key);
    var i :| 0 <= i < |s| && key(s[i]) == k;
    assert s[i] in s;
  }

  /** The distinct keys are the keys of the rows, as a set. */
  lemma KeysAsSet<T, K>(s: seq<T>, key: T -> K)
    ensures KeySet(Keys(s, key), Identity) == KeySet(s, key)
  {
    var ks := Keys(s, key);
    forall k | k in KeySet(s, key) ensures k in KeySet(ks, Identity) {
      KeySetListed(s, key, k);
      assert Identity(k) == k;
    }
    forall k | k in KeySet(ks, Identity) ensures k in KeySet(s, key) {
      var y :| y in ks && Identity(y) == k;
      ListedKeySet(s, key, k);
    }
  }

  /** The number of distinct keys: `new Set(s.map(key)).size`. */
  lemma KeysCount<T, K>(s: seq<T>, key: T -> K)
    ensures |Keys(s, key)| == |KeySet(s, key)|
  {
    var ks := Keys(s, key);
    KeysDistinct(s, key);
    assert DistinctBy(ks, Identity);
    DistinctByKeyCount(ks, Identity);
    KeysAsSet(s, key);
  }

  /** The distinct truthy ids are exactly the non-zero ids some row carries. */
  lemma {:induction false} TruthyIdsMembers<T>(s: seq<T>, id: T -> Option<int>)
    ensures forall k :: k in TruthyIds(s, id) <==> k != 0 && exists i :: 0 <= i < |s| && id(s[i]) == Some(k)
    decreases |s|
  {
    if s != [] {
      var p := s[..|s| - 1];
      TruthyIdsMembers(p, id);
      forall k ensures k in TruthyIds(s, id) <==> k != 0 && exists i :: 0 <= i < |s| && id(s[i]) == Some(k) {
        if k in TruthyIds(p, id) {
          var i :| 0 <= i < |p| && id(p[i]) == Some(k);
          assert s[i] == p[i];
        }
        if exists i :: 0 <= i < |s| && id(s[i]) == Some(k) {
          var i :| 0 <= i < |s| && id(s[i]) == Some(k);
          if i < |p| {
            assert p[i] == s[i];
          }
        }
      }
    }
  }

  /** There is at most one distinct id per row. */
  lemma {:induction false} TruthyIdsBound<T>(s: seq<T>, id: T -> Option<int>)
    ensures |TruthyIds(s, id)| <= |s|
    decreases |s|
  {
    if s != [] {
      TruthyIdsBound(s[..|s| - 1], id);
    }
  }

  /** Adding one row to the data adds its value to the total of the keys that include its key. */
  lemma {:induction false} GroupTotalSnoc<T, K>(s: seq<T>, x: T, key: T -> K, ks: seq<K>, v: T -> int)
    requires NoDup(ks)
    ensures GroupTotal(s + [x], key, ks, v) == GroupTotal(s, key, ks, v) + (if key(x) in ks then v(x) else 0)
    decreases |ks|
  {
    if ks != [] {
      var ks' := ks[..|ks| - 1];
      var k := ks[|ks| - 1];
      assert NoDup(ks');
      GroupTotalSnoc(s, x, key, ks', v);
      WhereSnoc(s, x, key, k);
      var extra := if key(x) == k then v(x) else 0;
      assert SumOf(Where(s + [x], key, k), v) == SumOf(Where(s, key, k), v) + extra by {
        if key(x) == k {
          SumOfAppend(Where(s, key, k), [x], v);
          assert [x][..0] == [];
        }
      }
      assert key(x) in ks <==> key(x) in ks' || key(x) == k by {
        assert ks == ks' + [k];
      }
      assert key(x) == k ==> key(x) !in ks';
    }
  }

  /**
   * Every row lands in exactly one group: when `ks` lists every key once, the
   * per-group sums add up to the sum over all rows.
   */
  lemma {:induction false} GroupTotalPartition<T, K>(s: seq<T>, key: T -> K, ks: seq<K>, v: T -> int)
    requires NoDup(ks)
    requires forall i :: 0 <= i < |s| ==> key(s[i]) in ks
    ensures GroupTotal(s, key, ks, v) == SumOf(s, v)
    decreases |s|
  {
    if s == [] {
      GroupTotalEmpty(key, ks, v);
    } else {
      var p := s[..|s| - 1];
      var x := s[|s| - 1];
      assert forall i :: 0 <= i < |p| ==> p[i] == s[i];
      GroupTotalPartition(p, key, ks, v);
      assert s == p + [x];
      GroupTotalSnoc(p, x, key, ks, v);
    }
  }

  lemma {:induction false} GroupTotalEmpty<T, K>(key: T -> K, ks: seq<K>, v: T -> int)
    ensures GroupTotal([], key, ks, v) == 0
    decreases |ks|
  {
    if ks != [] {
      GroupTotalEmpty(key, ks[..|ks| - 1], v);
    }
  }

  /** The per-key sums over the distinct keys add up to the sum over all rows. */
  lemma KeysPartitionSum<T, K>(s: seq<T>, key: T -> K, v: T -> int)
    ensures GroupTotal(s, key, Keys(s, key), v) == SumOf(s, v)
  {
    KeysDistinct(s, key);
    KeysComplete(s, key);
    forall i | 0 <= i < |s| ensures key(s[i]) in Keys(s, key) {
      KeysContain(s, key, i);
    }
    GroupTotalPartition(s, key, Keys(s, key), v);
  }

  /** A list of entries, one per key, whose `f` is that key's `g`, adds up like the keys do. */
  lemma {:induction false} SumOfPointwise<E, K>(es: seq<E>, f: E -> int, ks: seq<K>, g: K -> int)
    requires |es| == |ks|
    requires forall i :: 0 <= i < |es| ==> f(es[i]) == g(ks[i])
    ensures SumOf(es, f) == SumOf(ks, g)
    decreases |es|
  {
    if es != [] {
      SumOfPointwise(es[..|es| - 1], f, ks[..|ks| - 1], g);
    }
  }

  /** The sum of a group: what `GroupTotal` adds up for one key. */
  function GroupSum<T, K(==)>(s: seq<T>, key: T -> K, v: T -> int, k: K): int {
    SumOf(Where(s, key, k), v)
  }

  lemma {:induction false} GroupTotalAsSum<T, K>(s: seq<T>, key: T -> K, ks: seq<K>, v: T -> int)
    ensures GroupTotal(s, key, ks, v) == SumOf(ks, k => GroupSum(s, key, v, k))
    decreases |ks|
  {
    if ks != [] {
      GroupTotalAsSum(s, key, ks[..|ks| - 1], v);
    }
  }

  /**
   * The entry a `Map` holds for key `k` after the rows `s`, when a row with a
   * new key first sets its entry to `init(row)` and every row then updates its
   * key's entry with `add`; `None` while no row has key `k`.
   */
  function GroupAcc<T, K(==), A>(s: seq<T>, key: T -> K, k: K, init: T -> A, add: (A, T) -> A): Option<A> {
    if s == [] then None
    else
      var p := GroupAcc(s[..|s| - 1], key, k, init, add);
      var x := s[|s| - 1];
      if key(x) != k then p else Some(add(if p.Some? then p.value else init(x), x))
  }

  lemma GroupAccSnoc<T, K, A>(s: seq<T>, x: T, key: T -> K, k: K, init: T -> A, add: (A, T) -> A)
    ensures GroupAcc(s + [x], key, k, init, add) ==
      var p := GroupAcc(s, key, k, init, add);
      if key(x) != k then p else Some(add(if p.Some? then p.value else init(x), x))
  {
    assert (s + [x])[..|s|] == s;
  }

  /** A key has an entry exactly when some row carries it. */
  lemma {:induction false} GroupAccPresent<T, K, A>(s: seq<T>, key: T -> K, k: K, init: T -> A, add: (A, T) -> A)
    ensures GroupAcc(s, key, k, init, add).Some? <==> k in Keys(s, key)
    decreases |s|
  {
    if s != [] {
      GroupAccPresent(s[..|s| - 1], key, k, init, add);
    }
  }

  /**
   * The `forEach` that fills a `Map` row by row: `keys` is the map's key order
   * and `entries` its contents.
   */
  method FoldByKey<T, K(==), A>(rows: seq<T>, key: T -> K, init: T -> A, add: (A, T) -> A)
    returns (keys: seq<K>, entries: map<K, A>)
    ensures keys == Keys(rows, key)
    ensures forall k :: k in entries <==> k in keys
    ensures forall k :: k in entries ==> GroupAcc(rows, key, k, init, add) == Some(entries[k])
  {
    keys := [];
    entries := map[];
    var i := 0;
    while i < |rows|
      invariant 0 <= i <= |rows|
      invariant keys == Keys(rows[..i], key)
      invariant forall k :: k in entries <==> k in keys
      invariant forall k :: k in entries ==> GroupAcc(rows[..i], key, k, init, add) == Some(entries[k])
      invariant forall k :: k !in entries ==> GroupAcc(rows[..i], key, k, init, add) == None
    {
      var row := rows[i];
      var k := key(row);
      assert rows[..i + 1] == rows[..i] + [row];
      KeysSnoc(rows[..i], row, key);
      ghost var before := entries;
      if k !in entries {
        entries := entries[k := init(row)];
        keys := keys + [k];
      }
      entries := entries[k := add(entries[k], row)];
      forall k' | k' in entries ensures GroupAcc(rows[..i + 1], key, k', init, add) == Some(entries[k']) {
        GroupAccSnoc(rows[..i], row, key, k', init, add);
        if k' == k {
          if k in before {
            assert GroupAcc(rows[..i], key, k, init, add) == Some(before[k]);
            assert entries[k] == add(before[k], row);
          } else {
            assert GroupAcc(rows[..i], key, k, init, add) == None;
            assert entries[k] == add(init(row), row);
          }
        } else {
          assert k' in before && entries[k'] == before[k'];
        }
      }
      forall k' | k' !in entries ensures GroupAcc(rows[..i + 1], key, k', init, add) == None {
        GroupAccSnoc(rows[..i], row, key, k', init, add);
      }
      i := i + 1;
    }
    assert rows[..i] == rows;
  }

  /** A key that is listed has at least one row. */
  lemma WhereOfPresentKey<T, K>(s: seq<T>, key: T -> K, k: K)
    requires k in Keys(s, key)
    ensures Where(s, key, k) != []
  {
    KeysComplete(s, key);
    var i :| 0 <= i < |s| && key(s[i]) == k;
    WhereMembers(s, key, k);
    assert s[i] in Where(s, key, k);
  }

  /**
   * When `f` of a key's rows is what the entry would be after those rows
   * (`init` then `add` for one row, one more `add` per further row), the
   * map's entry for every listed key is `f` of that key's rows.
   */
  lemma {:induction false} GroupAccOfWhere<T, K, A>(s: seq<T>, key: T -> K, k: K, init: T -> A, add: (A, T) -> A,
                                                   f: seq<T> -> A)
    requires forall x :: f([x]) == add(init(x), x)
    requires forall g, x :: g != [] ==> f(g + [x]) == add(f(g), x)
    requires k in Keys(s, key)
    ensures GroupAcc(s, key, k, init, add) == Some(f(Where(s, key, k)))
    decreases |s|
  {
    var p := s[..|s| - 1];
    var x := s[|s| - 1];
    assert s == p + [x];
    WhereSnoc(p, x, key, k);
    GroupAccSnoc(p, x, key, k, init, add);
    KeysSnoc(p, x, key);
    GroupAccPresent(p, key, k, init, add);
    if k in Keys(p, key) {
      GroupAccOfWhere(p, key, k, init, add, f);
      if key(x) == k {
        WhereOfPresentKey(p, key, k);
      }
    } else {
      WhereOfAbsentKey(p, key, k);
      assert [] + [x] == [x];
    }
  }

  /** The distinct keys sorted by a consistent order: each key once, in order, and exactly the rows' keys. */
  lemma SortedKeysFacts<T, K(!new)>(s: seq<T>, key: T -> K, le: (K, K) -> bool)
    requires TotalPreorder(le)
    ensures var w := SortBy(Keys(s, key), le);
      NoDup(w) && Sorted(w, le)
      && forall k :: k in w <==> exists i :: 0 <= i < |s| && key(s[i]) == k
  {
    var ks := Keys(s, key);
    KeysDistinct(s, key);
    KeysComplete(s, key);
    SortByPermutation(ks, le);
    NoDupPermutation(SortBy(ks, le), ks);
    SortByMembers(ks, le);
    SortBySorted(ks, le);
  }
}
