/** Value types and sequence helpers shared by every component of the model. */
module Common {

  /** A nullable value: `T | null | undefined` in the source. */
  datatype Option<+T> = None | Some(value: T) {
    /** `x ?? default` */
    function GetOr(default: T): T {
      match this
      case Some(v) => v
      case None => default
    }
  }

  /** An awaited call: its value, or the error it was rejected or thrown with. */
  datatype Outcome<+T> = Ok(value: T) | Threw(error: string)

  /** A database reply `{ data, error }`: `data` may be null, `error` is set when the query failed. */
  datatype Reply<+T> = Reply(data: Option<seq<T>>, error: Option<string>) {
    /** `data || []` */
    function Rows(): seq<T> {
      data.GetOr([])
    }
  }

  /** JavaScript truthiness of a nullable number: `null`, `undefined` and `0` are falsy. */
  predicate Truthy(n: Option<int>) {
    n.Some? && n.value != 0
  }

  /** `n || 0` for a nullable number. */
  function OrZero(n: Option<int>): int {
    match n
    case Some(v) => v
    case None => 0
  }

  /** The sum of `v` over the elements of `s`, accumulated left to right as a `reduce` does. */
  function SumOf<T>(s: seq<T>, v: T -> int): int {
    if s == [] then 0 else SumOf(s[..|s| - 1], v) + v(s[|s| - 1])
  }

  lemma {:induction false} SumOfAppend<T>(a: seq<T>, b: seq<T>, v: T -> int)
    ensures SumOf(a + b, v) == SumOf(a, v) + SumOf(b, v)
    decreases |b|
  {
    if b == [] {
      assert a + b == a;
    } else {
      assert (a + b)[..|a + b| - 1] == a + b[..|b| - 1];
      SumOfAppend(a, b[..|b| - 1], v);
    }
  }

  lemma SumOfSnoc<T>(s: seq<T>, x: T, v: T -> int)
    ensures SumOf(s + [x], v) == SumOf(s, v) + v(x)
  {
    assert (s + [x])[..|s|] == s;
  }

  /** `s.filter(p)` */
  function Filter<T>(s: seq<T>, p: T -> bool): seq<T> {
    if s == [] then []
    else if p(s[|s| - 1]) then Filter(s[..|s| - 1], p) + [s[|s| - 1]]
    else Filter(s[..|s| - 1], p)
  }

  /** The kept elements are exactly the elements that satisfy `p`, no more of them than there were. */
  lemma {:induction false} FilterMembers<T>(s: seq<T>, p: T -> bool)
    ensures forall x :: x in Filter(s, p) <==> x in s && p(x)
    ensures |Filter(s, p)| <= |s|
    decreases |s|
  {
    if s != [] {
      FilterMembers(s[..|s| - 1], p);
      assert s == s[..|s| - 1] + [s[|s| - 1]];
    }
  }

  /** Two predicates that agree everywhere filter alike. */
  lemma {:induction false} FilterCongruent<T>(s: seq<T>, p: T -> bool, q: T -> bool)
    requires forall x :: p(x) == q(x)
    ensures Filter(s, p) == Filter(s, q)
    decreases |s|
  {
    if s != [] {
      FilterCongruent(s[..|s| - 1], p, q);
    }
  }

  /** Filtering with a predicate that holds everywhere keeps the list as it is. */
  lemma {:induction false} FilterAll<T>(s: seq<T>, p: T -> bool)
    requires forall i :: 0 <= i < |s| ==> p(s[i])
    ensures Filter(s, p) == s
    decreases |s|
  {
    if s != [] {
      FilterAll(s[..|s| - 1], p);
      assert s == s[..|s| - 1] + [s[|s| - 1]];
    }
  }

  /** Taking one element out of the middle of a list takes its value out of the sum. */
  lemma {:induction false} SumOfRemoveAt<T>(b: seq<T>, i: nat, v: T -> int)
    requires i < |b|
    ensures SumOf(b, v) == SumOf(b[..i] + b[i + 1..], v) + v(b[i])
  {
    assert b == b[..i] + ([b[i]] + b[i + 1..]);
    SumOfAppend(b[..i], [b[i]] + b[i + 1..], v);
    SumOfAppend([b[i]], b[i + 1..], v);
    SumOfAppend(b[..i], b[i + 1..], v);
    assert [b[i]][..0] == [];
  }

  /** Summing does not depend on the order of the elements. */
  lemma {:induction false} SumOfPermutation<T>(a: seq<T>, b: seq<T>, v: T -> int)
    requires multiset(a) == multiset(b)
    ensures SumOf(a, v) == SumOf(b, v)
    decreases |a|
  {
    if a == [] {
      assert |b| == |multiset(b)| == 0;
    } else {
      var x := a[|a| - 1];
      var a' := a[..|a| - 1];
      assert a == a' + [x];
      assert x in multiset(b);
      var i :| 0 <= i < |b| && b[i] == x;
      var b' := b[..i] + b[i + 1..];
      MultisetRemoveAt(b, i);
      MultisetRemoveAt(a, |a| - 1);
      assert a[..|a| - 1] + a[|a|..] == a';
      SumOfPermutation(a', b', v);
      SumOfRemoveAt(b, i, v);
    }
  }

  /** Taking out the element at `i` takes one copy of it out of the multiset. */
  lemma MultisetRemoveAt<T>(s: seq<T>, i: nat)
    requires i < |s|
    ensures multiset(s[..i] + s[i + 1..]) == multiset(s) - multiset{s[i]}
  {
    assert s == s[..i] + [s[i]] + s[i + 1..];
  }

  /** `s.filter(y => y !== x)` */
  function RemoveAll<T(==)>(s: seq<T>, x: T): seq<T> {
    if s == [] then []
    else if s[|s| - 1] == x then RemoveAll(s[..|s| - 1], x)
    else RemoveAll(s[..|s| - 1], x) + [s[|s| - 1]]
  }

  lemma {:induction false} RemoveAllAppend<T>(a: seq<T>, b: seq<T>, x: T)
    ensures RemoveAll(a + b, x) == RemoveAll(a, x) + RemoveAll(b, x)
    decreases |b|
  {
    if b == [] {
      assert a + b == a;
    } else {
      assert (a + b)[..|a + b| - 1] == a + b[..|b| - 1];
      RemoveAllAppend(a, b[..|b| - 1], x);
    }
  }

  /** An element survives `RemoveAll` exactly when it was there and is not the removed one. */
  lemma {:induction false} RemoveAllMembers<T>(s: seq<T>, x: T)
    ensures forall y :: y in RemoveAll(s, x) <==> y in s && y != x
    ensures |RemoveAll(s, x)| <= |s|
    ensures x !in s ==> RemoveAll(s, x) == s
    decreases |s|
  {
    if s != [] {
      RemoveAllMembers(s[..|s| - 1], x);
      assert s == s[..|s| - 1] + [s[|s| - 1]];
    }
  }

  /** No element occurs twice. */
  predicate NoDup<T(==)>(s: seq<T>) {
    forall i, j :: 0 <= i < j < |s| ==> s[i] != s[j]
  }

  lemma {:induction false} RemoveAllNoDup<T>(s: seq<T>, x: T)
    requires NoDup(s)
    ensures NoDup(RemoveAll(s, x))
    decreases |s|
  {
    if s != [] {
      var p := s[..|s| - 1];
      assert NoDup(p);
      RemoveAllNoDup(p, x);
      RemoveAllMembers(p, x);
      assert s[|s| - 1] !in p;
    }
  }

  /** Without duplicates, every element occurs at most once in the multiset. */
  lemma {:induction false} NoDupCount<T>(s: seq<T>, x: T)
    requires NoDup(s)
    ensures multiset(s)[x] <= 1
    decreases |s|
  {
    if s != [] {
      var p := s[..|s| - 1];
      assert s == p + [s[|s| - 1]];
      assert NoDup(p);
      NoDupCount(p, x);
      if s[|s| - 1] == x {
        assert x !in p;
      }
    }
  }

  /** Reordering a list without duplicates leaves none. */
  lemma NoDupPermutation<T>(a: seq<T>, b: seq<T>)
    requires multiset(a) == multiset(b)
    requires NoDup(b)
    ensures NoDup(a)
  {
    forall i, j | 0 <= i < j < |a| ensures a[i] != a[j] {
      if a[i] == a[j] {
        var x := a[i];
        assert a == a[..j] + [x] + a[j + 1..];
        assert x in a[..j];
        assert multiset(a)[x] >= 2 by {
          assert multiset(a) == multiset(a[..j]) + multiset{x} + multiset(a[j + 1..]);
        }
        NoDupCount(b, x);
        assert false;
      }
    }
  }

  /** Two lists without duplicates and without a common element concatenate to one without duplicates. */
  lemma NoDupAppend<T>(a: seq<T>, b: seq<T>)
    requires NoDup(a) && NoDup(b)
    requires forall x :: x in a ==> x !in b
    ensures NoDup(a + b)
  {
    forall i, j | 0 <= i < j < |a + b| ensures (a + b)[i] != (a + b)[j] {
      if i < |a| && j >= |a| {
        assert (a + b)[i] in a;
        assert (a + b)[j] == b[j - |a|];
      }
    }
  }

  /** No two elements share a key. */
  predicate DistinctBy<T, K(==)>(s: seq<T>, key: T -> K) {
    forall i, j :: 0 <= i < j < |s| ==> key(s[i]) != key(s[j])
  }

  /** Distinct keys survive reordering. */
  lemma DistinctByPermutation<T, K>(a: seq<T>, b: seq<T>, key: T -> K)
    requires multiset(a) == multiset(b)
    requires DistinctBy(b, key)
    ensures DistinctBy(a, key)
  {
    NoDupPermutation(a, b);
    forall i, j | 0 <= i < j < |a| ensures key(a[i]) != key(a[j]) {
      assert a[i] in multiset(b) && a[j] in multiset(b);
      var p :| 0 <= p < |b| && b[p] == a[i];
      var q :| 0 <= q < |b| && b[q] == a[j];
      assert p != q;
    }
  }

  /** Two lists with distinct keys and no key in common concatenate to a list with distinct keys. */
  lemma DistinctByAppend<T, K>(a: seq<T>, b: seq<T>, key: T -> K)
    requires DistinctBy(a, key) && DistinctBy(b, key)
    requires forall i, j :: 0 <= i < |a| && 0 <= j < |b| ==> key(a[i]) != key(b[j])
    ensures DistinctBy(a + b, key)
  {
    forall i, j | 0 <= i < j < |a + b| ensures key((a + b)[i]) != key((a + b)[j]) {
      if j < |a| {
        assert (a + b)[i] == a[i] && (a + b)[j] == a[j];
      } else if i >= |a| {
        assert (a + b)[i] == b[i - |a|] && (a + b)[j] == b[j - |a|];
      } else {
        assert (a + b)[i] == a[i] && (a + b)[j] == b[j - |a|];
      }
    }
  }

  function Identity<T>(x: T): T { x }

  /** The keys the elements of `s` carry. */
  function KeySet<T(==), K>(s: seq<T>, key: T -> K): set<K> {
    set x | x in s :: key(x)
  }

  /** A list with distinct keys has as many keys as elements. */
  lemma {:induction false} DistinctByKeyCount<T, K>(s: seq<T>, key: T -> K)
    requires DistinctBy(s, key)
    ensures |KeySet(s, key)| == |s|
    decreases |s|
  {
    if s != [] {
      var p := s[..|s| - 1];
      var last := s[|s| - 1];
      assert DistinctBy(p, key) by {
        forall i, j | 0 <= i < j < |p| ensures key(p[i]) != key(p[j]) {
          assert p[i] == s[i] && p[j] == s[j];
        }
      }
      DistinctByKeyCount(p, key);
      assert s == p + [last];
      var kp := KeySet(p, key);
      assert KeySet(s, key) == kp + {key(last)};
      forall k | k in kp ensures k != key(last) {
        var x :| x in p && key(x) == k;
        var i :| 0 <= i < |p| && p[i] == x;
        assert s[i] == x;
      }
    }
  }

  /** The first `n` elements, or all of them when there are fewer: `s.slice(0, n)`. */
  function Take<T>(s: seq<T>, n: nat): (r: seq<T>)
    ensures |r| == if |s| <= n then |s| else n
    ensures forall i :: 0 <= i < |r| ==> r[i] == s[i]
  {
    if |s| <= n then s else s[..n]
  }

  /** `Math.max(...s)` for a non-empty list. */
  function Max(s: seq<int>): (m: int)
    requires |s| > 0
    ensures m in s && forall i :: 0 <= i < |s| ==> s[i] <= m
  {
    if |s| == 1 then s[0]
    else
      var m' := Max(s[1..]);
      if s[0] > m' then s[0] else m'
  }

  /** `Math.min(...s)` for a non-empty list. */
  function Min(s: seq<int>): (m: int)
    requires |s| > 0
    ensures m in s && forall i :: 0 <= i < |s| ==> m <= s[i]
  {
    if |s| == 1 then s[0]
    else
      var m' := Min(s[1..]);
      if s[0] < m' then s[0] else m'
  }
}
