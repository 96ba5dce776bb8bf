/**
 * `Array.prototype.sort` with a comparator. The sort is stable, so with a
 * comparator `c` its result is the stable sort for `le(a, b) == (c(a, b) <= 0)`:
 * `SortBy` defines that result, and `InsertionSort` computes it in place.
 */
module Sorting {

  /** `le` is a total preorder, as a consistent comparator induces. */
  ghost predicate TotalPreorder<T(!new)>(le: (T, T) -> bool) {
    (forall a, b :: le(a, b) || le(b, a))
    && (forall a, b, c :: le(a, b) && le(b, c) ==> le(a, c))
  }

  predicate Sorted<T>(s: seq<T>, le: (T, T) -> bool) {
    forall i, j :: 0 <= i < j < |s| ==> le(s[i], s[j])
  }

  /** Puts `x` right after the last element that may precede it: the stable position. */
  function Insert<T>(t: seq<T>, x: T, le: (T, T) -> bool): seq<T> {
    if t == [] then [x]
    else if le(t[|t| - 1], x) then t + [x]
    else Insert(t[..|t| - 1], x, le) + [t[|t| - 1]]
  }

  /** The stable sort of `s` by `le`. */
  function SortBy<T>(s: seq<T>, le: (T, T) -> bool): seq<T> {
    if s == [] then [] else Insert(SortBy(s[..|s| - 1], le), s[|s| - 1], le)
  }

  lemma {:induction false} InsertPermutation<T>(t: seq<T>, x: T, le: (T, T) -> bool)
    ensures multiset(Insert(t, x, le)) == multiset(t) + multiset{x}
    ensures |Insert(t, x, le)| == |t| + 1
    decreases |t|
  {
    if t != [] && !le(t[|t| - 1], x) {
      InsertPermutation(t[..|t| - 1], x, le);
      assert t == t[..|t| - 1] + [t[|t| - 1]];
    }
  }

  /** Sorting only reorders: the result holds the same elements, as often. */
  lemma {:induction false} SortByPermutation<T>(s: seq<T>, le: (T, T) -> bool)
    ensures multiset(SortBy(s, le)) == multiset(s)
    ensures |SortBy(s, le)| == |s|
    decreases |s|
  {
    if s != [] {
      SortByPermutation(s[..|s| - 1], le);
      InsertPermutation(SortBy(s[..|s| - 1], le), s[|s| - 1], le);
      assert s == s[..|s| - 1] + [s[|s| - 1]];
    }
  }

  lemma {:induction false} InsertSorted<T(!new)>(t: seq<T>, x: T, le: (T, T) -> bool)
    requires TotalPreorder(le)
    requires Sorted(t, le)
    ensures Sorted(Insert(t, x, le), le)
    decreases |t|
  {
    if t != [] {
      var last := t[|t| - 1];
      if le(last, x) {
        assert forall i :: 0 <= i < |t| ==> le(t[i], last);
      } else {
        var t' := t[..|t| - 1];
        InsertSorted(t', x, le);
        InsertPermutation(t', x, le);
        var r := Insert(t', x, le);
        forall i | 0 <= i < |r| ensures le(r[i], last) {
          assert r[i] in multiset(t') + multiset{x};
          if r[i] != x {
            assert r[i] in t';
            var k :| 0 <= k < |t'| && t'[k] == r[i];
            assert t[k] == t'[k];
          }
        }
      }
    }
  }

  /** With a consistent comparator the result is in order. */
  lemma {:induction false} SortBySorted<T(!new)>(s: seq<T>, le: (T, T) -> bool)
    requires TotalPreorder(le)
    ensures Sorted(SortBy(s, le), le)
    decreases |s|
  {
    if s != [] {
      SortBySorted(s[..|s| - 1], le);
      InsertSorted(SortBy(s[..|s| - 1], le), s[|s| - 1], le);
    }
  }

  /** Every element of the sorted list comes from the input, and the other way round. */
  lemma SortByMembers<T>(s: seq<T>, le: (T, T) -> bool)
    ensures forall x :: x in SortBy(s, le) <==> x in s
  {
    SortByPermutation(s, le);
    forall x ensures x in SortBy(s, le) <==> x in s {
      assert x in SortBy(s, le) <==> x in multiset(SortBy(s, le));
      assert x in s <==> x in multiset(s);
    }
  }

  /** Swapping `x` one place to the left past an element it may not follow leaves the insertion result unchanged. */
  lemma InsertShift<T>(b: seq<T>, c: seq<T>, j: nat, i: nat, x: T, le: (T, T) -> bool)
    requires 0 < j <= i < |b| && b[j] == x && !le(b[j - 1], x)
    requires c == b[j - 1 := x][j := b[j - 1]]
    ensures Insert(b[..j], x, le) + b[j + 1..i + 1] == Insert(c[..j - 1], x, le) + c[j..i + 1]
    ensures c[i + 1..] == b[i + 1..] && c[j - 1] == x
  {
    assert b[..j][..j - 1] == b[..j - 1];
    assert Insert(b[..j], x, le) == Insert(b[..j - 1], x, le) + [b[j - 1]];
    assert c[..j - 1] == b[..j - 1];
    assert c[j..i + 1] == [b[j - 1]] + b[j + 1..i + 1];
  }

  /** Moves `a[i]` leftwards into the sorted prefix `a[..i]`, as far as `le` allows. */
  method InsertAt<T>(a: array<T>, i: nat, le: (T, T) -> bool)
    requires i < a.Length
    modifies a
    ensures a[..i + 1] == Insert(old(a[..i]), old(a[i]), le)
    ensures a[i + 1..] == old(a[i + 1..])
  {
    ghost var x := a[i];
    ghost var prefix := a[..i];
    ghost var rest := a[i + 1..];
    var j := i;
    while j > 0 && !le(a[j - 1], a[j])
      invariant 0 <= j <= i
      invariant a[j] == x
      invariant Insert(prefix, x, le) == Insert(a[..j], x, le) + a[j + 1..i + 1]
      invariant a[i + 1..] == rest
    {
      ghost var before := a[..];
      a[j - 1], a[j] := a[j], a[j - 1];
      InsertShift(before, a[..], j, i, x, le);
      j := j - 1;
    }
    if j == 0 {
      assert a[..i + 1] == [x] + a[1..i + 1];
    } else {
      assert a[..i + 1] == a[..j] + [x] + a[j + 1..i + 1];
    }
  }

  /** The in-place form: `a.sort(c)`. */
  method InsertionSort<T>(a: array<T>, le: (T, T) -> bool)
    modifies a
    ensures a[..] == SortBy(old(a[..]), le)
  {
    ghost var input := a[..];
    var i := 0;
    while i < a.Length
      invariant 0 <= i <= a.Length
      invariant a[..i] == SortBy(input[..i], le)
      invariant a[i..] == input[i..]
    {
      assert input[..i + 1][..i] == input[..i];
      assert a[i] == input[i];
      InsertAt(a, i, le);
      assert a[i + 1..] == input[i + 1..];
      i := i + 1;
    }
    assert a[..] == a[..a.Length];
    assert input == input[..a.Length];
  }

  /** Sorts a copy of `s` in place and returns it: what the components do with a fresh array. */
  method SortSeq<T>(s: seq<T>, le: (T, T) -> bool) returns (r: seq<T>)
    ensures r == SortBy(s, le)
  {
    if |s| == 0 {
      return [];
    }
    var a := new T[|s|](i requires 0 <= i < |s| => s[i]);
    assert a[..] == s;
    InsertionSort(a, le);
    r := a[..];
  }
}
