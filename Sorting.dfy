/**
 * `Array.prototype.sort` with a numeric comparator `(a, b) => key(a) - key(b)`:
 * a stable sort into ascending key order. The specification is insertion
 * sort on sequences; the in-place method on an array is proved equal to it.
 * A descending sort (`key(b) - key(a)`) is the ascending sort on the
 * negated key.
 */
module Sorting {

  /** `sorted` with `b` placed after every element whose key is not larger, from the back. */
  function InsertByKey<T>(sorted: seq<T>, b: T, key: T -> int): (r: seq<T>)
    ensures |r| == |sorted| + 1
    ensures multiset(r) == multiset(sorted) + multiset{b}
    decreases |sorted|
  {
    if |sorted| == 0 || key(sorted[|sorted| - 1]) <= key(b) then sorted + [b]
    else
      var last := sorted[|sorted| - 1];
      var init := sorted[..|sorted| - 1];
      assert sorted == init + [last];
      InsertByKey(init, b, key) + [last]
  }

  /** Insertion sort by `key`. */
  function SortByKey<T>(s: seq<T>, key: T -> int): (r: seq<T>)
    ensures |r| == |s|
    ensures multiset(r) == multiset(s)
    decreases |s|
  {
    if |s| == 0 then []
    else
      assert s == s[..|s| - 1] + [s[|s| - 1]];
      InsertByKey(SortByKey(s[..|s| - 1], key), s[|s| - 1], key)
  }

  predicate SortedByKey<T>(s: seq<T>, key: T -> int) {
    forall i, j :: 0 <= i < j < |s| ==> key(s[i]) <= key(s[j])
  }

  lemma {:induction false} InsertKeepsSorted<T>(sorted: seq<T>, b: T, key: T -> int)
    requires SortedByKey(sorted, key)
    ensures SortedByKey(InsertByKey(sorted, b, key), key)
    ensures forall i :: 0 <= i < |InsertByKey(sorted, b, key)| ==>
      key(InsertByKey(sorted, b, key)[i]) <= key(b) || InsertByKey(sorted, b, key)[i] in sorted
    decreases |sorted|
  {
    if !(|sorted| == 0 || key(sorted[|sorted| - 1]) <= key(b)) {
      var last := sorted[|sorted| - 1];
      var init := sorted[..|sorted| - 1];
      InsertKeepsSorted(init, b, key);
      var r := InsertByKey(init, b, key);
      forall i | 0 <= i < |r|
        ensures key(r[i]) <= key(last) && (key(r[i]) <= key(b) || r[i] in sorted)
      {
        if key(r[i]) > key(b) {
          var k :| 0 <= k < |init| && init[k] == r[i];
          assert sorted[k] == init[k];
        }
      }
      assert InsertByKey(sorted, b, key) == r + [last];
    }
  }

  /** The result is in ascending key order. */
  lemma {:induction false} SortByKeySorted<T>(s: seq<T>, key: T -> int)
    ensures SortedByKey(SortByKey(s, key), key)
    decreases |s|
  {
    if |s| > 0 {
      SortByKeySorted(s[..|s| - 1], key);
      InsertKeepsSorted(SortByKey(s[..|s| - 1], key), s[|s| - 1], key);
    }
  }

  /** A sequence already in order comes back unchanged. */
  lemma {:induction false} SortByKeyOfSorted<T>(s: seq<T>, key: T -> int)
    requires SortedByKey(s, key)
    ensures SortByKey(s, key) == s
    decreases |s|
  {
    if |s| > 0 {
      var init, last := s[..|s| - 1], s[|s| - 1];
      SortedInit(s, key);
      SortByKeyOfSorted(init, key);
      InsertAtEnd(init, last, key);
      InitThenLast(s);
    }
  }

  /** Dropping the last element keeps a sequence in order, and that element has the largest key. */
  lemma SortedInit<T>(s: seq<T>, key: T -> int)
    requires |s| > 0 && SortedByKey(s, key)
    ensures SortedByKey(s[..|s| - 1], key)
    ensures |s| == 1 || key(s[..|s| - 1][|s| - 2]) <= key(s[|s| - 1])
  {
  }

  lemma InitThenLast<T>(s: seq<T>)
    requires |s| > 0
    ensures s[..|s| - 1] + [s[|s| - 1]] == s
  {
  }

  /** An element whose key is at least the last one's goes at the end. */
  lemma InsertAtEnd<T>(sorted: seq<T>, b: T, key: T -> int)
    requires |sorted| == 0 || key(sorted[|sorted| - 1]) <= key(b)
    ensures InsertByKey(sorted, b, key) == sorted + [b]
  {
  }

  /** The elements with key `v`, in sequence order. */
  function WithKey<T>(s: seq<T>, v: int, key: T -> int): seq<T>
    decreases |s|
  {
    if |s| == 0 then []
    else WithKey(s[..|s| - 1], v, key) + (if key(s[|s| - 1]) == v then [s[|s| - 1]] else [])
  }

  lemma {:induction false} WithKeyInsert<T>(sorted: seq<T>, b: T, v: int, key: T -> int)
    ensures WithKey(InsertByKey(sorted, b, key), v, key) == WithKey(sorted, v, key) + (if key(b) == v then [b] else [])
    decreases |sorted|
  {
    if |sorted| == 0 || key(sorted[|sorted| - 1]) <= key(b) {
      assert (sorted + [b])[..|sorted|] == sorted;
    } else {
      var last := sorted[|sorted| - 1];
      var init := sorted[..|sorted| - 1];
      WithKeyInsert(init, b, v, key);
      var r := InsertByKey(init, b, key);
      assert InsertByKey(sorted, b, key) == r + [last];
      assert (r + [last])[..|r|] == r;
      var wi := WithKey(init, v, key);
      var bs := if key(b) == v then [b] else [];
      var ls := if key(last) == v then [last] else [];
      assert WithKey(r + [last], v, key) == wi + bs + ls;
      assert WithKey(sorted, v, key) == wi + ls;
      assert bs == [] || ls == [];
      assert bs + ls == ls + bs;
      assert wi + bs + ls == wi + (bs + ls);
    }
  }

  /** Stability: elements that share a key keep their relative order. */
  lemma {:induction false} SortByKeyStable<T>(s: seq<T>, v: int, key: T -> int)
    ensures WithKey(SortByKey(s, key), v, key) == WithKey(s, v, key)
    decreases |s|
  {
    if |s| > 0 {
      SortByKeyStable(s[..|s| - 1], v, key);
      WithKeyInsert(SortByKey(s[..|s| - 1], key), s[|s| - 1], v, key);
    }
  }

  /** Past an element with a larger key, `Insert` keeps that element last. */
  lemma InsertPastLarger<T>(sorted: seq<T>, b: T, key: T -> int)
    requires |sorted| > 0 && key(sorted[|sorted| - 1]) > key(b)
    ensures InsertByKey(sorted, b, key) == InsertByKey(sorted[..|sorted| - 1], b, key) + [sorted[|sorted| - 1]]
  {
  }

  /** Cutting the last element off before or after slicing at `j`. */
  lemma SliceAtLast<T>(t: seq<T>, j: nat)
    requires j < |t|
    ensures t[..|t| - 1][..j] == t[..j]
    ensures t[j..] == t[..|t| - 1][j..] + [t[|t| - 1]]
  {
  }

  /** `Insert` can be split at any point past which all keys are larger. */
  lemma {:induction false} InsertSplit<T>(t: seq<T>, j: nat, b: T, key: T -> int)
    requires j <= |t|
    requires forall k :: j <= k < |t| ==> key(t[k]) > key(b)
    ensures InsertByKey(t, b, key) == InsertByKey(t[..j], b, key) + t[j..]
    decreases |t| - j
  {
    if j < |t| {
      var init := t[..|t| - 1];
      var last := t[|t| - 1];
      InsertPastLarger(t, b, key);
      assert forall k :: j <= k < |init| ==> init[k] == t[k];
      InsertSplit(init, j, b, key);
      SliceAtLast(t, j);
      calc {
        InsertByKey(t, b, key);
        InsertByKey(init, b, key) + [last];
        (InsertByKey(t[..j], b, key) + init[j..]) + [last];
        InsertByKey(t[..j], b, key) + (init[j..] + [last]);
        InsertByKey(t[..j], b, key) + t[j..];
      }
    } else {
      assert t[..j] == t;
    }
  }

  /** Where the inner loop of the sort stops, `Insert` puts the element. */
  lemma ShiftedIsInsert<T>(t: seq<T>, j: nat, b: T, r: seq<T>, key: T -> int)
    requires j <= |t| && |r| == |t| + 1
    requires forall k :: 0 <= k < j ==> r[k] == t[k]
    requires r[j] == b
    requires forall k :: j < k < |r| ==> r[k] == t[k - 1]
    requires forall k :: j <= k < |t| ==> key(t[k]) > key(b)
    requires j > 0 ==> key(t[j - 1]) <= key(b)
    ensures r == InsertByKey(t, b, key)
  {
    InsertSplit(t, j, b, key);
    assert j > 0 ==> key(t[..j][j - 1]) <= key(b);
    InsertAtEnd(t[..j], b, key);
    ShiftedShape(t, j, b, r);
  }

  /** A sequence that agrees with `t` before `j`, holds `b` at `j` and `t` shifted by one after it. */
  lemma ShiftedShape<T>(t: seq<T>, j: nat, b: T, r: seq<T>)
    requires j <= |t| && |r| == |t| + 1
    requires forall k :: 0 <= k < j ==> r[k] == t[k]
    requires r[j] == b
    requires forall k :: j < k < |r| ==> r[k] == t[k - 1]
    ensures r == t[..j] + [b] + t[j..]
  {
  }

  /** The inner loop: shifts the larger elements of `a[..i]` one place right and drops `a[i]` into the gap. */
  method InsertLast<T>(a: array<T>, i: nat, key: T -> int)
    requires i < a.Length
    modifies a
    ensures a[..i + 1] == InsertByKey(old(a[..i]), old(a[i]), key)
    ensures a[i + 1..] == old(a[i + 1..])
  {
    ghost var a0 := a[..];
    ghost var t := a[..i];
    var x := a[i];
    var j := i;
    while j > 0 && key(a[j - 1]) > key(x)
      invariant 0 <= j <= i
      invariant forall k :: 0 <= k < j ==> a[k] == t[k]
      invariant forall k :: j < k <= i ==> a[k] == t[k - 1]
      invariant forall k :: i < k < a.Length ==> a[k] == a0[k]
      invariant forall k :: j <= k < i ==> key(t[k]) > key(x)
    {
      a[j] := a[j - 1];
      j := j - 1;
    }
    a[j] := x;
    ghost var r := a[..i + 1];
    assert forall k :: 0 <= k < j ==> r[k] == t[k];
    assert forall k :: j < k < |r| ==> r[k] == t[k - 1];
    ShiftedIsInsert(t, j, x, r, key);
    TailKept(a0, a[..], i);
  }

  /** Two sequences that agree past `i` have the same tail there. */
  lemma TailKept<T>(s0: seq<T>, s1: seq<T>, i: nat)
    requires |s0| == |s1| && i < |s0|
    requires forall k :: i < k < |s0| ==> s1[k] == s0[k]
    ensures s1[i + 1..] == s0[i + 1..]
  {
  }

  lemma SortByKeyPrefix<T>(s: seq<T>, i: nat, key: T -> int)
    requires i < |s|
    ensures SortByKey(s[..i + 1], key) == InsertByKey(SortByKey(s[..i], key), s[i], key)
  {
    assert s[..i + 1][..i] == s[..i];
  }

  /** Sorts `a` in place by `key`, stably, by insertion. */
  method SortInPlace<T>(a: array<T>, key: T -> int)
    modifies a
    ensures a[..] == SortByKey(old(a[..]), key)
  {
    ghost var s := a[..];
    var i := 0;
    while i < a.Length
      invariant 0 <= i <= a.Length
      invariant a[..i] == SortByKey(s[..i], key)
      invariant a[i..] == s[i..]
    {
      ghost var before := a[..];
      assert before[i] == s[i] && before[..i] == a[..i];
      assert a[i + 1..] == s[i + 1..] by {
        assert a[i..][1..] == a[i + 1..];
        assert s[i..][1..] == s[i + 1..];
      }
      InsertLast(a, i, key);
      SortByKeyPrefix(s, i, key);
      i := i + 1;
    }
    assert a[..] == a[..a.Length];
    assert s == s[..a.Length];
  }
}
