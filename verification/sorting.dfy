/** A stable insertion sort by non-increasing integer key, the order that
    `array.sort((a, b) => key(b) - key(a))` produces. */
module Sorting {

  predicate SortedDesc<T>(s: seq<T>, key: T -> int) {
    forall i, j :: 0 <= i < j < |s| ==> key(s[i]) >= key(s[j])
  }

  /** Every key of `s` is at most `k`. */
  predicate AllAtMost<T>(s: seq<T>, key: T -> int, k: int) {
    forall i :: 0 <= i < |s| ==> key(s[i]) <= k
  }

  /** The sum of the keys of `s`. */
  function SumKeys<T>(s: seq<T>, key: T -> int): int {
    if s == [] then 0 else key(s[0]) + SumKeys(s[1..], key)
  }

  /** The elements of `s` whose key is `k`, in their order in `s`. */
  function Ties<T>(s: seq<T>, key: T -> int, k: int): seq<T> {
    if s == [] then [] else (if key(s[0]) == k then [s[0]] else []) + Ties(s[1..], key, k)
  }

  /** Places `x` before the first element whose key is not larger than its
      own. */
  function Insert<T(==)>(x: T, s: seq<T>, key: T -> int): (r: seq<T>)
    ensures multiset(r) == multiset(s) + multiset{x}
    ensures |r| == |s| + 1
    ensures SumKeys(r, key) == key(x) + SumKeys(s, key)
  {
    if s == [] then [x]
    else if key(x) >= key(s[0]) then [x] + s
    else
      assert s == [s[0]] + s[1..];
      var r := [s[0]] + Insert(x, s[1..], key);
      assert r[1..] == Insert(x, s[1..], key);
      r
  }

  /** Inserting an element no larger than `k` into a list bounded by `k`
      keeps it bounded by `k`. */
  lemma {:induction false} InsertBounded<T>(x: T, s: seq<T>, key: T -> int, k: int)
    requires AllAtMost(s, key, k) && key(x) <= k
    ensures AllAtMost(Insert(x, s, key), key, k)
  {
    var r := Insert(x, s, key);
    forall i | 0 <= i < |r|
      ensures key(r[i]) <= k
    {
      assert r[i] in multiset(r);
      if r[i] != x {
        assert r[i] in multiset(s);
        var m :| 0 <= m < |s| && s[m] == r[i];
      }
    }
  }

  lemma {:induction false} InsertSorted<T>(x: T, s: seq<T>, key: T -> int)
    requires SortedDesc(s, key)
    ensures SortedDesc(Insert(x, s, key), key)
  {
    if s == [] {
    } else if key(x) >= key(s[0]) {
    } else {
      InsertSorted(x, s[1..], key);
      var rest := Insert(x, s[1..], key);
      assert AllAtMost(s[1..], key, key(s[0]));
      InsertBounded(x, s[1..], key, key(s[0]));
      assert Insert(x, s, key) == [s[0]] + rest;
    }
  }

  /** `Insert` passes over larger keys only, so `x` lands in front of every
      element that shares its key. */
  lemma {:induction false} InsertTies<T>(x: T, s: seq<T>, key: T -> int, k: int)
    ensures Ties(Insert(x, s, key), key, k) == (if key(x) == k then [x] else []) + Ties(s, key, k)
  {
    var r := Insert(x, s, key);
    if s == [] {
      assert r[1..] == [];
    } else if key(x) >= key(s[0]) {
      assert r[1..] == s;
    } else {
      assert r[0] == s[0] && r[1..] == Insert(x, s[1..], key);
      InsertTies(x, s[1..], key, k);
    }
  }

  lemma InsertTiesAll<T>(x: T, s: seq<T>, key: T -> int)
    ensures forall k :: Ties(Insert(x, s, key), key, k) == (if key(x) == k then [x] else []) + Ties(s, key, k)
  {
    forall k {
      InsertTies(x, s, key, k);
    }
  }

  /** The elements of `s` sorted by non-increasing key; elements with equal
      keys keep their order in `s`. */
  function SortDesc<T(==)>(s: seq<T>, key: T -> int): (r: seq<T>)
    ensures SortedDesc(r, key)
    ensures multiset(r) == multiset(s)
    ensures |r| == |s|
    ensures SumKeys(r, key) == SumKeys(s, key)
    ensures forall k :: Ties(r, key, k) == Ties(s, key, k)
  {
    if s == [] then []
    else
      assert s == [s[0]] + s[1..];
      var rest := SortDesc(s[1..], key);
      InsertSorted(s[0], rest, key);
      InsertTiesAll(s[0], rest, key);
      Insert(s[0], rest, key)
  }

  /** No element occurs twice. */
  ghost predicate NoRepeats<T>(s: seq<T>) {
    forall i, j :: 0 <= i < j < |s| ==> s[i] != s[j]
  }

  lemma {:induction false} RepeatCounted<T>(s: seq<T>, i: nat, j: nat)
    requires i < j < |s| && s[i] == s[j]
    ensures multiset(s)[s[i]] >= 2
  {
    assert s == [s[0]] + s[1..];
    if i == 0 {
      assert s[1..][j - 1] == s[j];
      assert s[j] in multiset(s[1..]);
    } else {
      assert s[1..][i - 1] == s[i] && s[1..][j - 1] == s[j];
      RepeatCounted(s[1..], i - 1, j - 1);
    }
  }

  lemma {:induction false} NoRepeatsCountsOnce<T>(s: seq<T>, x: T)
    requires NoRepeats(s)
    ensures multiset(s)[x] <= 1
  {
    if s != [] {
      assert s == [s[0]] + s[1..];
      assert NoRepeats(s[1..]) by {
        forall i, j | 0 <= i < j < |s[1..]|
          ensures s[1..][i] != s[1..][j]
        {
          assert s[1..][i] == s[i + 1] && s[1..][j] == s[j + 1];
        }
      }
      NoRepeatsCountsOnce(s[1..], x);
      forall k | 0 <= k < |s[1..]|
        ensures s[1..][k] != s[0]
      {
        assert s[1..][k] == s[k + 1];
      }
      assert s[0] !in s[1..];
    }
  }

  /** A permutation of a sequence without repeats has none either. */
  lemma PermutationNoRepeats<T>(a: seq<T>, b: seq<T>)
    requires multiset(a) == multiset(b) && NoRepeats(a)
    ensures NoRepeats(b)
  {
    forall i, j | 0 <= i < j < |b|
      ensures b[i] != b[j]
    {
      if b[i] == b[j] {
        RepeatCounted(b, i, j);
        NoRepeatsCountsOnce(a, b[i]);
      }
    }
  }

  /** Every element of a permutation comes from the original. */
  lemma PermutationMember<T>(a: seq<T>, b: seq<T>, i: int)
    requires multiset(a) == multiset(b) && 0 <= i < |b|
    ensures exists j :: 0 <= j < |a| && a[j] == b[i]
  {
    assert b[i] in multiset(b);
    assert b[i] in multiset(a);
  }

  /** `s[i]` has the largest key of `s`, and no earlier element has it. */
  ghost predicate IsFirstMax<T>(s: seq<T>, key: T -> int, i: int) {
    && 0 <= i < |s|
    && (forall j :: 0 <= j < i ==> key(s[j]) < key(s[i]))
    && (forall j :: 0 <= j < |s| ==> key(s[j]) <= key(s[i]))
  }

  /** The sort is stable at the front: the first element of the result is
      the earliest element of `s` with the largest key. */
  lemma {:induction false} SortDescHead<T>(s: seq<T>, key: T -> int)
    requires s != []
    ensures exists i :: IsFirstMax(s, key, i) && SortDesc(s, key)[0] == s[i]
  {
    var tail := s[1..];
    var rest := SortDesc(tail, key);
    assert SortDesc(s, key) == Insert(s[0], rest, key);
    if rest == [] {
      assert IsFirstMax(s, key, 0);
    } else {
      SortDescHead(tail, key);
      var k :| IsFirstMax(tail, key, k) && rest[0] == tail[k];
      if key(s[0]) >= key(rest[0]) {
        forall j | 0 <= j < |s|
          ensures key(s[j]) <= key(s[0])
        {
          if j > 0 {
            assert s[j] == tail[j - 1];
          }
        }
        assert IsFirstMax(s, key, 0);
      } else {
        assert s[k + 1] == tail[k];
        forall j | 0 <= j < |s|
          ensures key(s[j]) <= key(s[k + 1])
          ensures j < k + 1 ==> key(s[j]) < key(s[k + 1])
        {
          if j > 0 {
            assert s[j] == tail[j - 1];
          }
        }
        assert IsFirstMax(s, key, k + 1);
      }
    }
  }
}
