/**
 * Python's `list.sort(key=k, reverse=True)`, used both for the feed
 * (backend/algorithm.py:234) and for the competition results
 * (backend/admin_routes.py:347). The library sort is stable even when
 * reversed: elements with equal keys keep their original order. It is
 * specified here by an insertion sort that inserts each element after
 * every element whose key is at least its own.
 */
module Sorting {
  import opened Base

  /** Non-increasing by key. */
  ghost predicate SortedDesc<T>(key: T -> real, s: seq<T>) {
    forall i, j :: 0 <= i < j < |s| ==> key(s[i]) >= key(s[j])
  }

  /** The elements whose key is exactly `k`, in their order in `s`. */
  function WithKey<T>(key: T -> real, s: seq<T>, k: real): (r: seq<T>)
    ensures |r| <= |s|
  {
    if s == [] then [] else (if key(s[0]) == k then [s[0]] else []) + WithKey(key, s[1..], k)
  }

  /** Place `x` after every leading element whose key is at least its own. */
  function Insert<T>(key: T -> real, x: T, s: seq<T>): (r: seq<T>)
    ensures |r| == |s| + 1
  {
    if s == [] then [x]
    else if key(s[0]) >= key(x) then [s[0]] + Insert(key, x, s[1..])
    else [x] + s
  }

  /** The stable descending sort: insert the last element into the sorted prefix. */
  function SortDesc<T>(key: T -> real, s: seq<T>): seq<T> {
    if s == [] then [] else Insert(key, s[|s| - 1], SortDesc(key, s[..|s| - 1]))
  }

  lemma {:induction false} WithKeyConcat<T>(key: T -> real, a: seq<T>, b: seq<T>, k: real)
    ensures WithKey(key, a + b, k) == WithKey(key, a, k) + WithKey(key, b, k)
  {
    if a == [] {
      assert a + b == b;
    } else {
      var ab := a + b;
      assert ab[0] == a[0];
      assert ab[1..] == a[1..] + b;
      var head := if key(a[0]) == k then [a[0]] else [];
      assert WithKey(key, ab, k) == head + WithKey(key, a[1..] + b, k);
      assert WithKey(key, a, k) == head + WithKey(key, a[1..], k);
      WithKeyConcat(key, a[1..], b, k);
      assert head + (WithKey(key, a[1..], k) + WithKey(key, b, k))
          == (head + WithKey(key, a[1..], k)) + WithKey(key, b, k);
    }
  }

  /** Nothing in a sorted sequence whose first key is below `k` has key `k`. */
  lemma {:induction false} WithKeyAbove<T>(key: T -> real, s: seq<T>, k: real)
    requires SortedDesc(key, s)
    requires s != [] ==> key(s[0]) < k
    ensures WithKey(key, s, k) == []
  {
    if s != [] {
      assert |s| > 1 ==> key(s[1]) <= key(s[0]);
      WithKeyAbove(key, s[1..], k);
    }
  }

  /** A sorted sequence headed by an element at least as heavy as all of it stays sorted. */
  lemma ConsSorted<T>(key: T -> real, a: T, t: seq<T>)
    requires SortedDesc(key, t)
    requires forall i :: 0 <= i < |t| ==> key(t[i]) <= key(a)
    ensures SortedDesc(key, [a] + t)
  {
    forall i, j | 0 <= i < j < |[a] + t| ensures key(([a] + t)[i]) >= key(([a] + t)[j]) {
      if i == 0 { assert ([a] + t)[j] == t[j - 1]; }
      else { assert ([a] + t)[i] == t[i - 1] && ([a] + t)[j] == t[j - 1]; }
    }
  }

  /** Inserting keeps every key under a common bound. */
  lemma {:induction false} InsertBounded<T>(key: T -> real, x: T, s: seq<T>, b: real)
    requires key(x) <= b && forall i :: 0 <= i < |s| ==> key(s[i]) <= b
    ensures |Insert(key, x, s)| == |s| + 1
    ensures forall i :: 0 <= i < |Insert(key, x, s)| ==> key(Insert(key, x, s)[i]) <= b
  {
    if s != [] && key(s[0]) >= key(x) {
      InsertBounded(key, x, s[1..], b);
      var t := Insert(key, x, s[1..]);
      forall i | 0 <= i < |[s[0]] + t| ensures key(([s[0]] + t)[i]) <= b {
        if i > 0 { assert ([s[0]] + t)[i] == t[i - 1]; }
      }
    } else if s != [] {
      forall i | 0 <= i < |[x] + s| ensures key(([x] + s)[i]) <= b {
        if i > 0 { assert ([x] + s)[i] == s[i - 1]; }
      }
    }
  }

  lemma {:induction false} InsertSorted<T>(key: T -> real, x: T, s: seq<T>)
    requires SortedDesc(key, s)
    ensures SortedDesc(key, Insert(key, x, s))
  {
    if s != [] {
      if key(s[0]) >= key(x) {
        assert SortedDesc(key, s[1..]);
        InsertSorted(key, x, s[1..]);
        InsertBounded(key, x, s[1..], key(s[0]));
        ConsSorted(key, s[0], Insert(key, x, s[1..]));
      } else {
        ConsSorted(key, x, s);
      }
    }
  }

  lemma {:induction false} InsertMultiset<T>(key: T -> real, x: T, s: seq<T>)
    ensures multiset(Insert(key, x, s)) == multiset(s) + multiset{x}
  {
    if s != [] && key(s[0]) >= key(x) {
      InsertMultiset(key, x, s[1..]);
      assert s == [s[0]] + s[1..];
    }
  }

  lemma WithKeySingle<T>(key: T -> real, x: T, k: real)
    ensures WithKey(key, [x], k) == if key(x) == k then [x] else []
  {
    assert [x][1..] == [];
  }

  /** Inserting `x` extends the equal-key run of `key(x)` by `x` at its end and changes no other run. */
  lemma {:induction false} InsertWithKey<T>(key: T -> real, x: T, s: seq<T>, k: real)
    requires SortedDesc(key, s)
    ensures WithKey(key, Insert(key, x, s), k) == WithKey(key, s, k) + (if key(x) == k then [x] else [])
  {
    WithKeySingle(key, x, k);
    if s == [] {
    } else if key(s[0]) >= key(x) {
      var t := Insert(key, x, s[1..]);
      assert SortedDesc(key, s[1..]);
      InsertWithKey(key, x, s[1..], k);
      WithKeyConcat(key, [s[0]], t, k);
      WithKeyConcat(key, [s[0]], s[1..], k);
      assert [s[0]] + s[1..] == s;
    } else {
      WithKeyConcat(key, [x], s, k);
      if key(x) == k { WithKeyAbove(key, s, k); }
    }
  }

  /**
   * The sort returns a non-increasing permutation of its input, and it is
   * stable: for every key value, the elements carrying it appear in the
   * same relative order as in the input.
   */
  lemma {:induction false} SortDescCorrect<T>(key: T -> real, s: seq<T>)
    ensures |SortDesc(key, s)| == |s|
    ensures SortedDesc(key, SortDesc(key, s))
    ensures multiset(SortDesc(key, s)) == multiset(s)
    ensures forall k :: WithKey(key, SortDesc(key, s), k) == WithKey(key, s, k)
  {
    if s != [] {
      var init, last := s[..|s| - 1], s[|s| - 1];
      SortDescCorrect(key, init);
      InsertSorted(key, last, SortDesc(key, init));
      InsertMultiset(key, last, SortDesc(key, init));
      assert s == init + [last];
      forall k ensures WithKey(key, SortDesc(key, s), k) == WithKey(key, s, k) {
        InsertWithKey(key, last, SortDesc(key, init), k);
        WithKeyConcat(key, init, [last], k);
        assert [last][1..] == [];
      }
    }
  }

  /** Scores that are already non-increasing are left exactly as they are. */
  lemma {:induction false} SortDescSortedIdentity<T>(key: T -> real, s: seq<T>)
    requires SortedDesc(key, s)
    ensures SortDesc(key, s) == s
  {
    if s != [] {
      var init, last := s[..|s| - 1], s[|s| - 1];
      assert SortedDesc(key, init);
      SortDescSortedIdentity(key, init);
      InsertAtEnd(key, last, init);
      assert init + [last] == s;
    }
  }

  /** An element no heavier than any element of a sorted prefix goes to the end. */
  lemma {:induction false} InsertAtEnd<T>(key: T -> real, x: T, s: seq<T>)
    requires forall i :: 0 <= i < |s| ==> key(s[i]) >= key(x)
    ensures Insert(key, x, s) == s + [x]
  {
    if s != [] {
      InsertAtEnd(key, x, s[1..]);
      assert [s[0]] + (s[1..] + [x]) == s + [x];
    }
  }

  /** Everything in a subsequence comes from the original. */
  lemma {:induction false} SubsequenceMembers<T>(a: seq<T>, b: seq<T>)
    requires Subsequence(a, b)
    ensures forall i :: 0 <= i < |a| ==> a[i] in b
    decreases |b|
  {
    if a != [] {
      if a[0] == b[0] && Subsequence(a[1..], b[1..]) {
        SubsequenceMembers(a[1..], b[1..]);
        forall i | 0 <= i < |a| ensures a[i] in b {
          if i > 0 { assert a[i] == a[1..][i - 1]; assert a[i] in b[1..]; }
        }
      } else {
        SubsequenceMembers(a, b[1..]);
      }
    }
  }

  /** Leaving elements out of a sorted sequence keeps it sorted. */
  lemma {:induction false} SubsequenceSorted<T>(key: T -> real, a: seq<T>, b: seq<T>)
    requires Subsequence(a, b) && SortedDesc(key, b)
    ensures SortedDesc(key, a)
    decreases |b|
  {
    if a != [] {
      assert SortedDesc(key, b[1..]);
      if a[0] == b[0] && Subsequence(a[1..], b[1..]) {
        SubsequenceSorted(key, a[1..], b[1..]);
        SubsequenceMembers(a[1..], b[1..]);
        forall i | 0 <= i < |a[1..]| ensures key(a[1..][i]) <= key(a[0]) {
          var j :| 0 <= j < |b[1..]| && b[1..][j] == a[1..][i];
          assert b[j + 1] == a[1..][i];
        }
        ConsSorted(key, a[0], a[1..]);
        assert [a[0]] + a[1..] == a;
      } else {
        SubsequenceSorted(key, a, b[1..]);
      }
    }
  }
}
