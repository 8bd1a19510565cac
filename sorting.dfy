/** Stable sorting by an integer key (Python's `list.sort(key=...)`, `sorted(...)`),
    order-preserving de-duplication (`pandas.unique`, `dict.fromkeys`) and the
    median of a sorted sequence. */
module Sorting {

  predicate SortedBy<T>(s: seq<T>, key: T -> int)
  {
    forall i, j :: 0 <= i < j < |s| ==> key(s[i]) <= key(s[j])
  }

  /** The elements of s whose key is k, in their order in s. */
  function WithKey<T>(s: seq<T>, key: T -> int, k: int): (r: seq<T>)
    ensures |r| <= |s|
  {
    if |s| == 0 then []
    else WithKey(s[..|s| - 1], key, k) + (if key(s[|s| - 1]) == k then [s[|s| - 1]] else [])
  }

  lemma {:induction false} WithKeyConcat<T>(a: seq<T>, b: seq<T>, key: T -> int, k: int)
    ensures WithKey(a + b, key, k) == WithKey(a, key, k) + WithKey(b, key, k)
    decreases |b|
  {
    if |b| == 0 {
      assert a + b == a;
    } else {
      var bi := b[..|b| - 1];
      assert (a + b)[..|a + b| - 1] == a + bi;
      WithKeyConcat(a, bi, key, k);
    }
  }

  lemma {:induction false} WithKeyNone<T>(s: seq<T>, key: T -> int, k: int)
    requires forall i :: 0 <= i < |s| ==> key(s[i]) != k
    ensures WithKey(s, key, k) == []
    decreases |s|
  {
    if |s| > 0 {
      WithKeyNone(s[..|s| - 1], key, k);
    }
  }

  /** Inserts x after every element whose key is at most key(x). */
  function InsertBy<T>(x: T, s: seq<T>, key: T -> int): (r: seq<T>)
    ensures |r| == |s| + 1
  {
    if |s| == 0 then [x]
    else if key(x) < key(s[0]) then [x] + s
    else [s[0]] + InsertBy(x, s[1..], key)
  }

  lemma {:induction false} InsertByMultiset<T>(x: T, s: seq<T>, key: T -> int)
    ensures multiset(InsertBy(x, s, key)) == multiset(s) + multiset{x}
    decreases |s|
  {
    if |s| > 0 && key(x) >= key(s[0]) {
      InsertByMultiset(x, s[1..], key);
      assert s == [s[0]] + s[1..];
    }
  }

  /** Every key of InsertBy(x, s) is bounded below by b when those of x and s are. */
  lemma {:induction false} InsertByLowerBound<T>(x: T, s: seq<T>, key: T -> int, b: int)
    requires key(x) >= b
    requires forall i :: 0 <= i < |s| ==> key(s[i]) >= b
    ensures forall i :: 0 <= i < |s| + 1 ==> key(InsertBy(x, s, key)[i]) >= b
    decreases |s|
  {
    if |s| > 0 && key(x) >= key(s[0]) {
      InsertByLowerBound(x, s[1..], key, b);
    }
  }

  lemma {:induction false} InsertBySorted<T>(x: T, s: seq<T>, key: T -> int)
    requires SortedBy(s, key)
    ensures SortedBy(InsertBy(x, s, key), key)
    decreases |s|
  {
    if |s| > 0 && key(x) >= key(s[0]) {
      InsertBySorted(x, s[1..], key);
      InsertByLowerBound(x, s[1..], key, key(s[0]));
    }
  }

  lemma WithKeySingleton<T>(x: T, key: T -> int, k: int)
    ensures WithKey([x], key, k) == (if key(x) == k then [x] else [])
  {
    assert [x][..0] == [];
  }

  /** x goes in front of a sorted s whose keys all exceed key(x). */
  lemma InsertFrontStable<T>(x: T, s: seq<T>, key: T -> int, k: int)
    requires forall i :: 0 <= i < |s| ==> key(x) < key(s[i])
    ensures WithKey([x] + s, key, k) == WithKey(s, key, k) + WithKey([x], key, k)
  {
    WithKeyConcat([x], s, key, k);
    WithKeySingleton(x, key, k);
    if key(x) == k {
      WithKeyNone(s, key, k);
    }
  }

  /** Inserting keeps, for every key, the earlier elements with that key ahead of x. */
  lemma {:induction false} InsertByStable<T>(x: T, s: seq<T>, key: T -> int, k: int)
    requires SortedBy(s, key)
    ensures WithKey(InsertBy(x, s, key), key, k) == WithKey(s, key, k) + WithKey([x], key, k)
    decreases |s|
  {
    if |s| == 0 {
      assert InsertBy(x, s, key) == [x];
    } else if key(x) < key(s[0]) {
      assert forall i :: 0 <= i < |s| ==> key(x) < key(s[i]) by {
        forall i | 0 <= i < |s| ensures key(x) < key(s[i]) {
          if i > 0 { assert key(s[0]) <= key(s[i]); }
        }
      }
      InsertFrontStable(x, s, key, k);
    } else {
      var tail := s[1..];
      var t := InsertBy(x, tail, key);
      assert SortedBy(tail, key) by {
        forall i, j | 0 <= i < j < |tail| ensures key(tail[i]) <= key(tail[j]) {
          assert tail[i] == s[i + 1] && tail[j] == s[j + 1];
        }
      }
      InsertByStable(x, tail, key, k);
      assert InsertBy(x, s, key) == [s[0]] + t;
      assert s == [s[0]] + tail;
      WithKeyConcat([s[0]], t, key, k);
      WithKeyConcat([s[0]], tail, key, k);
      var w0, wt, wx := WithKey([s[0]], key, k), WithKey(tail, key, k), WithKey([x], key, k);
      assert WithKey(InsertBy(x, s, key), key, k) == w0 + (wt + wx);
      assert WithKey(s, key, k) == w0 + wt;
      assert w0 + (wt + wx) == (w0 + wt) + wx;
    }
  }

  /** Stable sort by key (insertion sort). */
  function SortBy<T>(s: seq<T>, key: T -> int): (r: seq<T>)
    ensures |r| == |s|
  {
    if |s| == 0 then [] else InsertBy(s[|s| - 1], SortBy(s[..|s| - 1], key), key)
  }

  /** The result is sorted by key and is a permutation of the input. */
  lemma {:induction false} SortBySortedPermutation<T>(s: seq<T>, key: T -> int)
    ensures SortedBy(SortBy(s, key), key)
    ensures multiset(SortBy(s, key)) == multiset(s)
    decreases |s|
  {
    if |s| > 0 {
      var init := s[..|s| - 1];
      SortBySortedPermutation(init, key);
      InsertBySorted(s[|s| - 1], SortBy(init, key), key);
      InsertByMultiset(s[|s| - 1], SortBy(init, key), key);
      assert s == init + [s[|s| - 1]];
    }
  }

  /** Stability: elements with equal keys keep their input order. */
  lemma {:induction false} SortByStable<T>(s: seq<T>, key: T -> int, k: int)
    ensures WithKey(SortBy(s, key), key, k) == WithKey(s, key, k)
    decreases |s|
  {
    if |s| > 0 {
      var init := s[..|s| - 1];
      var x := s[|s| - 1];
      SortByStable(init, key, k);
      SortBySortedPermutation(init, key);
      InsertByStable(x, SortBy(init, key), key, k);
      WithKeyConcat(init, [x], key, k);
      assert init + [x] == s;
    }
  }

  lemma SortByMembers<T(!new)>(s: seq<T>, key: T -> int)
    ensures forall x :: x in SortBy(s, key) <==> x in s
  {
    var r := SortBy(s, key);
    SortBySortedPermutation(s, key);
    assert forall x :: x in r <==> x in multiset(r);
    assert forall x :: x in s <==> x in multiset(s);
  }

  ghost predicate Distinct<T>(s: seq<T>)
  {
    forall i, j :: 0 <= i < j < |s| ==> s[i] != s[j]
  }

  /** The distinct elements of s in order of first appearance. */
  function Unique<T(==)>(s: seq<T>): (r: seq<T>)
    ensures Distinct(r)
    ensures forall i :: 0 <= i < |r| ==> r[i] in s
    ensures forall i :: 0 <= i < |s| ==> s[i] in r
    ensures |r| <= |s|
  {
    if |s| == 0 then []
    else
      var init := s[..|s| - 1];
      var u := Unique(init);
      assert forall i :: 0 <= i < |s| - 1 ==> s[i] == init[i];
      if s[|s| - 1] in u then u else u + [s[|s| - 1]]
  }

  function Identity(x: int): int { x }

  /** The distinct values of s in increasing order (`sorted(set(s))`). */
  function SortedUnique(s: seq<int>): seq<int>
  {
    SortBy(Unique(s), Identity)
  }

  /** `sorted(set(s))` is strictly increasing and holds exactly the values of s. */
  lemma SortedUniqueSpec(s: seq<int>)
    ensures forall i, j :: 0 <= i < j < |SortedUnique(s)| ==> SortedUnique(s)[i] < SortedUnique(s)[j]
    ensures forall x :: x in SortedUnique(s) <==> x in s
  {
    var u := Unique(s);
    var r := SortBy(u, Identity);
    SortByMembers(u, Identity);
    SortBySortedPermutation(u, Identity);
    DistinctMultiplicity(u);
    forall i, j | 0 <= i < j < |r| ensures r[i] != r[j] {
      if r[i] == r[j] {
        TwoOccurrences(r, i, j);
      }
    }
    assert SortedBy(r, Identity);
    assert forall x :: x in u <==> x in s;
  }

  lemma {:induction false} DistinctMultiplicity<T>(s: seq<T>)
    requires Distinct(s)
    ensures forall x :: multiset(s)[x] <= 1
    decreases |s|
  {
    if |s| > 0 {
      var init := s[..|s| - 1];
      DistinctMultiplicity(init);
      assert s == init + [s[|s| - 1]];
      assert s[|s| - 1] !in init;
    }
  }

  lemma TwoOccurrences<T>(s: seq<T>, i: int, j: int)
    requires 0 <= i < j < |s| && s[i] == s[j]
    ensures multiset(s)[s[i]] >= 2
  {
    assert s == s[..j] + [s[j]] + s[j + 1..];
    assert s[i] in s[..j];
  }

  /** The median of a sorted, non-empty sequence (`numpy.median`, `Series.median`). */
  function Median(s: seq<real>): (m: real)
    requires |s| > 0
    requires forall i, j :: 0 <= i < j < |s| ==> s[i] <= s[j]
    ensures s[0] <= m <= s[|s| - 1]
  {
    var n := |s|;
    if n % 2 == 1 then s[n / 2] else (s[n / 2 - 1] + s[n / 2]) / 2.0
  }
  /** Python's `<` on strings: lexicographic by code point, a proper prefix first. */
  predicate StrLess(a: string, b: string)
    decreases |a|
  {
    |b| > 0 && (|a| == 0 || a[0] < b[0] || (a[0] == b[0] && StrLess(a[1..], b[1..])))
  }

  lemma {:induction false} StrLessIrreflexive(a: string)
    ensures !StrLess(a, a)
    decreases |a|
  {
    if |a| > 0 {
      StrLessIrreflexive(a[1..]);
    }
  }

  lemma {:induction false} StrLessTransitive(a: string, b: string, c: string)
    requires StrLess(a, b) && StrLess(b, c)
    ensures StrLess(a, c)
    decreases |a|
  {
    if |a| > 0 && a[0] == b[0] && b[0] == c[0] {
      StrLessTransitive(a[1..], b[1..], c[1..]);
    }
  }

  lemma {:induction false} StrLessTotal(a: string, b: string)
    requires a != b
    ensures StrLess(a, b) || StrLess(b, a)
    decreases |a|
  {
    if |a| > 0 && |b| > 0 && a[0] == b[0] {
      assert a == [a[0]] + a[1..] && b == [b[0]] + b[1..];
      StrLessTotal(a[1..], b[1..]);
    }
  }

  predicate StrictlyAscending(s: seq<string>)
  {
    forall i, j :: 0 <= i < j < |s| ==> StrLess(s[i], s[j])
  }

  /** Inserts x into an ascending list of distinct texts, unless it is already there. */
  function InsertString(x: string, s: seq<string>): (r: seq<string>)
  {
    if |s| == 0 then [x]
    else if StrLess(x, s[0]) then [x] + s
    else if x == s[0] then s
    else [s[0]] + InsertString(x, s[1..])
  }

  lemma {:induction false} InsertStringSpec(x: string, s: seq<string>)
    requires StrictlyAscending(s)
    ensures StrictlyAscending(InsertString(x, s))
    ensures forall y :: y in InsertString(x, s) <==> y == x || y in s
    decreases |s|
  {
    if |s| > 0 && !StrLess(x, s[0]) && x != s[0] {
      var t := InsertString(x, s[1..]);
      InsertStringSpec(x, s[1..]);
      StrLessTotal(x, s[0]);
      forall y | y in t ensures StrLess(s[0], y) {
        if y != x {
          var k :| 0 <= k < |s[1..]| && s[1..][k] == y;
          assert s[k + 1] == y;
        }
      }
      var r := [s[0]] + t;
      forall i, j | 0 <= i < j < |r| ensures StrLess(r[i], r[j]) {
        if i == 0 {
          assert r[j] == t[j - 1];
        } else {
          assert r[i] == t[i - 1] && r[j] == t[j - 1];
        }
      }
      assert s == [s[0]] + s[1..];
    } else if |s| > 0 && StrLess(x, s[0]) {
      var r := [x] + s;
      forall i, j | 0 <= i < j < |r| ensures StrLess(r[i], r[j]) {
        if i == 0 && j > 1 {
          StrLessTransitive(x, s[0], s[j - 1]);
        }
      }
    }
  }

  /** `sorted(set(s))` for texts. */
  function SortedStrings(s: seq<string>): (r: seq<string>)
  {
    if |s| == 0 then [] else InsertString(s[|s| - 1], SortedStrings(s[..|s| - 1]))
  }

  /** The result ascends strictly (so holds no duplicates) and holds exactly the texts of s. */
  lemma {:induction false} SortedStringsSpec(s: seq<string>)
    ensures StrictlyAscending(SortedStrings(s))
    ensures forall y :: y in SortedStrings(s) <==> y in s
    decreases |s|
  {
    if |s| > 0 {
      var init := s[..|s| - 1];
      SortedStringsSpec(init);
      InsertStringSpec(s[|s| - 1], SortedStrings(init));
      assert s == init + [s[|s| - 1]];
    }
  }

  lemma StrictlyAscendingDistinct(s: seq<string>)
    requires StrictlyAscending(s)
    ensures Distinct(s)
  {
    forall i, j | 0 <= i < j < |s| ensures s[i] != s[j] {
      if s[i] == s[j] {
        StrLessIrreflexive(s[i]);
      }
    }
  }
}
