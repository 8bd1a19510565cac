/** Small shared vocabulary: optional values, results with an error text,
    sums and means over reals, and Python's slicing rules. */
module Basics {

  datatype Option<T> = None | Some(value: T)

  /** A Python call that either returns a value or raises with a message. */
  datatype Result<T> = Ok(value: T) | Err(error: string)

  /** A JSON value as `json.loads` produces it; objects keep their key order.
      Python tells integers (`JInt`) from floats (`JNum`), and `json.loads` also
      accepts the float NaN (`JNaN`). */
  datatype Json =
    | JNull
    | JBool(b: bool)
    | JInt(i: int)
    | JNum(x: real)
    | JNaN
    | JStr(s: string)
    | JArr(items: seq<Json>)
    | JObj(fields: seq<(string, Json)>)

  function Abs(x: real): real { if x < 0.0 then -x else x }

  function MaxReal(a: real, b: real): real { if a >= b then a else b }

  function MinReal(a: real, b: real): real { if a <= b then a else b }

  function MaxInt(a: int, b: int): int { if a >= b then a else b }

  /** Sum of a sequence, folded from the right end so that prefix sums extend one element at a time. */
  function Sum(xs: seq<real>): real
  {
    if |xs| == 0 then 0.0 else Sum(xs[..|xs| - 1]) + xs[|xs| - 1]
  }

  lemma SumAppend(xs: seq<real>, x: real)
    ensures Sum(xs + [x]) == Sum(xs) + x
  {
    assert (xs + [x])[..|xs|] == xs;
  }

  lemma {:induction false} SumConcat(xs: seq<real>, ys: seq<real>)
    ensures Sum(xs + ys) == Sum(xs) + Sum(ys)
    decreases |ys|
  {
    if |ys| == 0 {
      assert xs + ys == xs;
    } else {
      var init, last := ys[..|ys| - 1], ys[|ys| - 1];
      assert ys == init + [last];
      assert xs + ys == (xs + init) + [last];
      SumConcat(xs, init);
      SumAppend(xs + init, last);
      SumAppend(init, last);
    }
  }

  lemma {:induction false} SumPrefixStep(xs: seq<real>, k: nat)
    requires k < |xs|
    ensures Sum(xs[..k + 1]) == Sum(xs[..k]) + xs[k]
  {
    assert xs[..k + 1][..k] == xs[..k];
  }

  /** Sum of a sequence of non-negative numbers is non-negative. */
  lemma {:induction false} SumNonNegative(xs: seq<real>)
    requires forall i :: 0 <= i < |xs| ==> xs[i] >= 0.0
    ensures Sum(xs) >= 0.0
    decreases |xs|
  {
    if |xs| > 0 {
      SumNonNegative(xs[..|xs| - 1]);
    }
  }

  /** Arithmetic mean (numpy/pandas `mean`) of a non-empty sequence. */
  function Mean(xs: seq<real>): real
    requires |xs| > 0
  {
    Sum(xs) / (|xs| as real)
  }

  /** Sum of squared deviations from `m`. */
  function SumSquaredDeviations(xs: seq<real>, m: real): real
  {
    if |xs| == 0 then 0.0
    else SumSquaredDeviations(xs[..|xs| - 1], m) + (xs[|xs| - 1] - m) * (xs[|xs| - 1] - m)
  }

  lemma {:induction false} SumSquaredDeviationsNonNegative(xs: seq<real>, m: real)
    ensures SumSquaredDeviations(xs, m) >= 0.0
    decreases |xs|
  {
    if |xs| > 0 {
      SumSquaredDeviationsNonNegative(xs[..|xs| - 1], m);
      SquareNonNegative(xs[|xs| - 1] - m);
    }
  }

  lemma SquareNonNegative(d: real)
    ensures d * d >= 0.0
  {
    if d < 0.0 {
      assert d * d == (-d) * (-d);
    }
  }

  /** Population variance (`ddof=0`): numpy `np.std(x) ** 2`, pandas `std(ddof=0) ** 2`. */
  function PopulationVariance(xs: seq<real>): real
    requires |xs| > 0
  {
    SumSquaredDeviations(xs, Mean(xs)) / (|xs| as real)
  }

  /** Sample variance (`ddof=1`): pandas `Series.std() ** 2`. */
  function SampleVariance(xs: seq<real>): real
    requires |xs| > 1
  {
    SumSquaredDeviations(xs, Mean(xs)) / ((|xs| - 1) as real)
  }

  /** Consecutive differences, numpy `np.diff`. */
  function Diff(xs: seq<real>): (d: seq<real>)
    ensures |d| == if |xs| == 0 then 0 else |xs| - 1
    ensures forall i :: 0 <= i < |d| ==> d[i] == xs[i + 1] - xs[i]
  {
    if |xs| <= 1 then [] else seq(|xs| - 1, i requires 0 <= i < |xs| - 1 => xs[i + 1] - xs[i])
  }

  /** The differences telescope: their sum is last minus first. */
  lemma {:induction false} DiffSumTelescopes(xs: seq<real>)
    requires |xs| >= 1
    ensures Sum(Diff(xs)) == xs[|xs| - 1] - xs[0]
    decreases |xs|
  {
    if |xs| == 1 {
    } else {
      var init := xs[..|xs| - 1];
      DiffSumTelescopes(init);
      var d, e := Diff(xs), Diff(init);
      assert |d[..|d| - 1]| == |e|;
      forall i | 0 <= i < |e| ensures d[..|d| - 1][i] == e[i] {
        assert d[i] == xs[i + 1] - xs[i];
        assert e[i] == init[i + 1] - init[i];
      }
      assert d[..|d| - 1] == e;
      assert Sum(d) == Sum(e) + d[|d| - 1];
    }
  }

  /** Python `s[-k:]` for an integer k: the start index after Python's clamping. */
  function PyNegStart(n: nat, k: int): (start: nat)
    ensures start <= n
  {
    // s[-k:] has start -k; a negative start counts from the end and is clamped at 0,
    // a non-negative start is clamped at n.
    if -k < 0 then (if n - k >= 0 then n - k else 0)
    else (if -k <= n then -k else n)
  }

  /** Python `s[-k:]`. */
  function PyLast<T>(s: seq<T>, k: int): (r: seq<T>)
    ensures k > 0 ==> r == (if k <= |s| then s[|s| - k..] else s)
    ensures k == 0 ==> r == s
    ensures k < 0 ==> r == (if -k <= |s| then s[-k..] else [])
  {
    s[PyNegStart(|s|, k)..]
  }

  /** Python `s[:k]` for k >= 0. */
  function Take<T>(s: seq<T>, k: nat): (r: seq<T>)
    ensures |r| <= k
    ensures |r| == if k <= |s| then k else |s|
    ensures forall i :: 0 <= i < |r| ==> r[i] == s[i]
  {
    if k <= |s| then s[..k] else s
  }

  /** Python `s[-k:]` for k >= 0, the last k elements (all of them if there are fewer). */
  function Last<T>(s: seq<T>, k: nat): (r: seq<T>)
    ensures |r| == if k <= |s| then k else |s|
    ensures forall i :: 0 <= i < |r| ==> r[i] == s[|s| - |r| + i]
  {
    if k <= |s| then s[|s| - k..] else s
  }

  /** 2 to the power k. */
  function Pow2(k: nat): (r: nat)
    ensures r >= 1
  {
    if k == 0 then 1 else 2 * Pow2(k - 1)
  }

  /** The concatenation of a sequence of sequences, first to last. */
  function Flatten<T>(parts: seq<seq<T>>): seq<T>
  {
    if |parts| == 0 then [] else parts[0] + Flatten(parts[1..])
  }

  /** g(k) for every key in order, concatenated. */
  function ConcatMap<K, T>(keys: seq<K>, g: K -> seq<T>): seq<T>
  {
    if |keys| == 0 then [] else ConcatMap(keys[..|keys| - 1], g) + g(keys[|keys| - 1])
  }

  lemma {:induction false} ConcatMapMembers<K, T>(keys: seq<K>, g: K -> seq<T>, a: T)
    ensures a in ConcatMap(keys, g) <==> exists k :: 0 <= k < |keys| && a in g(keys[k])
    decreases |keys|
  {
    if |keys| > 0 {
      var n := |keys| - 1;
      var init := keys[..n];
      ConcatMapMembers(init, g, a);
      assert ConcatMap(keys, g) == ConcatMap(init, g) + g(keys[n]);
      if a in ConcatMap(init, g) {
        var k :| 0 <= k < |init| && a in g(init[k]);
        assert init[k] == keys[k];
      }
      if exists k :: 0 <= k < |keys| && a in g(keys[k]) {
        var k :| 0 <= k < |keys| && a in g(keys[k]);
        if k < n {
          assert init[k] == keys[k];
        }
      }
    }
  }
}
