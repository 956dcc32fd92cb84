/**
 * The medians of node/pkg/utils/calculator and the filter in front of the price median.
 * Int64 sums wrap, so the median of large prices can leave the range of its inputs;
 * MedianInRange says exactly when.
 */
module Median {
  import opened GoInt
  import opened Wrappers
  import opened Sorting

  /** The elements of s that are not negative, in order. */
  function NonNegative(s: seq<int64>): seq<int64> {
    if s == [] then []
    else if s[|s| - 1] < 0 then NonNegative(s[..|s| - 1])
    else NonNegative(s[..|s| - 1]) + [s[|s| - 1]]
  }

  method FilterNegative(values: seq<int64>) returns (result: seq<int64>)
    ensures result == NonNegative(values)
  {
    result := [];
    for i := 0 to |values|
      invariant result == NonNegative(values[..i])
    {
      assert values[..i + 1][..i] == values[..i];
      if values[i] < 0 { continue; }
      result := result + [values[i]];
    }
    assert values[..|values|] == values;
  }

  /** NonNegative keeps exactly the non-negative elements, with their multiplicity. */
  lemma {:induction false} NonNegativeIsTheFilter(s: seq<int64>, x: int64)
    ensures multiset(NonNegative(s))[x] == if x < 0 then 0 else multiset(s)[x]
  {
    if s != [] {
      NonNegativeIsTheFilter(s[..|s| - 1], x);
      assert s == s[..|s| - 1] + [s[|s| - 1]];
    }
  }

  predicate AtMost64(a: int64, b: int64) { a <= b }

  function Sorted64(s: seq<int64>): (r: seq<int64>) {
    SortBy(s, AtMost64)
  }

  lemma Sorted64Sorts(s: seq<int64>)
    ensures |Sorted64(s)| == |s| && multiset(Sorted64(s)) == multiset(s)
    ensures forall i, j :: 0 <= i < j < |s| ==> Sorted64(s)[i] <= Sorted64(s)[j]
  {
    assert TotalPreorder(AtMost64);
    SortBySorts(s, AtMost64);
    assert forall i, j :: 0 <= i < j < |s| ==> AtMost64(Sorted64(s)[i], Sorted64(s)[j]);
  }

  /** GetInt64Med: None is the empty-array error. */
  function MedianInt64(s: seq<int64>): Option<int64> {
    if s == [] then None
    else if |s| == 1 then Some(s[0])
    else if |s| == 2 then Some(Half(Wrap64(s[0] as int + s[1] as int)))
    else
      Sorted64Sorts(s);
      var t := Sorted64(s);
      if |s| % 2 == 0 then Some(Half(Wrap64(t[|s| / 2 - 1] as int + t[|s| / 2] as int)))
      else Some(t[|s| / 2])
  }

  /** The sum the even-length median halves; 0 for odd lengths, where nothing is added. */
  function MiddleSum(s: seq<int64>): int {
    if |s| % 2 == 1 || s == [] then 0
    else
      Sorted64Sorts(s);
      Sorted64(s)[|s| / 2 - 1] as int + Sorted64(s)[|s| / 2] as int
  }

  ghost predicate Between(s: seq<int64>, m: int) {
    (exists i :: 0 <= i < |s| && s[i] <= m) && (exists j :: 0 <= j < |s| && m <= s[j])
  }

  lemma SortedElement(s: seq<int64>, k: nat) returns (i: nat)
    requires k < |s|
    ensures i < |s| && |Sorted64(s)| == |s| && s[i] == Sorted64(s)[k]
  {
    Sorted64Sorts(s);
    assert Sorted64(s)[k] in multiset(s);
    i :| 0 <= i < |s| && s[i] == Sorted64(s)[k];
  }

  lemma PairMiddle(s: seq<int64>)
    requires |s| == 2
    ensures MiddleSum(s) == s[0] as int + s[1] as int
  {
    assert s[1..] == [s[1]] && s[1..][1..] == [];
    assert SortBy(s[1..], AtMost64) == [s[1]];
    assert Insert(s[0], [s[1]], AtMost64) == if AtMost64(s[0], s[1]) then [s[0], s[1]] else [s[1], s[0]];
  }

  lemma HalfWrapped(a: int, b: int)
    requires b <= MAX_INT64
    requires 0 <= a <= b
    ensures a + b <= MAX_INT64 ==> a <= Half(Wrap64(a + b)) <= b
    ensures a + b > MAX_INT64 ==> Half(Wrap64(a + b)) < 0
  {
    if a + b > MAX_INT64 {
      assert Wrap64(a + b) == a + b - 0x1_0000_0000_0000_0000;
    }
  }

  /** The k-th smallest element: at most k elements are below it and at most |s| - 1 - k above. */
  ghost predicate Kth64(s: seq<int64>, k: int, v: int64) {
    Ranked(s, v, AtMost64, k, |s| - 1 - k)
  }

  lemma SortedIsKth(s: seq<int64>, k: nat)
    requires k < |s|
    ensures |Sorted64(s)| == |s| && Kth64(s, k, Sorted64(s)[k])
  {
    assert TotalPreorder(AtMost64);
    SortByRanks(s, AtMost64, k);
  }

  lemma KthIsUnique(s: seq<int64>, k: int, v: int64, w: int64)
    requires Kth64(s, k, v) && Kth64(s, k, w)
    ensures v == w
  {
    assert TotalPreorder(AtMost64);
    RankDetermines(s, v, w, AtMost64, k);
  }

  /** The two middle elements by rank, counted in s as it comes; one and the same for an odd number. */
  ghost predicate Middles(s: seq<int64>, a: int64, b: int64) {
    Kth64(s, (|s| - 1) / 2, a) && Kth64(s, |s| / 2, b)
  }

  /** The middle element, or the truncated half of the wrapped sum of the two middle ones. */
  function Mean(n: nat, a: int64, b: int64): int64 {
    if n % 2 == 1 then a else Half(Wrap64(a as int + b as int))
  }

  ghost predicate Middle(s: seq<int64>, m: int64) {
    exists a: int64, b: int64 :: Middles(s, a, b) && m == Mean(|s|, a, b)
  }

  lemma MiddlesGive(s: seq<int64>, a: int64, b: int64)
    requires s != [] && Middles(s, a, b)
    ensures MedianInt64(s) == Some(Mean(|s|, a, b))
    ensures |s| % 2 == 0 ==> MiddleSum(s) == a as int + b as int
  {
    SortedIsKth(s, (|s| - 1) / 2);
    SortedIsKth(s, |s| / 2);
    KthIsUnique(s, (|s| - 1) / 2, a, Sorted64(s)[(|s| - 1) / 2]);
    KthIsUnique(s, |s| / 2, b, Sorted64(s)[|s| / 2]);
    if |s| == 1 {
      OneIsSorted(s);
    } else if |s| == 2 {
      PairMiddle(s);
    }
  }

  lemma OneIsSorted(s: seq<int64>)
    requires |s| == 1
    ensures Sorted64(s) == s
  {
    assert SortBy(s[1..], AtMost64) == [];
  }

  lemma MiddlesExist(s: seq<int64>) returns (a: int64, b: int64)
    requires s != []
    ensures Middles(s, a, b)
  {
    SortedIsKth(s, (|s| - 1) / 2);
    SortedIsKth(s, |s| / 2);
    a, b := Sorted64(s)[(|s| - 1) / 2], Sorted64(s)[|s| / 2];
  }

  /**
   * The median is the middle by rank: for an odd number the price with at most half of the
   * others below and at most half above it, for an even number half the sum of the two middle
   * ones. Nothing else is, and MiddleSum is the sum it halves.
   */
  lemma MedianIsMiddle(s: seq<int64>, m: int64)
    requires s != []
    ensures MedianInt64(s) == Some(m) <==> Middle(s, m)
    ensures forall a: int64, b: int64 :: |s| % 2 == 0 && Middles(s, a, b) ==> MiddleSum(s) == a as int + b as int
  {
    var x, y := MiddlesExist(s);
    MiddlesGive(s, x, y);
    forall a: int64, b: int64 | Middles(s, a, b)
      ensures MedianInt64(s) == Some(Mean(|s|, a, b)) && (|s| % 2 == 0 ==> MiddleSum(s) == a as int + b as int)
    {
      MiddlesGive(s, a, b);
    }
  }

  /**
   * The price median of non-negative inputs lies between its least and its greatest input
   * exactly when the two middle values add up within int64; past that the sum wraps and the
   * median is negative.
   */
  lemma MedianInRange(s: seq<int64>)
    requires s != []
    requires forall i :: 0 <= i < |s| ==> 0 <= s[i]
    ensures MedianInt64(s).Some?
    ensures Between(s, MedianInt64(s).value) <==> MiddleSum(s) <= MAX_INT64
    ensures MiddleSum(s) > MAX_INT64 <==> MedianInt64(s).value < 0
  {
    Sorted64Sorts(s);
    if |s| % 2 == 1 {
      var k := SortedElement(s, |s| / 2);
      assert MedianInt64(s).value == s[k] by {
        if |s| == 1 { assert k == 0; }
      }
    } else {
      var i := SortedElement(s, |s| / 2 - 1);
      var j := SortedElement(s, |s| / 2);
      if |s| == 2 { PairMiddle(s); }
      HalfWrapped(s[i], s[j]);
    }
  }

  /** Two prices of 2^62 each: inside int64, yet the fixed price comes out negative. */
  lemma MedianCanOverflow()
    ensures MedianInt64([0x4000_0000_0000_0000, 0x4000_0000_0000_0000]) == Some(-0x4000_0000_0000_0000)
  {
    assert Wrap64(0x8000_0000_0000_0000) == -0x8000_0000_0000_0000;
  }

  // Floats, modelled as reals.

  predicate AtMost(a: real, b: real) { a <= b }

  function SortedReals(s: seq<real>): seq<real> {
    SortBy(s, AtMost)
  }

  lemma SortedRealsSorts(s: seq<real>)
    ensures |SortedReals(s)| == |s| && multiset(SortedReals(s)) == multiset(s)
    ensures forall i, j :: 0 <= i < j < |s| ==> SortedReals(s)[i] <= SortedReals(s)[j]
  {
    assert TotalPreorder(AtMost);
    SortBySorts(s, AtMost);
    assert forall i, j :: 0 <= i < j < |s| ==> AtMost(SortedReals(s)[i], SortedReals(s)[j]);
  }

  /** GetFloatMed: None is the empty-array error. */
  function MedianReal(s: seq<real>): Option<real> {
    if s == [] then None
    else
      SortedRealsSorts(s);
      var t := SortedReals(s);
      if |s| % 2 == 0 then Some((t[|s| / 2 - 1] + t[|s| / 2]) / 2.0)
      else Some(t[|s| / 2])
  }

  ghost predicate Kth(s: seq<real>, k: int, v: real) {
    Ranked(s, v, AtMost, k, |s| - 1 - k)
  }

  lemma RealSortedIsKth(s: seq<real>, k: nat)
    requires k < |s|
    ensures |SortedReals(s)| == |s| && Kth(s, k, SortedReals(s)[k])
  {
    assert TotalPreorder(AtMost);
    SortByRanks(s, AtMost, k);
  }

  lemma RealKthIsUnique(s: seq<real>, k: int, v: real, w: real)
    requires Kth(s, k, v) && Kth(s, k, w)
    ensures v == w
  {
    assert TotalPreorder(AtMost);
    RankDetermines(s, v, w, AtMost, k);
  }

  /** The float median by rank: the mean of the two middle elements, which are one for an odd number. */
  lemma MedianRealIsMiddle(s: seq<real>, a: real, b: real)
    requires s != [] && Kth(s, (|s| - 1) / 2, a) && Kth(s, |s| / 2, b)
    ensures MedianReal(s) == Some((a + b) / 2.0)
  {
    var i, j := (|s| - 1) / 2, |s| / 2;
    RealSortedIsKth(s, i);
    RealSortedIsKth(s, j);
    RealKthIsUnique(s, i, a, SortedReals(s)[i]);
    RealKthIsUnique(s, j, b, SortedReals(s)[j]);
  }

  lemma RealMiddlesExist(s: seq<real>) returns (a: real, b: real)
    requires s != []
    ensures Kth(s, (|s| - 1) / 2, a) && Kth(s, |s| / 2, b)
  {
    RealSortedIsKth(s, (|s| - 1) / 2);
    RealSortedIsKth(s, |s| / 2);
    a, b := SortedReals(s)[(|s| - 1) / 2], SortedReals(s)[|s| / 2];
  }

  lemma MedianRealInRange(s: seq<real>, lo: real, hi: real)
    requires s != []
    requires forall i :: 0 <= i < |s| ==> lo <= s[i] <= hi
    ensures MedianReal(s).Some? && lo <= MedianReal(s).value <= hi
  {
    SortedRealsSorts(s);
    var t := SortedReals(s);
    forall k | 0 <= k < |t| ensures lo <= t[k] <= hi {
      assert t[k] in multiset(s);
    }
  }
}
