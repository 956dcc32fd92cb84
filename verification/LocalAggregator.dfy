/**
 * The local price of one node (node/pkg/fetcher/localaggregator.go and utils.go), with floats
 * as reals: outlier removal, the split into volume-weighted and median feeds, and the
 * weighted mean of the two prices. stats.QuartileOutliers and slices.SortFunc are foreign:
 * their results are parameters that meet what those libraries promise.
 */
module LocalAggregator {
  import opened Wrappers
  import opened Median

  datatype Feed = Feed(id: int, value: real, volume: real)

  const MEDIAN_RATIO: real := 0.05

  function Values(feeds: seq<Feed>): (vs: seq<real>)
    ensures |vs| == |feeds| && forall i :: 0 <= i < |feeds| ==> vs[i] == feeds[i].value
  {
    if feeds == [] then [] else Values(feeds[..|feeds| - 1]) + [feeds[|feeds| - 1].value]
  }

  // ---------------------------------------------------------------- outlier removal

  /** The feeds whose value is not listed, in order. */
  function Keep(feeds: seq<Feed>, gone: seq<real>): (kept: seq<Feed>)
    ensures |kept| <= |feeds|
  {
    if feeds == [] then []
    else
      var rest := Keep(feeds[..|feeds| - 1], gone);
      if feeds[|feeds| - 1].value in gone then rest else rest + [feeds[|feeds| - 1]]
  }

  /** slices.DeleteFunc on the first n elements: moves the survivors to the front. */
  method DeleteFunc(a: array<Feed>, n: nat, gone: seq<real>) returns (m: nat)
    requires n <= a.Length
    modifies a
    ensures m <= n && a[..m] == Keep(old(a[..n]), gone)
    ensures a[n..] == old(a[n..])
  {
    ghost var was := a[..];
    m := 0;
    for i := 0 to n
      invariant m <= i
      invariant a[..m] == Keep(was[..i], gone)
      invariant forall k :: i <= k < a.Length ==> a[k] == was[k]
    {
      assert was[..i + 1][..i] == was[..i];
      if a[i].value !in gone {
        ghost var kept := a[..m];
        a[m] := a[i];
        m := m + 1;
        assert a[..m] == kept + [was[i]];
      }
    }
    assert was[..n] == old(a[..n]);
  }

  function Dist(median: real, v: real): real {
    if v < median then median - v else v - median
  }

  /** Ordered as the two SortFunc calls order: farthest from the median first. */
  ghost predicate FarthestFirst(s: seq<real>, median: real) {
    forall i, j :: 0 <= i < j < |s| ==> Dist(median, s[i]) >= Dist(median, s[j])
  }

  /** Outliers go by value: each class holds all occurrences of its values, and no value is in both. */
  ghost predicate OutliersOf(values: seq<real>, mild: seq<real>, extreme: seq<real>) {
    && (forall v :: v in mild ==> multiset(mild)[v] == multiset(values)[v])
    && (forall v :: v in extreme ==> multiset(extreme)[v] == multiset(values)[v])
    && (forall v :: v in mild ==> v !in extreme)
  }

  function Min(a: nat, b: nat): nat { if a < b then a else b }

  /** How many of each class are chosen: extreme ones first, n/4 in all. */
  function ChosenExtreme(n: nat, extreme: seq<real>): nat {
    Min(n / 4, |extreme|)
  }

  function ChosenMild(n: nat, mild: seq<real>, extreme: seq<real>): nat {
    Min(n / 4 - ChosenExtreme(n, extreme), |mild|)
  }

  function Filtered(feeds: seq<Feed>, mild: seq<real>, extreme: seq<real>): seq<Feed> {
    if |feeds| < 5 then feeds
    else Keep(Keep(feeds, extreme[..ChosenExtreme(|feeds|, extreme)]), mild[..ChosenMild(|feeds|, mild, extreme)])
  }

  /** Deletes the first `limit` of one sorted class of outliers, or all of it. */
  method RemoveFarthest(a: array<Feed>, n: nat, sorted: seq<real>, limit: nat) returns (m: nat, taken: nat)
    requires n <= a.Length
    modifies a
    ensures m <= n && taken == Min(limit, |sorted|) && a[..m] == Keep(old(a[..n]), sorted[..taken])
  {
    m, taken := n, 0;
    if |sorted| > 0 {
      taken := Min(limit, |sorted|);
      m := DeleteFunc(a, n, sorted[..taken]);
    } else {
      KeepNothing(a[..n]);
      assert sorted[..0] == [];
    }
  }

  /** filterOutliers; mild and extreme arrive sorted. Returns the length of the surviving prefix. */
  method FilterOutliers(a: array<Feed>, mild: seq<real>, extreme: seq<real>) returns (m: nat)
    modifies a
    ensures m <= a.Length && a[..m] == Filtered(old(a[..]), mild, extreme)
  {
    ghost var was := a[..];
    assert a[..a.Length] == was;
    if a.Length < 5 {
      return a.Length;
    }
    if |mild| == 0 && |extreme| == 0 {
      NothingFiltered(was, mild, extreme);
      return a.Length;
    }
    var maxOutliersToRemove := a.Length / 4;
    var taken;
    m, taken := RemoveFarthest(a, a.Length, extreme, maxOutliersToRemove);
    if taken < maxOutliersToRemove {
      m, taken := RemoveFarthest(a, m, mild, maxOutliersToRemove - taken);
    } else {
      KeepNothing(a[..m]);
      assert mild[..0] == [];
    }
  }

  lemma NothingFiltered(feeds: seq<Feed>, mild: seq<real>, extreme: seq<real>)
    requires mild == [] && extreme == []
    ensures Filtered(feeds, mild, extreme) == feeds
  {
    KeepNothing(feeds);
  }

  lemma {:induction false} KeepNothing(feeds: seq<Feed>)
    ensures Keep(feeds, []) == feeds
  {
    if feeds != [] {
      KeepNothing(feeds[..|feeds| - 1]);
    }
  }

  /** The values a Keep deletes. */
  function Deleted(values: seq<real>, gone: seq<real>): seq<real> {
    if values == [] then []
    else
      var rest := Deleted(values[..|values| - 1], gone);
      if values[|values| - 1] in gone then rest + [values[|values| - 1]] else rest
  }

  lemma {:induction false} DeletedCounts(values: seq<real>, gone: seq<real>, v: real)
    ensures multiset(Deleted(values, gone))[v] == if v in gone then multiset(values)[v] else 0
  {
    if values != [] {
      DeletedCounts(values[..|values| - 1], gone, v);
      assert values == values[..|values| - 1] + [values[|values| - 1]];
    }
  }

  lemma {:induction false} KeepAndDeleted(feeds: seq<Feed>, gone: seq<real>)
    ensures |Keep(feeds, gone)| + |Deleted(Values(feeds), gone)| == |feeds|
  {
    if feeds != [] {
      KeepAndDeleted(feeds[..|feeds| - 1], gone);
      assert Values(feeds)[..|feeds| - 1] == Values(feeds[..|feeds| - 1]);
    }
  }

  lemma {:induction false} KeepTwice(feeds: seq<Feed>, g1: seq<real>, g2: seq<real>)
    ensures Keep(Keep(feeds, g1), g2) == Keep(feeds, g1 + g2)
  {
    if feeds != [] {
      var front, last := feeds[..|feeds| - 1], feeds[|feeds| - 1];
      KeepTwice(front, g1, g2);
      if last.value !in g1 {
        assert (Keep(front, g1) + [last])[..|Keep(front, g1)|] == Keep(front, g1);
      }
    }
  }

  /** The positions of the feeds that survive. */
  function Survivors(feeds: seq<Feed>, gone: seq<real>): (at: seq<nat>)
    ensures forall i :: 0 <= i < |at| ==> at[i] < |feeds|
  {
    if feeds == [] then []
    else
      var n := |feeds| - 1;
      var rest := Survivors(feeds[..n], gone);
      if feeds[n].value in gone then rest else rest + [n]
  }

  /** Survivors keep their order and are exactly the feeds whose value is not listed. */
  lemma {:induction false} SurvivorsInOrder(feeds: seq<Feed>, gone: seq<real>)
    ensures var at := Survivors(feeds, gone);
            && |at| == |Keep(feeds, gone)|
            && (forall i :: 0 <= i < |at| ==> Keep(feeds, gone)[i] == feeds[at[i]] && feeds[at[i]].value !in gone)
            && (forall i, j :: 0 <= i < j < |at| ==> at[i] < at[j])
  {
    if feeds != [] {
      SurvivorsInOrder(feeds[..|feeds| - 1], gone);
    }
  }

  lemma {:induction false} NoOtherIsGone(feeds: seq<Feed>, gone: seq<real>, k: nat)
    requires k < |feeds| && feeds[k].value !in gone
    ensures k in Survivors(feeds, gone)
  {
    if k < |feeds| - 1 {
      NoOtherIsGone(feeds[..|feeds| - 1], gone, k);
    }
  }

  /** Some value stands both before and after position k. */
  ghost predicate Straddles(s: seq<real>, k: nat)
    requires k <= |s|
  {
    exists i, j :: 0 <= i < k <= j < |s| && s[i] == s[j]
  }

  lemma SplitCounts(s: seq<real>, k: nat, v: real)
    requires k <= |s|
    ensures multiset(s)[v] == multiset(s[..k])[v] + multiset(s[k..])[v]
  {
    assert s == s[..k] + s[k..];
  }

  /** A chosen prefix holds all occurrences of its values exactly when no value straddles its end. */
  lemma PrefixIsFull(s: seq<real>, k: nat)
    requires k <= |s|
    ensures Straddles(s, k) <==> exists v :: v in s[..k] && multiset(s[..k])[v] != multiset(s)[v]
  {
    forall v ensures multiset(s)[v] == multiset(s[..k])[v] + multiset(s[k..])[v] { SplitCounts(s, k, v); }
    if i, j :| 0 <= i < k <= j < |s| && s[i] == s[j] {
      assert s[i] == s[..k][i] && s[j] == s[k..][j - k];
      assert s[i] in multiset(s[k..]) && s[i] in s[..k];
    }
    if v :| v in s[..k] && multiset(s[..k])[v] != multiset(s)[v] {
      assert v in multiset(s[k..]);
      var i :| 0 <= i < k && s[..k][i] == v;
      var j :| 0 <= j < |s[k..]| && s[k..][j] == v;
      assert s[i] == s[k + j];
    }
  }

  /** With gone a sub-multiset of the values: at least |gone| go, and exactly |gone| when it is full. */
  lemma DeletedAtLeast(values: seq<real>, gone: seq<real>)
    requires multiset(gone) <= multiset(values)
    ensures |Deleted(values, gone)| >= |gone|
    ensures |Deleted(values, gone)| == |gone| <==> forall v :: v in gone ==> multiset(gone)[v] == multiset(values)[v]
  {
    var d, g := multiset(Deleted(values, gone)), multiset(gone);
    forall v ensures d[v] == if v in gone then multiset(values)[v] else 0 { DeletedCounts(values, gone, v); }
    forall v ensures g[v] <= d[v] { assert v in gone <==> v in g; }
    assert g <= d && |d| == |g| + |d - g|;
    if |d| == |g| {
      assert d - g == multiset{};
      forall v | v in gone ensures g[v] == multiset(values)[v] { assert (d - g)[v] == d[v] - g[v]; }
    }
    if forall v :: v in gone ==> g[v] == multiset(values)[v] {
      forall v ensures d[v] == g[v] { assert v in gone <==> v in g; }
      assert d == g;
    }
  }

  lemma ChosenCounts(mild: seq<real>, extreme: seq<real>, e: nat, m: nat, v: real)
    requires e <= |extreme| && m <= |mild|
    ensures multiset(extreme[..e] + mild[..m])[v] == multiset(extreme[..e])[v] + multiset(mild[..m])[v]
    ensures multiset(extreme[..e])[v] <= multiset(extreme)[v] && multiset(mild[..m])[v] <= multiset(mild)[v]
  {
    SplitCounts(extreme, e, v);
    SplitCounts(mild, m, v);
  }

  /**
   * Outlier removal is bounded: at most n/4 feeds go, exactly when no value stands on both
   * sides of the cut through its class. Deletion is by value, so a value that does drags
   * its other occurrences along.
   */
  lemma RemovalBound(feeds: seq<Feed>, mild: seq<real>, extreme: seq<real>)
    requires |feeds| >= 5 && OutliersOf(Values(feeds), mild, extreme)
    ensures |feeds| - |Filtered(feeds, mild, extreme)| <= |feeds| / 4 <==>
              && !Straddles(extreme, ChosenExtreme(|feeds|, extreme))
              && !Straddles(mild, ChosenMild(|feeds|, mild, extreme))
  {
    var n, values := |feeds|, Values(feeds);
    var e, m := ChosenExtreme(n, extreme), ChosenMild(n, mild, extreme);
    var gone := extreme[..e] + mild[..m];
    KeepTwice(feeds, extreme[..e], mild[..m]);
    KeepAndDeleted(feeds, gone);
    ChosenAreValues(values, mild, extreme, e, m);
    DeletedAtLeast(values, gone);
    FullIffNoStraddle(values, mild, extreme, e, m);
    assert Straddles(extreme, e) ==> e < |extreme|;
    assert Straddles(mild, m) ==> m < |mild|;
  }

  lemma ChosenAreValues(values: seq<real>, mild: seq<real>, extreme: seq<real>, e: nat, m: nat)
    requires e <= |extreme| && m <= |mild| && OutliersOf(values, mild, extreme)
    ensures multiset(extreme[..e] + mild[..m]) <= multiset(values)
  {
    var gone := extreme[..e] + mild[..m];
    forall v ensures multiset(gone)[v] <= multiset(values)[v] {
      ChosenCounts(mild, extreme, e, m, v);
      assert v in extreme <==> v in multiset(extreme);
      assert v in mild <==> v in multiset(mild);
    }
  }

  lemma FullIffNoStraddle(values: seq<real>, mild: seq<real>, extreme: seq<real>, e: nat, m: nat)
    requires e <= |extreme| && m <= |mild| && OutliersOf(values, mild, extreme)
    ensures (forall v :: v in extreme[..e] + mild[..m] ==> multiset(extreme[..e] + mild[..m])[v] == multiset(values)[v])
            <==> !Straddles(extreme, e) && !Straddles(mild, m)
  {
    var gone := extreme[..e] + mild[..m];
    PrefixIsFull(extreme, e);
    PrefixIsFull(mild, m);
    forall v ensures multiset(gone)[v] == multiset(extreme[..e])[v] + multiset(mild[..m])[v] {
      ChosenCounts(mild, extreme, e, m, v);
    }
    forall v | v in extreme[..e]
      ensures v in gone && v in extreme && multiset(mild[..m])[v] == 0 && multiset(extreme)[v] == multiset(values)[v]
    {
      assert v !in mild;
      assert v !in multiset(mild[..m]);
    }
    forall v | v in mild[..m]
      ensures v in gone && v in mild && multiset(extreme[..e])[v] == 0 && multiset(mild)[v] == multiset(values)[v]
    {
      assert v !in extreme;
      assert v !in multiset(extreme[..e]);
    }
  }

  ghost predicate Distinct(s: seq<real>) {
    forall i, j :: 0 <= i < j < |s| ==> s[i] != s[j]
  }

  /** Pairwise distinct values never straddle, so at most n/4 feeds go. */
  lemma DistinctValuesBound(feeds: seq<Feed>, mild: seq<real>, extreme: seq<real>)
    requires |feeds| >= 5 && OutliersOf(Values(feeds), mild, extreme) && Distinct(Values(feeds))
    ensures |feeds| - |Filtered(feeds, mild, extreme)| <= |feeds| / 4
  {
    NoRepeatsNoStraddle(Values(feeds), extreme, ChosenExtreme(|feeds|, extreme));
    NoRepeatsNoStraddle(Values(feeds), mild, ChosenMild(|feeds|, mild, extreme));
    RemovalBound(feeds, mild, extreme);
  }

  lemma {:induction false} DistinctCount(s: seq<real>, v: real)
    requires Distinct(s)
    ensures multiset(s)[v] <= 1 && (v !in s ==> multiset(s)[v] == 0)
  {
    if s != [] {
      var front := s[..|s| - 1];
      DistinctCount(front, v);
      assert s == front + [s[|s| - 1]];
      assert s[|s| - 1] !in front;
    }
  }

  lemma NoRepeatsNoStraddle(values: seq<real>, s: seq<real>, k: nat)
    requires k <= |s| && Distinct(values) && forall v :: v in s ==> multiset(s)[v] == multiset(values)[v]
    ensures !Straddles(s, k)
  {
    PrefixIsFull(s, k);
    forall v | v in s[..k] ensures multiset(s[..k])[v] == multiset(s)[v] {
      SplitCounts(s, k, v);
      DistinctCount(values, v);
      assert v in s;
      assert v in multiset(s[..k]);
    }
  }

  /** Some feed that is left has the value v. */
  ghost predicate Survives(left: seq<Feed>, v: real) {
    exists i :: 0 <= i < |left| && left[i].value == v
  }

  /** A value of some feed survives exactly when it is not listed, and nothing else does. */
  lemma SurvivesIfUnlisted(feeds: seq<Feed>, listed: seq<real>, v: real)
    ensures Survives(Keep(feeds, listed), v) <==> v in Values(feeds) && v !in listed
  {
    SurvivorsInOrder(feeds, listed);
    var at, kept := Survivors(feeds, listed), Keep(feeds, listed);
    if i :| 0 <= i < |kept| && kept[i].value == v {
      assert Values(feeds)[at[i]] == v;
    }
    if v !in listed && v in Values(feeds) {
      var k :| 0 <= k < |feeds| && Values(feeds)[k] == v;
      NoOtherIsGone(feeds, listed, k);
      var i :| 0 <= i < |at| && at[i] == k;
      assert kept[i].value == v;
    }
  }

  /**
   * Outlier removal is fair: only outliers go; a mild one goes only if every extreme one
   * does; and in each class no value stays that is strictly farther from the median than
   * one that goes.
   */
  lemma RemovalIsFair(feeds: seq<Feed>, mild: seq<real>, extreme: seq<real>, median: real, gone: real, stays: real)
    requires |feeds| >= 5 && FarthestFirst(mild, median) && FarthestFirst(extreme, median)
    requires OutliersOf(Values(feeds), mild, extreme)
    requires gone in Values(feeds) && !Survives(Filtered(feeds, mild, extreme), gone)
    requires Survives(Filtered(feeds, mild, extreme), stays)
    ensures gone in mild || gone in extreme
    ensures gone in mild ==> stays !in extreme
    ensures (gone in extreme && stays in extreme) || (gone in mild && stays in mild) ==>
              Dist(median, stays) <= Dist(median, gone)
  {
    var e, m := ChosenExtreme(|feeds|, extreme), ChosenMild(|feeds|, mild, extreme);
    var es, ms := extreme[..e], mild[..m];
    KeepTwice(feeds, es, ms);
    SurvivesIfUnlisted(feeds, es + ms, gone);
    SurvivesIfUnlisted(feeds, es + ms, stays);
    ListedIsChosen(mild, extreme, e, m, gone);
    if gone in extreme && stays in extreme { PrefixIsFarther(extreme, e, median, gone, stays); }
    if gone in mild && stays in mild { PrefixIsFarther(mild, m, median, gone, stays); }
  }

  /** A listed value is chosen from its own class, and a chosen mild one means all extreme ones are. */
  lemma ListedIsChosen(mild: seq<real>, extreme: seq<real>, e: nat, m: nat, v: real)
    requires e <= |extreme| && m <= |mild| && (m > 0 ==> e == |extreme|) && v in extreme[..e] + mild[..m]
    requires forall x :: x in mild ==> x !in extreme
    ensures v in mild || v in extreme
    ensures v in mild ==> v in mild[..m] && extreme[..e] == extreme
    ensures v in extreme ==> v in extreme[..e]
  {
    assert v in extreme[..e] ==> v in extreme;
    assert v in mild[..m] ==> v in mild;
  }

  lemma PrefixIsFarther(s: seq<real>, k: nat, median: real, gone: real, stays: real)
    requires k <= |s| && FarthestFirst(s, median) && gone in s[..k] && stays in s && stays !in s[..k]
    ensures Dist(median, stays) <= Dist(median, gone)
  {
    assert s == s[..k] + s[k..];
    assert stays in s[k..];
    var i :| 0 <= i < k && s[..k][i] == gone;
    var j :| 0 <= j < |s[k..]| && s[k..][j] == stays;
    assert s[i] == gone && s[k + j] == stays;
  }

  function Flat(n: nat, v: real): seq<Feed> {
    if n == 0 then [] else Flat(n - 1, v) + [Feed(n, v, 1.0)]
  }

  lemma {:induction false} FlatCounts(n: nat, v: real, w: real)
    ensures |Flat(n, v)| == n && multiset(Values(Flat(n, v)))[w] == if w == v then n else 0
  {
    if n > 0 {
      FlatCounts(n - 1, v, w);
      assert Flat(n, v)[..n - 1] == Flat(n - 1, v);
    }
  }

  lemma {:induction false} ValuesConcat(a: seq<Feed>, b: seq<Feed>)
    ensures Values(a + b) == Values(a) + Values(b)
  {
  }

  function Tied(): seq<Feed> {
    Flat(2, 0.0) + Flat(8, 50.0) + Flat(2, 100.0)
  }

  lemma TiedCounts(v: real)
    ensures |Tied()| == 12
    ensures multiset(Values(Tied()))[v] == if v == 0.0 || v == 100.0 then 2 else if v == 50.0 then 8 else 0
  {
    var low, mid, high := Flat(2, 0.0), Flat(8, 50.0), Flat(2, 100.0);
    ValuesConcat(low + mid, high);
    ValuesConcat(low, mid);
    FlatCounts(2, 0.0, v);
    FlatCounts(8, 50.0, v);
    FlatCounts(2, 100.0, v);
  }

  lemma TiedOutliers(values: seq<real>, extreme: seq<real>)
    requires extreme == [0.0, 0.0, 100.0, 100.0]
    requires multiset(values)[0.0] == 2 && multiset(values)[100.0] == 2
    ensures OutliersOf(values, [], extreme) && FarthestFirst(extreme, 50.0)
  {
    assert multiset(extreme) == multiset{0.0, 0.0, 100.0, 100.0};
    assert Dist(50.0, 0.0) == 50.0 == Dist(50.0, 100.0);
  }

  /** Twelve feeds, two at 0, two at 100, the rest at 50: four go where three are the limit. */
  lemma TiesExceedTheBound() returns (feeds: seq<Feed>, extreme: seq<real>)
    ensures |feeds| == 12 && OutliersOf(Values(feeds), [], extreme) && FarthestFirst(extreme, 50.0)
    ensures |feeds| - |Filtered(feeds, [], extreme)| > |feeds| / 4
  {
    feeds, extreme := Tied(), [0.0, 0.0, 100.0, 100.0];
    TiedCounts(0.0);
    TiedCounts(100.0);
    TiedOutliers(Values(feeds), extreme);
    assert Straddles(extreme, 3) by { assert extreme[2] == extreme[3]; }
    RemovalBound(feeds, [], extreme);
  }

  // ---------------------------------------------------------------- the local price

  function Weighted(feeds: seq<Feed>): seq<Feed> {
    if feeds == [] then []
    else Weighted(feeds[..|feeds| - 1]) + (if feeds[|feeds| - 1].volume > 0.0 then [feeds[|feeds| - 1]] else [])
  }

  function Unweighted(feeds: seq<Feed>): seq<Feed> {
    if feeds == [] then []
    else Unweighted(feeds[..|feeds| - 1]) + (if feeds[|feeds| - 1].volume > 0.0 then [] else [feeds[|feeds| - 1]])
  }

  method PartitionFeeds(feeds: seq<Feed>) returns (weighted: seq<Feed>, unweighted: seq<Feed>)
    ensures weighted == Weighted(feeds) && unweighted == Unweighted(feeds)
  {
    weighted, unweighted := [], [];
    for i := 0 to |feeds|
      invariant weighted == Weighted(feeds[..i]) && unweighted == Unweighted(feeds[..i])
    {
      assert feeds[..i + 1][..i] == feeds[..i];
      if feeds[i].volume > 0.0 {
        weighted := weighted + [feeds[i]];
      } else {
        unweighted := unweighted + [feeds[i]];
      }
    }
    assert feeds[..|feeds|] == feeds;
  }

  function Turnover(feeds: seq<Feed>): real {
    if feeds == [] then 0.0
    else Turnover(feeds[..|feeds| - 1]) + feeds[|feeds| - 1].value * feeds[|feeds| - 1].volume
  }

  function Volume(feeds: seq<Feed>): real {
    if feeds == [] then 0.0 else Volume(feeds[..|feeds| - 1]) + feeds[|feeds| - 1].volume
  }

  /** calculateVWAP: 0 for no feeds, None for its zero-volume error. */
  function Vwap(feeds: seq<Feed>): Option<real> {
    if feeds == [] then Some(0.0)
    else if Volume(feeds) == 0.0 then None
    else Some(Turnover(feeds) / Volume(feeds))
  }

  method CalculateVWAP(feeds: seq<Feed>) returns (r: Option<real>)
    ensures r == Vwap(feeds)
  {
    if |feeds| == 0 {
      return Some(0.0);
    }
    var totalPrice, totalVolume := 0.0, 0.0;
    for i := 0 to |feeds|
      invariant totalPrice == Turnover(feeds[..i]) && totalVolume == Volume(feeds[..i])
    {
      assert feeds[..i + 1][..i] == feeds[..i];
      totalPrice := totalPrice + feeds[i].value * feeds[i].volume;
      totalVolume := totalVolume + feeds[i].volume;
    }
    assert feeds[..|feeds|] == feeds;
    if totalVolume == 0.0 {
      return None;
    }
    return Some(totalPrice / totalVolume);
  }

  /** calculateMedian: 0 for no feeds. */
  function MedianPrice(feeds: seq<Feed>): real {
    var m := MedianReal(Values(feeds));
    if m.None? then 0.0 else m.value
  }

  function AggregatedPrice(vwap: real, median: real): real {
    if vwap == 0.0 then median
    else if median == 0.0 then vwap
    else vwap * (1.0 - MEDIAN_RATIO) + median * MEDIAN_RATIO
  }

  /** processVolumeWeightedFeeds after the filter: the value handed on, None for the error. */
  function VolumeWeightedPrice(feeds: seq<Feed>): Option<real> {
    var vwap := Vwap(Weighted(feeds));
    if vwap.None? then None else Some(AggregatedPrice(vwap.value, MedianPrice(Unweighted(feeds))))
  }

  ghost predicate PricedWithin(feeds: seq<Feed>, lo: real, hi: real) {
    forall i :: 0 <= i < |feeds| ==> lo <= feeds[i].value <= hi
  }

  lemma {:induction false} PartitionWithin(feeds: seq<Feed>, lo: real, hi: real)
    requires PricedWithin(feeds, lo, hi)
    ensures PricedWithin(Weighted(feeds), lo, hi) && PricedWithin(Unweighted(feeds), lo, hi)
    ensures forall i :: 0 <= i < |Weighted(feeds)| ==> Weighted(feeds)[i].volume > 0.0
    ensures |Weighted(feeds)| + |Unweighted(feeds)| == |feeds|
  {
    if feeds != [] { PartitionWithin(feeds[..|feeds| - 1], lo, hi); }
  }

  /** One more trade: its value times its volume, added to both sides of the bounds. */
  lemma TradeWithin(value: real, volume: real, lo: real, hi: real, v: real, t: real)
    requires lo <= value <= hi && volume > 0.0 && lo * v <= t <= hi * v
    ensures lo * (v + volume) <= t + value * volume <= hi * (v + volume)
  {
    assert lo * (v + volume) == lo * v + lo * volume;
    assert hi * (v + volume) == hi * v + hi * volume;
    ScaledOrder(lo, value, volume);
    ScaledOrder(value, hi, volume);
  }

  /** The turnover lies between the extreme prices times the volume, and the volume is positive. */
  lemma {:induction false} TurnoverWithin(feeds: seq<Feed>, lo: real, hi: real)
    requires PricedWithin(feeds, lo, hi) && forall i :: 0 <= i < |feeds| ==> feeds[i].volume > 0.0
    ensures lo * Volume(feeds) <= Turnover(feeds) <= hi * Volume(feeds)
    ensures feeds == [] <==> Volume(feeds) <= 0.0
  {
    if feeds != [] {
      var front, last := feeds[..|feeds| - 1], feeds[|feeds| - 1];
      TurnoverWithin(front, lo, hi);
      TradeWithin(last.value, last.volume, lo, hi, Volume(front), Turnover(front));
      if front == [] { assert Volume(front) == 0.0; }
    }
  }

  lemma ScaledOrder(a: real, b: real, v: real)
    requires v > 0.0
    ensures a * v <= b * v <==> a <= b
  {
  }

  lemma QuotientWithin(t: real, v: real, lo: real, hi: real)
    requires v > 0.0 && lo * v <= t <= hi * v
    ensures lo <= t / v <= hi
  {
    var q := t / v;
    assert q * v == t;
    ScaledOrder(lo, q, v);
    ScaledOrder(q, hi, v);
  }

  lemma VwapWithin(feeds: seq<Feed>, lo: real, hi: real)
    requires PricedWithin(feeds, lo, hi) && forall i :: 0 <= i < |feeds| ==> feeds[i].volume > 0.0
    ensures Vwap(feeds).Some?
    ensures feeds != [] ==> lo <= Vwap(feeds).value <= hi
  {
    TurnoverWithin(feeds, lo, hi);
    if feeds != [] { QuotientWithin(Turnover(feeds), Volume(feeds), lo, hi); }
  }

  lemma MedianWithin(feeds: seq<Feed>, lo: real, hi: real)
    requires PricedWithin(feeds, lo, hi)
    ensures feeds != [] ==> lo <= MedianPrice(feeds) <= hi
    ensures feeds == [] ==> MedianPrice(feeds) == 0.0
  {
    if feeds != [] { MedianRealInRange(Values(feeds), lo, hi); }
  }

  lemma EmptyAverage(feeds: seq<Feed>)
    ensures feeds == [] ==> Vwap(feeds) == Some(0.0)
  {
  }

  /** An average and a median, each 0 for want of feeds or within the bounds, and their mix. */
  lemma AggregatedWithin(vwap: real, median: real, lo: real, hi: real)
    requires 0.0 < lo && (vwap == 0.0 || lo <= vwap <= hi) && (median == 0.0 || lo <= median <= hi)
    ensures if vwap == 0.0 && median == 0.0 then AggregatedPrice(vwap, median) == 0.0
            else lo <= AggregatedPrice(vwap, median) <= hi
  {
  }

  /** The price of the feeds that survive the filter. */
  lemma VolumeWeightedWithin(feeds: seq<Feed>, lo: real, hi: real)
    requires 0.0 < lo && PricedWithin(feeds, lo, hi)
    ensures VolumeWeightedPrice(feeds).Some?
    ensures var price := VolumeWeightedPrice(feeds).value; if feeds == [] then price == 0.0 else lo <= price <= hi
  {
    PartitionWithin(feeds, lo, hi);
    VwapWithin(Weighted(feeds), lo, hi);
    MedianWithin(Unweighted(feeds), lo, hi);
    EmptyAverage(Weighted(feeds));
    AggregatedWithin(Vwap(Weighted(feeds)).value, MedianPrice(Unweighted(feeds)), lo, hi);
  }

  lemma {:induction false} KeepWithin(feeds: seq<Feed>, gone: seq<real>, lo: real, hi: real)
    requires PricedWithin(feeds, lo, hi)
    ensures PricedWithin(Keep(feeds, gone), lo, hi)
  {
    if feeds != [] { KeepWithin(feeds[..|feeds| - 1], gone, lo, hi); }
  }

  /** processFeeds: the price a job computes, by kind of pair. */
  function LocalPrice(isFX: bool, feeds: seq<Feed>, mild: seq<real>, extreme: seq<real>): Option<real> {
    if isFX then Some(MedianPrice(feeds)) else VolumeWeightedPrice(Filtered(feeds, mild, extreme))
  }

  /** streamLocalAggregate: a zero price is not streamed, others are truncated to an integer. */
  function StreamedPrice(price: real): Option<int> {
    if price == 0.0 then None
    else if price > 0.0 then Some(price.Floor)
    else Some(-((-price).Floor))
  }

  /** The feeds the price is computed from. */
  function Used(isFX: bool, feeds: seq<Feed>, mild: seq<real>, extreme: seq<real>): seq<Feed> {
    if isFX then feeds else Filtered(feeds, mild, extreme)
  }

  lemma UsedWithin(isFX: bool, feeds: seq<Feed>, mild: seq<real>, extreme: seq<real>, lo: real, hi: real)
    requires PricedWithin(feeds, lo, hi)
    ensures PricedWithin(Used(isFX, feeds, mild, extreme), lo, hi)
  {
    if !isFX && |feeds| >= 5 {
      var e, m := ChosenExtreme(|feeds|, extreme), ChosenMild(|feeds|, mild, extreme);
      KeepWithin(feeds, extreme[..e], lo, hi);
      KeepWithin(Keep(feeds, extreme[..e]), mild[..m], lo, hi);
    }
  }

  /**
   * The local price stays in range: with positive prices in [lo, hi] the zero-volume error
   * cannot occur, the price is 0 - and then not streamed - exactly when no feed is left after
   * the filter, and otherwise it lies in [lo, hi] and what is streamed between lo rounded
   * down and hi.
   */
  lemma LocalPriceInRange(isFX: bool, feeds: seq<Feed>, mild: seq<real>, extreme: seq<real>, lo: real, hi: real)
    requires 0.0 < lo && PricedWithin(feeds, lo, hi)
    ensures LocalPrice(isFX, feeds, mild, extreme).Some?
    ensures var price := LocalPrice(isFX, feeds, mild, extreme).value;
            if Used(isFX, feeds, mild, extreme) == [] then price == 0.0 && StreamedPrice(price).None?
            else && lo <= price <= hi
                 && StreamedPrice(price).Some?
                 && lo.Floor <= StreamedPrice(price).value && StreamedPrice(price).value as real <= hi
  {
    UsedWithin(isFX, feeds, mild, extreme, lo, hi);
    if isFX { MedianWithin(feeds, lo, hi); } else { VolumeWeightedWithin(Filtered(feeds, mild, extreme), lo, hi); }
  }

  lemma OrdinaryValueSurvives(feeds: seq<Feed>, mild: seq<real>, extreme: seq<real>, v: real)
    requires |feeds| >= 5 && v in Values(feeds) && v !in mild && v !in extreme
    ensures Survives(Filtered(feeds, mild, extreme), v) && Filtered(feeds, mild, extreme) != []
  {
    var e, m := ChosenExtreme(|feeds|, extreme), ChosenMild(|feeds|, mild, extreme);
    KeepTwice(feeds, extreme[..e], mild[..m]);
    SurvivesIfUnlisted(feeds, extreme[..e] + mild[..m], v);
  }

  /**
   * Some feed is left when there are one to four feeds, for FX pairs, when the values are
   * distinct, and whenever some value is no outlier, as the values between the quartiles are.
   */
  lemma SomeFeedIsUsed(isFX: bool, feeds: seq<Feed>, mild: seq<real>, extreme: seq<real>)
    requires feeds != [] && (isFX || |feeds| < 5 || OutliersOf(Values(feeds), mild, extreme))
    requires || isFX || |feeds| < 5 || Distinct(Values(feeds))
             || (exists v :: v in Values(feeds) && v !in mild && v !in extreme)
    ensures Used(isFX, feeds, mild, extreme) != []
  {
    if !isFX && |feeds| >= 5 {
      if v :| v in Values(feeds) && v !in mild && v !in extreme {
        OrdinaryValueSurvives(feeds, mild, extreme, v);
      } else {
        DistinctValuesBound(feeds, mild, extreme);
      }
    }
  }
}
