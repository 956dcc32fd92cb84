/**
 * What the local price is: the volume-weighted average balances the trades, the median is the
 * middle by rank, the two are mixed nineteen to one, and the filter removes all it may.
 */
module LocalPrice {
  import opened Wrappers
  import opened Median
  import opened LocalAggregator

  // ---------------------------------------------------------------- the split by volume

  lemma {:induction false} WeightedCounts(feeds: seq<Feed>, f: Feed)
    ensures multiset(Weighted(feeds))[f] == if f.volume > 0.0 then multiset(feeds)[f] else 0
  {
    if feeds != [] {
      var front, last := feeds[..|feeds| - 1], feeds[|feeds| - 1];
      WeightedCounts(front, f);
      CountLast(feeds, f);
      if last.volume > 0.0 {
        CountMore(Weighted(front), last, f);
      } else {
        assert Weighted(feeds) == Weighted(front);
      }
    }
  }

  lemma {:induction false} UnweightedCounts(feeds: seq<Feed>, f: Feed)
    ensures multiset(Unweighted(feeds))[f] == if f.volume > 0.0 then 0 else multiset(feeds)[f]
  {
    if feeds != [] {
      var front, last := feeds[..|feeds| - 1], feeds[|feeds| - 1];
      UnweightedCounts(front, f);
      CountLast(feeds, f);
      if last.volume > 0.0 {
        assert Unweighted(feeds) == Unweighted(front);
      } else {
        CountMore(Unweighted(front), last, f);
      }
    }
  }

  /** Every feed goes to one side, with its multiplicity: those with volume to the first. */
  lemma PartitionIsExact(feeds: seq<Feed>, f: Feed)
    ensures multiset(Weighted(feeds))[f] == if f.volume > 0.0 then multiset(feeds)[f] else 0
    ensures multiset(Unweighted(feeds))[f] == if f.volume > 0.0 then 0 else multiset(feeds)[f]
  {
    WeightedCounts(feeds, f);
    UnweightedCounts(feeds, f);
  }

  lemma CountMore(s: seq<Feed>, x: Feed, f: Feed)
    ensures multiset(s + [x])[f] == multiset(s)[f] + if x == f then 1 else 0
  {
  }

  lemma CountLast(s: seq<Feed>, f: Feed)
    requires s != []
    ensures multiset(s)[f] == multiset(s[..|s| - 1])[f] + if s[|s| - 1] == f then 1 else 0
  {
    assert s == s[..|s| - 1] + [s[|s| - 1]];
    CountMore(s[..|s| - 1], s[|s| - 1], f);
  }

  // ---------------------------------------------------------------- the average

  /** What all trades together gained over trading at price p. */
  function Surplus(feeds: seq<Feed>, p: real): real {
    if feeds == [] then 0.0
    else Surplus(feeds[..|feeds| - 1], p) + feeds[|feeds| - 1].volume * (feeds[|feeds| - 1].value - p)
  }

  lemma {:induction false} SurplusIs(feeds: seq<Feed>, p: real)
    ensures Surplus(feeds, p) == Turnover(feeds) - p * Volume(feeds)
  {
    if feeds != [] {
      var front, last := feeds[..|feeds| - 1], feeds[|feeds| - 1];
      SurplusIs(front, p);
      TradeSurplus(last.value, last.volume, p);
      assert p * (Volume(front) + last.volume) == p * Volume(front) + p * last.volume;
    }
  }

  lemma TradeSurplus(value: real, volume: real, p: real)
    ensures volume * (value - p) == value * volume - p * volume
  {
  }

  lemma QuotientIs(t: real, v: real, p: real)
    requires v != 0.0
    ensures t / v == p <==> t - p * v == 0.0
  {
    var q := t / v;
    assert q * v == t;
    if t - p * v == 0.0 { SameFactor(q, p, v); }
  }

  lemma SameFactor(a: real, b: real, v: real)
    requires v != 0.0 && a * v == b * v
    ensures a == b
  {
    assert (a - b) * v == a * v - b * v;
  }

  /** The average is the one price at which the trades balance: no surplus and no loss. */
  lemma VwapBalances(feeds: seq<Feed>, p: real)
    requires feeds != [] && Volume(feeds) != 0.0
    ensures Vwap(feeds) == Some(p) <==> Surplus(feeds, p) == 0.0
  {
    SurplusIs(feeds, p);
    QuotientIs(Turnover(feeds), Volume(feeds), p);
  }

  ghost predicate Positive(feeds: seq<Feed>) {
    forall i :: 0 <= i < |feeds| ==> feeds[i].value > 0.0
  }

  lemma {:induction false} TradesArePositive(feeds: seq<Feed>)
    requires Positive(feeds)
    ensures var w := Weighted(feeds); if w == [] then Volume(w) == 0.0 == Turnover(w) else Volume(w) > 0.0 && Turnover(w) > 0.0
  {
    if feeds != [] {
      var front, last := feeds[..|feeds| - 1], feeds[|feeds| - 1];
      TradesArePositive(front);
      var w := Weighted(front);
      if last.volume > 0.0 {
        OneTradeMore(w, last);
      } else {
        assert Weighted(feeds) == w;
      }
    }
  }

  lemma OneTradeMore(w: seq<Feed>, last: Feed)
    requires Volume(w) >= 0.0 && Turnover(w) >= 0.0 && last.volume > 0.0 && last.value > 0.0
    ensures Volume(w + [last]) > 0.0 && Turnover(w + [last]) > 0.0
  {
    assert (w + [last])[..|w|] == w;
    assert last.value * last.volume > 0.0;
  }

  lemma {:induction false} UntradedArePositive(feeds: seq<Feed>)
    requires Positive(feeds)
    ensures Positive(Unweighted(feeds))
  {
    if feeds != [] { UntradedArePositive(feeds[..|feeds| - 1]); }
  }

  // ---------------------------------------------------------------- the price

  /** a and b are the middle prices of the feeds. */
  ghost predicate MiddlePrices(feeds: seq<Feed>, a: real, b: real) {
    Kth(Values(feeds), (|feeds| - 1) / 2, a) && Kth(Values(feeds), |feeds| / 2, b)
  }

  lemma MedianPriceIs(feeds: seq<Feed>, a: real, b: real)
    requires feeds != [] && MiddlePrices(feeds, a, b)
    ensures MedianPrice(feeds) == (a + b) / 2.0
  {
    MedianRealIsMiddle(Values(feeds), a, b);
  }

  lemma Mixes(vwap: real, median: real)
    requires vwap != 0.0 && median != 0.0
    ensures 20.0 * AggregatedPrice(vwap, median) == 19.0 * vwap + median
  {
  }

  /**
   * The price of the feeds that are used: where both kinds are present, nineteen twentieths of
   * the price at which the trades balance and one twentieth of the median of the feeds without
   * volume; where only one kind is, that price or that median.
   */
  lemma PriceIsMix(feeds: seq<Feed>, p: real, a: real, b: real)
    requires Positive(feeds)
    requires Weighted(feeds) != [] ==> Surplus(Weighted(feeds), p) == 0.0
    requires Unweighted(feeds) != [] ==> MiddlePrices(Unweighted(feeds), a, b)
    ensures Weighted(feeds) != [] && Unweighted(feeds) != [] ==>
              exists price :: VolumeWeightedPrice(feeds) == Some(price) && 20.0 * price == 19.0 * p + (a + b) / 2.0
    ensures Weighted(feeds) != [] && Unweighted(feeds) == [] ==> VolumeWeightedPrice(feeds) == Some(p)
    ensures Weighted(feeds) == [] && Unweighted(feeds) != [] ==> VolumeWeightedPrice(feeds) == Some((a + b) / 2.0)
  {
    TradesArePositive(feeds);
    UntradedArePositive(feeds);
    if Weighted(feeds) != [] {
      SurplusIs(Weighted(feeds), p);
      VwapBalances(Weighted(feeds), p);
    }
    if Unweighted(feeds) != [] {
      assert a in Values(Unweighted(feeds)) && b in Values(Unweighted(feeds));
      MedianPriceIs(Unweighted(feeds), a, b);
    }
    if Weighted(feeds) != [] && Unweighted(feeds) != [] { Mixes(p, (a + b) / 2.0); }
    assert MedianPrice([]) == 0.0;
  }

  /** FX pairs: the median of all feeds, whatever their volume. */
  lemma FxPriceIsMedian(feeds: seq<Feed>, mild: seq<real>, extreme: seq<real>, a: real, b: real)
    requires feeds != [] && MiddlePrices(feeds, a, b)
    ensures LocalPrice(true, feeds, mild, extreme) == Some((a + b) / 2.0)
  {
    MedianPriceIs(feeds, a, b);
  }

  /** What is streamed is the price truncated toward zero; only a zero price is not. */
  lemma StreamedIsTruncated(price: real)
    ensures StreamedPrice(price).None? <==> price == 0.0
    ensures price > 0.0 ==> 0 <= StreamedPrice(price).value && StreamedPrice(price).value as real <= price
                            && price < StreamedPrice(price).value as real + 1.0
    ensures price < 0.0 ==> StreamedPrice(price).value <= 0 && price <= StreamedPrice(price).value as real
                            && StreamedPrice(price).value as real - 1.0 < price
  {
  }

  // ---------------------------------------------------------------- the filter

  /**
   * The filter removes all it may: at least a quarter of the feeds, rounded down, or all
   * outliers if there are fewer.
   */
  lemma RemovalIsEnough(feeds: seq<Feed>, mild: seq<real>, extreme: seq<real>)
    requires |feeds| >= 5 && OutliersOf(Values(feeds), mild, extreme)
    ensures |feeds| - |Filtered(feeds, mild, extreme)| >= Min(|feeds| / 4, |mild| + |extreme|)
  {
    var n, values := |feeds|, Values(feeds);
    var e, m := ChosenExtreme(n, extreme), ChosenMild(n, mild, extreme);
    KeepTwice(feeds, extreme[..e], mild[..m]);
    KeepAndDeleted(feeds, extreme[..e] + mild[..m]);
    ChosenAreValues(values, mild, extreme, e, m);
    DeletedAtLeast(values, extreme[..e] + mild[..m]);
  }
}
