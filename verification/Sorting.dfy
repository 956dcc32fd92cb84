/** The library sorts the programs call, as a function: the ordered permutation of a sequence. */
module Sorting {

  ghost predicate TotalPreorder<T(!new)>(le: (T, T) -> bool) {
    && (forall a, b :: le(a, b) || le(b, a))
    && (forall a, b, c :: le(a, b) && le(b, c) ==> le(a, c))
  }

  ghost predicate Ordered<T>(s: seq<T>, le: (T, T) -> bool) {
    forall i, j :: 0 <= i < j < |s| ==> le(s[i], s[j])
  }

  function Insert<T>(x: T, s: seq<T>, le: (T, T) -> bool): seq<T> {
    if s == [] || le(x, s[0]) then [x] + s else [s[0]] + Insert(x, s[1..], le)
  }

  function SortBy<T>(s: seq<T>, le: (T, T) -> bool): seq<T> {
    if s == [] then [] else Insert(s[0], SortBy(s[1..], le), le)
  }

  lemma {:induction false} InsertKeepsOrder<T(!new)>(x: T, s: seq<T>, le: (T, T) -> bool)
    requires TotalPreorder(le) && Ordered(s, le)
    ensures Ordered(Insert(x, s, le), le)
    ensures multiset(Insert(x, s, le)) == multiset(s) + multiset{x}
  {
    if s == [] {
    } else if le(x, s[0]) {
      assert forall j :: 0 < j < |s| ==> le(s[0], s[j]) && le(x, s[j]);
    } else {
      var rest := Insert(x, s[1..], le);
      InsertKeepsOrder(x, s[1..], le);
      assert s == [s[0]] + s[1..];
      forall j | 0 <= j < |rest| ensures le(s[0], rest[j]) {
        assert rest[j] in multiset(rest);
        if rest[j] != x { assert rest[j] in multiset(s[1..]); }
      }
    }
  }

  /** SortBy yields an ordered sequence with exactly the elements it was given. */
  lemma {:induction false} SortBySorts<T(!new)>(s: seq<T>, le: (T, T) -> bool)
    requires TotalPreorder(le)
    ensures Ordered(SortBy(s, le), le)
    ensures multiset(SortBy(s, le)) == multiset(s) && |SortBy(s, le)| == |s|
  {
    if s != [] {
      SortBySorts(s[1..], le);
      InsertKeepsOrder(s[0], SortBy(s[1..], le), le);
      assert s == [s[0]] + s[1..];
      assert |SortBy(s, le)| == |multiset(SortBy(s, le))| == |s|;
    }
  }

  // ---------------------------------------------------------------- ranks

  /** How many elements of s satisfy p. */
  function CountIf<T>(s: seq<T>, p: T -> bool): nat {
    if s == [] then 0 else (if p(s[0]) then 1 else 0) + CountIf(s[1..], p)
  }

  lemma {:induction false} InsertCounts<T>(x: T, s: seq<T>, le: (T, T) -> bool, p: T -> bool)
    ensures CountIf(Insert(x, s, le), p) == CountIf(s, p) + if p(x) then 1 else 0
  {
    if s == [] || le(x, s[0]) {
      assert ([x] + s)[1..] == s;
    } else {
      InsertCounts(x, s[1..], le, p);
      assert ([s[0]] + Insert(x, s[1..], le))[1..] == Insert(x, s[1..], le);
    }
  }

  lemma {:induction false} SortByCounts<T>(s: seq<T>, le: (T, T) -> bool, p: T -> bool)
    ensures CountIf(SortBy(s, le), p) == CountIf(s, p)
  {
    if s != [] {
      SortByCounts(s[1..], le, p);
      InsertCounts(s[0], SortBy(s[1..], le), le, p);
    }
  }

  /** Nothing below index lo and nothing from index hi on satisfies p. */
  lemma {:induction false} CountWithin<T>(s: seq<T>, p: T -> bool, lo: nat, hi: nat)
    requires lo <= hi <= |s|
    requires forall i :: 0 <= i < |s| && p(s[i]) ==> lo <= i < hi
    ensures CountIf(s, p) <= hi - lo
  {
    if s != [] {
      assert forall i :: 0 <= i < |s[1..]| ==> s[1..][i] == s[i + 1];
      if hi == 0 {
        CountWithin(s[1..], p, 0, 0);
      } else {
        CountWithin(s[1..], p, if lo == 0 then 0 else lo - 1, hi - 1);
      }
    }
  }

  /** v is an element of s with at most `under` elements below it and at most `over` above it. */
  ghost predicate Ranked<T(!new)>(s: seq<T>, v: T, le: (T, T) -> bool, under: int, over: int) {
    v in s && CountIf(s, w => !le(v, w)) <= under && CountIf(s, w => !le(w, v)) <= over
  }

  /** The k-th element of the sorted sequence has rank k in the unsorted one. */
  lemma SortByRanks<T(!new)>(s: seq<T>, le: (T, T) -> bool, k: nat)
    requires TotalPreorder(le) && k < |s|
    ensures |SortBy(s, le)| == |s| && Ranked(s, SortBy(s, le)[k], le, k, |s| - 1 - k)
  {
    SortBySorts(s, le);
    var t := SortBy(s, le);
    var v := t[k];
    assert v in multiset(s);
    SortByCounts(s, le, w => !le(v, w));
    SortByCounts(s, le, w => !le(w, v));
    assert forall i :: 0 <= i < |t| && !le(v, t[i]) ==> i < k;
    assert forall i :: 0 <= i < |t| && !le(t[i], v) ==> k < i;
    CountWithin(t, w => !le(v, w), 0, k);
    CountWithin(t, w => !le(w, v), k + 1, |t|);
  }

  lemma {:induction false} CountImplies<T>(s: seq<T>, p: T -> bool, q: T -> bool)
    requires forall i :: 0 <= i < |s| && !p(s[i]) ==> q(s[i])
    ensures |s| <= CountIf(s, p) + CountIf(s, q)
  {
    if s != [] {
      assert forall i :: 0 <= i < |s[1..]| ==> s[1..][i] == s[i + 1];
      CountImplies(s[1..], p, q);
    }
  }

  /** A rank belongs to one value only: two elements with complementary bounds are ordered. */
  lemma RankDetermines<T(!new)>(s: seq<T>, v: T, w: T, le: (T, T) -> bool, k: int)
    requires TotalPreorder(le) && Ranked(s, v, le, k, |s| - 1 - k) && Ranked(s, w, le, k, |s| - 1 - k)
    ensures le(v, w) && le(w, v)
  {
    if !le(v, w) {
      CountImplies(s, x => !le(x, w), x => !le(v, x));
    } else if !le(w, v) {
      CountImplies(s, x => !le(x, v), x => !le(w, x));
    }
  }
}
