/**
 * The per-round tables of node/pkg/aggregator/types.go: lock maps, the collected items with
 * their senders, the replay check, and the pruning that keeps ten rounds.
 */
module RoundTables {
  import opened GoInt

  /** A Go map lookup: the zero value for a missing key. */
  function At<V>(m: map<int32, seq<V>>, r: int32): (s: seq<V>) {
    if r in m then m[r] else []
  }

  predicate IsLocked(m: map<int32, bool>, r: int32) {
    r in m && m[r]
  }

  /** Round i is visited by the loop `for i := r; i > r-10; i--` over int32. */
  predicate InWindow(i: int32, r: int32) {
    Wrap32(r as int - 10) < i <= r
  }

  /** The window is (r-10, r], unless r-10 underflows int32: then it is empty. */
  lemma WindowIsLastTen(i: int32, r: int32)
    ensures InWindow(i, r) <==> r as int - 10 >= MIN_INT32 && r as int - 10 < i <= r
  {
    if r as int - 10 < MIN_INT32 {
      assert Wrap32(r as int - 10) == r as int - 10 + 0x1_0000_0000;
    } else {
      assert Wrap32(r as int - 10) == r as int - 10;
    }
  }

  /** The entries a prune at round r leaves. */
  function Retain<V>(m: map<int32, V>, r: int32): map<int32, V> {
    map i | i in m && InWindow(i, r) :: m[i]
  }

  method LeaveOnlyLast10<V>(m: map<int32, V>, r: int32) returns (kept: map<int32, V>)
    ensures kept == Retain(m, r)
  {
    kept := map[];
    var i: int := r;
    while i > Wrap32(r as int - 10)
      invariant Wrap32(r as int - 10) <= i <= r || Wrap32(r as int - 10) > i == r
      invariant forall j: int32 :: j in kept <==> j in m && InWindow(j, r) && j > i
      invariant forall j: int32 :: j in kept ==> kept[j] == m[j]
      decreases i - MIN_INT32
    {
      if i in m {
        kept := kept[i := m[i]];
      }
      i := i - 1;
    }
  }

  /** Collected items and their senders per round, and the rounds already processed. */
  datatype Table<T> = Table(items: map<int32, seq<T>>, senders: map<int32, seq<string>>, locked: map<int32, bool>) {

    function Store(r: int32, item: T, sender: string): Table<T> {
      this.(items := items[r := At(items, r) + [item]], senders := senders[r := At(senders, r) + [sender]])
    }

    function Lock(r: int32): Table<T> {
      this.(locked := locked[r := true])
    }

    function Prune(r: int32): Table<T> {
      Table(Retain(items, r), Retain(senders, r), Retain(locked, r))
    }

    /** Items and senders cover the same rounds, pairwise, with no sender twice in a round. */
    ghost predicate Sound() {
      && items.Keys == senders.Keys
      && (forall r :: r in items ==> |items[r]| == |senders[r]| && Distinct(senders[r]))
    }

    lemma StoreIsSound(r: int32, item: T, sender: string)
      requires Sound() && sender !in At(senders, r)
      ensures Store(r, item, sender).Sound()
    {
    }
  }

  ghost predicate Distinct(s: seq<string>) {
    forall i, j :: 0 <= i < j < |s| ==> s[i] != s[j]
  }

  /** RoundTriggers and RoundPriceFixes. */
  class RoundLocks {
    var locked: map<int32, bool>

    constructor ()
      ensures locked == map[]
    {
      locked := map[];
    }

    method LeaveOnlyLast10Entries(r: int32)
      modifies this
      ensures locked == Retain(old(locked), r)
    {
      locked := LeaveOnlyLast10(locked, r);
    }
  }

  /** RoundPrices and RoundProofs. */
  class RoundTable<T> {
    var items: map<int32, seq<T>>
    var senders: map<int32, seq<string>>
    var locked: map<int32, bool>

    ghost function View(): Table<T>
      reads this
    {
      Table(items, senders, locked)
    }

    constructor ()
      ensures View() == Table(map[], map[], map[])
    {
      items, senders, locked := map[], map[], map[];
    }

    method IsReplay(r: int32, sender: string) returns (replay: bool)
      ensures replay <==> sender in At(senders, r)
    {
      var s := At(senders, r);
      for i := 0 to |s|
        invariant sender !in s[..i]
      {
        if s[i] == sender {
          return true;
        }
      }
      return false;
    }

    /** storeRoundPriceData and storeRoundProofData: append, or start the round. */
    method Store(r: int32, item: T, sender: string)
      requires View().Sound()
      modifies this
      ensures View() == old(View()).Store(r, item, sender)
    {
      if r in items {
        items := items[r := items[r] + [item]];
        senders := senders[r := senders[r] + [sender]];
      } else {
        items := items[r := [item]];
        senders := senders[r := [sender]];
        assert items[r] == old(At(items, r)) + [item] && senders[r] == old(At(senders, r)) + [sender];
      }
    }

    method LeaveOnlyLast10Entries(r: int32)
      modifies this
      ensures View() == old(View()).Prune(r)
    {
      locked := LeaveOnlyLast10(locked, r);
      items := LeaveOnlyLast10(items, r);
      senders := LeaveOnlyLast10(senders, r);
    }
  }
}
