/**
 * The pooled nonce manager (node/pkg/chain/noncemanagerv2): a buffered channel of a hundred
 * nonces, refilled when fewer than ten are left. It behaves like a plain counter. Sending
 * on a full channel and receiving from an empty one block, so Send and Receive demand room
 * and content: that every call site meets them is the proof that no operation blocks.
 */
module NoncePool {
  import opened Wrappers

  const POOL_SIZE: nat := 100
  const MINIMUM_POOL_SIZE: nat := 10
  const TWO_64: nat := 0x1_0000_0000_0000_0000

  type uint64 = x: int | 0 <= x < TWO_64

  /** uint64 arithmetic wraps. */
  function Wrap(x: nat): uint64 { x % TWO_64 }

  lemma WrapAdds(x: nat, i: nat)
    ensures Wrap(Wrap(x) + i) == Wrap(x + i)
  {
  }

  /** n consecutive nonces from `base` on, wrapping at 2^64. */
  function Run(base: nat, n: nat): (s: seq<uint64>)
    ensures |s| == n && forall i :: 0 <= i < n ==> s[i] == Wrap(base + i)
  {
    if n == 0 then [] else Run(base, n - 1) + [Wrap(base + n - 1)]
  }

  ghost predicate Contiguous(pool: seq<uint64>) {
    pool != [] && pool == Run(pool[0], |pool|)
  }

  lemma RunHead(base: nat, n: nat)
    requires n > 0
    ensures Run(base, n)[0] == Wrap(base) && Run(base, n)[1..] == Run(base + 1, n - 1)
    ensures Run(Wrap(base), n) == Run(base, n)
  {
    forall i | 0 <= i < n ensures Run(Wrap(base), n)[i] == Run(base, n)[i] { WrapAdds(base, i); }
    forall i | 0 <= i < n - 1 ensures Run(base, n)[1..][i] == Run(base + 1, n - 1)[i] {
      assert base + (i + 1) == (base + 1) + i;
    }
  }

  /** The pool New and Reset leave. */
  function FullPool(base: uint64): (pool: seq<uint64>)
    ensures Contiguous(pool) && |pool| == POOL_SIZE && pool[0] == base
  {
    RunHead(base, POOL_SIZE);
    Run(base, POOL_SIZE)
  }

  /** The pool after one GetNonce. */
  function Taken(pool: seq<uint64>): seq<uint64>
    requires pool != []
  {
    if |pool| < MINIMUM_POOL_SIZE then FullPool(pool[0])[1..] else pool[1..]
  }

  class Channel {
    const cap: nat
    var buf: seq<uint64>

    constructor (capacity: nat)
      ensures cap == capacity && buf == []
    {
      cap := capacity;
      buf := [];
    }

    method Send(x: uint64)
      requires |buf| < cap
      modifies this
      ensures buf == old(buf) + [x]
    {
      buf := buf + [x];
    }

    /** The loop of New, Reset and fillPool: a hundred nonces from `first` on. */
    method SendAll(first: uint64)
      requires buf == [] && cap == POOL_SIZE
      modifies this
      ensures buf == FullPool(first)
    {
      var n: int := first;
      for i := 0 to cap
        invariant buf == Run(n, i)
      {
        Send(Wrap(n + i));
      }
    }

    method Receive() returns (x: uint64)
      requires buf != []
      modifies this
      ensures x == old(buf)[0] && buf == old(buf)[1..]
    {
      x := buf[0];
      buf := buf[1..];
    }
  }

  class NonceManager {
    var noncePool: Channel

    ghost predicate Valid()
      reads this, noncePool
    {
      && noncePool.cap == POOL_SIZE
      && MINIMUM_POOL_SIZE - 1 <= |noncePool.buf| <= POOL_SIZE
      && Contiguous(noncePool.buf)
    }

    constructor (current: uint64)
      ensures Valid() && fresh(noncePool) && noncePool.buf == FullPool(current)
    {
      var pool := NewPool(current);
      noncePool := pool;
    }

    static method NewPool(first: uint64) returns (pool: Channel)
      ensures fresh(pool) && pool.cap == POOL_SIZE && pool.buf == FullPool(first)
    {
      pool := new Channel(POOL_SIZE);
      pool.SendAll(first);
    }

    method GetNonce() returns (nonce: uint64)
      requires Valid()
      modifies this, noncePool
      ensures Valid() && (noncePool == old(noncePool) || fresh(noncePool))
      ensures nonce == old(noncePool.buf)[0] && noncePool.buf == Taken(old(noncePool.buf))
    {
      TakenStaysContiguous(noncePool.buf);
      if |noncePool.buf| < MINIMUM_POOL_SIZE {
        FillPool();
      }
      nonce := noncePool.Receive();
    }

    method FillPool()
      requires noncePool.cap == POOL_SIZE && noncePool.buf != []
      modifies this, noncePool
      ensures fresh(noncePool) && noncePool.cap == POOL_SIZE
      ensures noncePool.buf == FullPool(old(noncePool.buf)[0])
    {
      var nonce := noncePool.Receive();
      var pool := NewPool(nonce);
      noncePool := pool;
    }

    /** `current` is the account nonce read from the chain, None when the call failed. */
    method Reset(current: Option<uint64>) returns (ok: bool)
      requires Valid()
      modifies noncePool
      ensures Valid() && ok == current.Some?
      ensures noncePool.buf == if ok then FullPool(current.value) else old(noncePool.buf)
    {
      if current.None? {
        return false;
      }
      FlushPool();
      noncePool.SendAll(current.value);
      return true;
    }

    method FlushPool()
      modifies noncePool
      ensures noncePool.buf == []
    {
      while |noncePool.buf| > 0 {
        var _ := noncePool.Receive();
      }
    }
  }

  lemma TakenStaysContiguous(pool: seq<uint64>)
    requires Contiguous(pool) && MINIMUM_POOL_SIZE - 1 <= |pool| <= POOL_SIZE
    ensures var next := Taken(pool);
            && Contiguous(next) && MINIMUM_POOL_SIZE - 1 <= |next| < POOL_SIZE
            && next[0] == Wrap(pool[0] as int + 1)
  {
    var n := if |pool| < MINIMUM_POOL_SIZE then POOL_SIZE else |pool|;
    RunHead(pool[0], n);
    RunHead(pool[0] as int + 1, n - 1);
  }

  /** The pool after k calls of GetNonce. */
  function After(pool: seq<uint64>, k: nat): seq<uint64>
    requires Contiguous(pool) && MINIMUM_POOL_SIZE - 1 <= |pool| <= POOL_SIZE
    ensures Contiguous(After(pool, k)) && MINIMUM_POOL_SIZE - 1 <= |After(pool, k)| <= POOL_SIZE
  {
    if k == 0 then pool else
      TakenStaysContiguous(After(pool, k - 1));
      Taken(After(pool, k - 1))
  }

  /**
   * Pooled nonces refine a counter: after any number k of calls since the pool started at
   * `base`, the next nonce is base + k, across every refill.
   */
  lemma {:induction false} PoolIsCounter(base: uint64, k: nat)
    ensures After(FullPool(base), k)[0] == Wrap(base as int + k)
  {
    if k > 0 {
      PoolIsCounter(base, k - 1);
      TakenStaysContiguous(After(FullPool(base), k - 1));
      WrapAdds(base as int + k - 1, 1);
    }
  }
}
