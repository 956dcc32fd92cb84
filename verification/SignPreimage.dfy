/**
 * The string under a proof's signature (Value2HashForSign in node/pkg/chain/utils/utils.go):
 * value and timestamp as 32-byte big-endian magnitudes, then the 32-byte feed hash.
 */
module SignPreimage {
  import opened GoInt
  import opened Wrappers
  import opened Bytes

  /** The magnitude that big.Int.Bytes encodes. */
  function Magnitude(x: int64): nat {
    var n: int := x;
    if n < 0 then -n else n
  }

  function Preimage(value: int64, timestamp: int64, feedHash: seq<byte>): seq<byte> {
    ToBytes(Magnitude(value), 32) + ToBytes(Magnitude(timestamp), 32) + feedHash
  }

  lemma MagnitudeFits(x: int64)
    ensures Magnitude(x) < Pow256(32) && Magnitude(x) < Pow256(8) && |MinBytes(Magnitude(x))| <= 8
  {
    assert Pow256(2) == 0x1_0000 && Pow256(4) == 0x1_0000_0000;
    assert Pow256(8) == 0x1_0000_0000_0000_0000 by {
      assert Pow256(6) == 0x1_0000_0000_0000;
    }
    PowMonotone(8, 32);
    MinBytesPadded(Magnitude(x), 8);
  }

  lemma {:induction false} PowMonotone(m: nat, n: nat)
    requires m <= n
    ensures Pow256(m) <= Pow256(n)
  {
    if m < n { PowMonotone(m, n - 1); }
  }

  /** make([]byte, n) and copy(buf[n-len(bytes):], bytes). */
  method CopyToEnd(bytes: seq<byte>, n: nat) returns (buf: array<byte>)
    requires |bytes| <= n
    ensures fresh(buf) && buf[..] == Zeros(n - |bytes|) + bytes
  {
    buf := new byte[n](_ => 0);
    var offset := n - |bytes|;
    for i := 0 to |bytes|
      invariant forall k :: 0 <= k < offset ==> buf[k] == 0
      invariant forall k :: 0 <= k < i ==> buf[offset + k] == bytes[k]
    {
      buf[offset + i] := bytes[i];
    }
    forall k | 0 <= k < n ensures buf[..][k] == (Zeros(offset) + bytes)[k] {
      if k >= offset { assert buf[offset + (k - offset)] == bytes[k - offset]; }
    }
  }

  method RightAligned(x: int64) returns (buf: array<byte>)
    ensures fresh(buf) && buf[..] == ToBytes(Magnitude(x), 32)
  {
    MagnitudeFits(x);
    MinBytesPadded(Magnitude(x), 32);
    buf := CopyToEnd(MinBytes(Magnitude(x)), 32);
  }

  /** Read back: the magnitude of the value, that of the timestamp, and the feed hash, in this order. */
  lemma PreimageReads(value: int64, timestamp: int64, feedHash: seq<byte>)
    ensures var p := Preimage(value, timestamp, feedHash);
            && |p| == 64 + |feedHash|
            && FromBytes(p[..32]) == Magnitude(value) && FromBytes(p[32..64]) == Magnitude(timestamp) && p[64..] == feedHash
  {
    var p := Preimage(value, timestamp, feedHash);
    assert p[..32] == ToBytes(Magnitude(value), 32) && p[32..64] == ToBytes(Magnitude(timestamp), 32) && p[64..] == feedHash;
    MagnitudeFits(value);
    MagnitudeFits(timestamp);
    ToFromBytes(Magnitude(value), 32);
    ToFromBytes(Magnitude(timestamp), 32);
  }

  method BuildPreimage(value: int64, timestamp: int64, feedHash: seq<byte>) returns (s: seq<byte>)
    ensures s == Preimage(value, timestamp, feedHash) && |s| == 64 + |feedHash|
    ensures FromBytes(s[..32]) == (if value < 0 then -(value as int) else value as int)
    ensures FromBytes(s[32..64]) == (if timestamp < 0 then -(timestamp as int) else timestamp as int)
    ensures s[64..] == feedHash
  {
    PreimageReads(value, timestamp, feedHash);
    var valueBuf := RightAligned(value);
    var timestampBuf := RightAligned(timestamp);
    s := valueBuf[..] + timestampBuf[..] + feedHash;
  }

  /**
   * Two preimages are the same string exactly when the feed hashes and the magnitudes agree:
   * padding and encoding are jointly invertible, and only the signs are lost.
   */
  lemma PreimageDetermines(v1: int64, t1: int64, f1: seq<byte>, v2: int64, t2: int64, f2: seq<byte>)
    ensures Preimage(v1, t1, f1) == Preimage(v2, t2, f2) <==>
              Magnitude(v1) == Magnitude(v2) && Magnitude(t1) == Magnitude(t2) && f1 == f2
  {
    var p1, p2 := Preimage(v1, t1, f1), Preimage(v2, t2, f2);
    assert p1[..32] == ToBytes(Magnitude(v1), 32) && p1[32..64] == ToBytes(Magnitude(t1), 32) && p1[64..] == f1;
    assert p2[..32] == ToBytes(Magnitude(v2), 32) && p2[32..64] == ToBytes(Magnitude(t2), 32) && p2[64..] == f2;
    MagnitudeFits(v1);
    MagnitudeFits(v2);
    MagnitudeFits(t1);
    MagnitudeFits(t2);
    ToFromBytes(Magnitude(v1), 32);
    ToFromBytes(Magnitude(v2), 32);
    ToFromBytes(Magnitude(t1), 32);
    ToFromBytes(Magnitude(t2), 32);
  }

  /** For non-negative values and timestamps the preimage is unambiguous, and 96 bytes long. */
  lemma PreimageIsUnambiguous(v1: int64, t1: int64, f1: seq<byte>, v2: int64, t2: int64, f2: seq<byte>)
    requires v1 >= 0 && t1 >= 0 && v2 >= 0 && t2 >= 0 && |f1| == 32
    requires Preimage(v1, t1, f1) == Preimage(v2, t2, f2)
    ensures v1 == v2 && t1 == t2 && f1 == f2 && |Preimage(v1, t1, f1)| == 96
  {
    PreimageDetermines(v1, t1, f1, v2, t2, f2);
  }

  /** A negative value signs the same string as its opposite. */
  lemma SignIsLost(v: int64, t: int64, f: seq<byte>)
    requires v > 0
    ensures Preimage(v, t, f) == Preimage(-v, t, f)
  {
  }
}
