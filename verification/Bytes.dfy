/** Big-endian integers (RFC 8017 section 4), zero padding, lower-case hexadecimal, concatenation. */
module Bytes {
  import opened Wrappers

  function Pow256(n: nat): nat {
    if n == 0 then 1 else 256 * Pow256(n - 1)
  }

  /** OS2IP. */
  function FromBytes(s: seq<byte>): nat {
    if s == [] then 0 else FromBytes(s[..|s| - 1]) * 256 + s[|s| - 1]
  }

  /** The last n base-256 digits of x; I2OSP when x < 256^n. */
  function ToBytes(x: nat, n: nat): (s: seq<byte>)
    ensures |s| == n
  {
    if n == 0 then [] else ToBytes(x / 256, n - 1) + [x % 256]
  }

  /** The shortest big-endian form: no leading zero, [] for 0. */
  function MinBytes(x: nat): seq<byte> {
    if x == 0 then [] else MinBytes(x / 256) + [x % 256]
  }

  function Zeros(n: nat): (s: seq<byte>)
    ensures |s| == n && forall i :: 0 <= i < n ==> s[i] == 0
  {
    if n == 0 then [] else Zeros(n - 1) + [0]
  }

  lemma {:induction false} FromBytesBound(s: seq<byte>)
    ensures FromBytes(s) < Pow256(|s|)
  {
    if s != [] {
      FromBytesBound(s[..|s| - 1]);
    }
  }

  /** I2OSP then OS2IP. */
  lemma {:induction false} ToFromBytes(x: nat, n: nat)
    requires x < Pow256(n)
    ensures FromBytes(ToBytes(x, n)) == x
  {
    if n > 0 {
      ToFromBytes(x / 256, n - 1);
      assert ToBytes(x, n)[..n - 1] == ToBytes(x / 256, n - 1);
    }
  }

  /** OS2IP then I2OSP. */
  lemma {:induction false} FromToBytes(s: seq<byte>)
    ensures ToBytes(FromBytes(s), |s|) == s
  {
    if s != [] {
      FromToBytes(s[..|s| - 1]);
      assert s == s[..|s| - 1] + [s[|s| - 1]];
    }
  }

  /** The shortest form of x fits n bytes, and zero padding on the left completes it to I2OSP. */
  lemma {:induction false} MinBytesPadded(x: nat, n: nat)
    requires x < Pow256(n)
    ensures |MinBytes(x)| <= n && Zeros(n - |MinBytes(x)|) + MinBytes(x) == ToBytes(x, n)
  {
    if x == 0 {
      ZeroDigits(n);
    } else {
      MinBytesPadded(x / 256, n - 1);
      assert Zeros(n - |MinBytes(x)|) + MinBytes(x) == (Zeros(n - 1 - |MinBytes(x / 256)|) + MinBytes(x / 256)) + [x % 256];
    }
  }

  lemma {:induction false} ZeroDigits(n: nat)
    ensures ToBytes(0, n) == Zeros(n)
  {
    if n > 0 { ZeroDigits(n - 1); }
  }

  lemma {:induction false} ZerosConcat(m: nat, n: nat)
    ensures Zeros(m) + Zeros(n) == Zeros(m + n)
  {
    if n > 0 {
      ZerosConcat(m, n - 1);
      assert Zeros(m) + Zeros(n) == (Zeros(m) + Zeros(n - 1)) + [0];
    } else {
      assert Zeros(m) + Zeros(0) == Zeros(m);
    }
  }

  // ---------------------------------------------------------------- hexadecimal

  const DIGITS: string := "0123456789abcdef"

  /** The value of a hexadecimal digit of either case. */
  function DigitValue(c: char): (v: Option<int>)
    ensures v.Some? ==> 0 <= v.value < 16
  {
    if '0' <= c <= '9' then Some(c as int - '0' as int)
    else if 'a' <= c <= 'f' then Some(c as int - 'a' as int + 10)
    else if 'A' <= c <= 'F' then Some(c as int - 'A' as int + 10)
    else None
  }

  lemma DigitRead(d: nat)
    requires d < 16
    ensures DigitValue(DIGITS[d]) == Some(d)
  {
  }

  function HexByte(b: byte): string {
    [DIGITS[b / 16], DIGITS[b % 16]]
  }

  function Hex(s: seq<byte>): (h: string)
    ensures |h| == 2 * |s|
  {
    if s == [] then [] else HexByte(s[0]) + Hex(s[1..])
  }

  /** Buffer.from(h, 'hex'): pairs of digits up to the first pair that is none. */
  function Unhex(h: string): seq<byte> {
    if |h| < 2 || DigitValue(h[0]).None? || DigitValue(h[1]).None? then []
    else [DigitValue(h[0]).value * 16 + DigitValue(h[1]).value] + Unhex(h[2..])
  }

  lemma {:induction false} UnhexHex(s: seq<byte>)
    ensures Unhex(Hex(s)) == s
  {
    if s != [] {
      UnhexHex(s[1..]);
      DigitRead(s[0] / 16);
      DigitRead(s[0] % 16);
      assert Hex(s)[2..] == Hex(s[1..]);
    }
  }

  lemma {:induction false} HexConcat(a: seq<byte>, b: seq<byte>)
    ensures Hex(a + b) == Hex(a) + Hex(b)
  {
    if a == [] {
      assert a + b == b;
    } else {
      HexConcat(a[1..], b);
      assert (a + b)[1..] == a[1..] + b;
    }
  }

  /** JavaScript's slice(i, j), which clamps. */
  function Slice(s: string, i: nat, j: nat): string
    requires i <= j
  {
    if |s| <= i then [] else if |s| <= j then s[i..] else s[i..j]
  }

  // ---------------------------------------------------------------- concatenation

  function Concat(s: seq<seq<byte>>): seq<byte> {
    if s == [] then [] else Concat(s[..|s| - 1]) + s[|s| - 1]
  }

  function TotalLength(s: seq<seq<byte>>): nat {
    if s == [] then 0 else TotalLength(s[..|s| - 1]) + |s[|s| - 1]|
  }

  ghost predicate PartAt(bytes: seq<byte>, part: seq<byte>, at: nat) {
    at + |part| <= |bytes| && bytes[at..at + |part|] == part
  }

  /** Cut at the lengths of the parts, one after the other, the string is exactly those parts. */
  ghost predicate CutsInto(bytes: seq<byte>, parts: seq<seq<byte>>) {
    |bytes| == TotalLength(parts) && forall k :: 0 <= k < |parts| ==> PartAt(bytes, parts[k], TotalLength(parts[..k]))
  }

  lemma {:induction false} ConcatCuts(parts: seq<seq<byte>>)
    ensures CutsInto(Concat(parts), parts)
  {
    if parts != [] {
      var front, last := parts[..|parts| - 1], parts[|parts| - 1];
      ConcatCuts(front);
      forall k | 0 <= k < |parts| ensures PartAt(Concat(parts), parts[k], TotalLength(parts[..k])) {
        if k < |front| {
          assert front[..k] == parts[..k] && PartAt(Concat(front), front[k], TotalLength(front[..k]));
          PartStays(Concat(front), last, front[k], TotalLength(front[..k]));
        }
      }
    }
  }

  lemma PartStays(bytes: seq<byte>, more: seq<byte>, part: seq<byte>, at: nat)
    requires PartAt(bytes, part, at)
    ensures PartAt(bytes + more, part, at)
  {
  }
}
