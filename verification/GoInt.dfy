/** Go's fixed-width integers: values, wrap-around and truncating division. */
module GoInt {

  const MIN_INT32: int := -0x8000_0000
  const MAX_INT32: int := 0x7fff_ffff
  const MIN_INT64: int := -0x8000_0000_0000_0000
  const MAX_INT64: int := 0x7fff_ffff_ffff_ffff

  type int32 = x: int | MIN_INT32 <= x <= MAX_INT32
  type int64 = x: int | MIN_INT64 <= x <= MAX_INT64

  /** The int32 congruent to x modulo 2^32: the value a Go int32 expression leaves. */
  function Wrap32(x: int): (r: int32)
    ensures (x - r) % 0x1_0000_0000 == 0
  {
    var m := x % 0x1_0000_0000;
    if m > MAX_INT32 then m - 0x1_0000_0000 else m
  }

  /** The int64 congruent to x modulo 2^64. */
  function Wrap64(x: int): (r: int64)
    ensures (x - r) % 0x1_0000_0000_0000_0000 == 0
  {
    var m := x % 0x1_0000_0000_0000_0000;
    if m > MAX_INT64 then m - 0x1_0000_0000_0000_0000 else m
  }

  /** Go's x / 2, which truncates toward zero. */
  function Half(x: int64): (r: int64)
    ensures x - 1 <= 2 * r <= x + 1
    ensures x >= 0 ==> 0 <= 2 * r <= x
    ensures x <= 0 ==> x <= 2 * r <= 0
  {
    var n: int := x;
    if n >= 0 then n / 2 else -((-n) / 2)
  }
}

module Wrappers {
  datatype Option<+T> = None | Some(value: T)

  type byte = x: int | 0 <= x < 256
}
