/** Completeness of the VRF, exact failure conditions, and fast against full verification. */
module VrfProofs {
  import opened Wrappers
  import opened Bytes
  import opened Vrf

  // ---------------------------------------------------------------- the group

  lemma {:induction false} TimesSum<P(!new)>(c: Curve<P>, m: nat, n: nat, a: P)
    requires GroupLaws(c)
    ensures Times(c, m + n, a) == c.add(Times(c, m, a), Times(c, n, a))
  {
    if m > 0 {
      TimesSum(c, m - 1, n, a);
      assert Sum3(c, a, Times(c, m - 1, a), Times(c, n, a)) == Times(c, m + n, a);
    }
  }

  lemma {:induction false} TimesOfZero<P(!new)>(c: Curve<P>, n: nat)
    requires GroupLaws(c)
    ensures Times(c, n, c.zero) == c.zero
  {
    if n > 0 { TimesOfZero(c, n - 1); }
  }

  lemma {:induction false} TimesProduct<P(!new)>(c: Curve<P>, m: nat, n: nat, a: P)
    requires GroupLaws(c)
    ensures Times(c, m * n, a) == Times(c, m, Times(c, n, a))
  {
    if m > 0 {
      TimesProduct(c, m - 1, n, a);
      assert m * n == n + (m - 1) * n;
      TimesSum(c, n, (m - 1) * n, a);
    }
  }

  /** Multiples of the group order vanish. */
  lemma TimesMod<P(!new)>(c: Curve<P>, n: nat, a: P)
    requires GroupLaws(c)
    ensures Times(c, n % c.q, a) == Times(c, n, a)
  {
    var m := n / c.q;
    assert n == m * c.q + n % c.q;
    TimesSum(c, m * c.q, n % c.q, a);
    TimesProduct(c, m, c.q, a);
    TimesOfZero(c, m);
  }

  lemma Cancel<P(!new)>(c: Curve<P>, a: P, b: P)
    requires GroupLaws(c)
    ensures Minus(c, c.add(a, b), b) == a
  {
    assert Sum3(c, a, b, c.neg(b)) == c.add(a, c.zero);
    assert Sum(c, a, c.zero) == a;
  }

  function Gcd(m: nat, n: nat): nat
    decreases n
  {
    if n == 0 then m else Gcd(n, m % n)
  }

  lemma {:induction false} GcdDivides(m: nat, n: nat)
    requires m > 0
    ensures Gcd(m, n) > 0 && m % Gcd(m, n) == 0 && n % Gcd(m, n) == 0
    decreases n
  {
    if n > 0 {
      GcdDivides(n, m % n);
      var g, k := Gcd(m, n), m / n;
      assert m == k * n + m % n;
      MultipleAdds(g, n, k, m % n);
    }
  }

  lemma MultipleAdds(g: nat, n: nat, k: nat, r: nat)
    requires g > 0 && n % g == 0 && r % g == 0
    ensures (k * n + r) % g == 0
  {
    var a, b := n / g, r / g;
    assert k * n + r == g * (k * a + b) by {
      assert n == g * a && r == g * b;
      assert k * (g * a) == g * (k * a);
    }
    DividesBack(g, k * a + b);
  }

  lemma DividesBack(g: nat, t: nat)
    requires g > 0
    ensures (g * t) % g == 0
  {
    var k, r := (g * t) / g, (g * t) % g;
    assert g * t == g * k + r;
    OnlyZeroFits(g, t - k, r);
  }

  lemma OnlyZeroFits(g: int, d: int, r: int)
    requires 0 <= r < g && g * d == r
    ensures r == 0
  {
    Scales(g, d);
  }

  lemma Scales(g: int, d: int)
    requires g > 0
    ensures d >= 1 ==> g * d >= g
    ensures d <= -1 ==> g * d <= -g
  {
  }

  /** If m and n vanish a point, so does the remainder of m by n. */
  lemma VanishesAtRest<P(!new)>(c: Curve<P>, n: nat, k: nat, r: nat, a: P)
    requires GroupLaws(c) && Times(c, k * n + r, a) == c.zero && Times(c, n, a) == c.zero
    ensures Times(c, r, a) == c.zero
  {
    TimesSum(c, k * n, r, a);
    TimesProduct(c, k, n, a);
    TimesOfZero(c, k);
  }

  lemma {:induction false} VanishesAtGcd<P(!new)>(c: Curve<P>, m: nat, n: nat, a: P)
    requires GroupLaws(c) && Times(c, m, a) == c.zero && Times(c, n, a) == c.zero
    ensures Times(c, Gcd(m, n), a) == c.zero
    decreases n
  {
    if n > 0 {
      assert m == (m / n) * n + m % n;
      VanishesAtRest(c, n, m / n, m % n, a);
      VanishesAtGcd(c, n, m % n, a);
    }
  }

  lemma {:induction false} GcdAtMost(m: nat, n: nat)
    requires n > 0
    ensures Gcd(m, n) <= n
    decreases n
  {
    if m % n > 0 { GcdAtMost(n, m % n); }
  }

  lemma CoprimeToPrime(q: nat, n: nat)
    requires Prime(q) && 0 < n < q
    ensures Gcd(q, n) == 1
  {
    GcdDivides(q, n);
    GcdAtMost(q, n);
    assert q % Gcd(q, n) == 0;
  }

  /** In a group of prime order, n times a point vanishes only if the point does or q divides n. */
  lemma TimesVanishes<P(!new)>(c: Curve<P>, n: nat, a: P)
    requires GroupLaws(c)
    ensures Times(c, n, a) == c.zero <==> a == c.zero || n % c.q == 0
  {
    TimesOfZero(c, n);
    TimesMod(c, n, a);
    if Times(c, n, a) == c.zero && n % c.q != 0 {
      VanishesAtGcd(c, c.q, n % c.q, a);
      CoprimeToPrime(c.q, n % c.q);
      assert Times(c, 1, a) == c.add(a, Times(c, 0, a));
      assert Sum(c, a, c.zero) == a;
    }
  }

  // ---------------------------------------------------------------- encodings

  lemma PaddedX(x: nat, n: nat)
    requires x < Pow256(n) && n > 0
    ensures ZeroPad(BnBytes(x), n) == ToBytes(x, n)
  {
    var s := BnBytes(x);
    if x == 0 {
      ZeroDigits(n);
      assert Zeros(n) + [0] == Zeros(n + 1);
      ZerosConcat(1, n);
      assert Zeros(1) == [0];
      assert (Zeros(1) + Zeros(n))[1..] == Zeros(n);
    } else {
      MinBytesPadded(x, n);
      ZerosConcat(|s|, n - |s|);
      assert (Zeros(n) + s)[|s|..] == Zeros(n - |s|) + s;
    }
  }

  /** Compressed encoding, then decoding, gives the point back. */
  lemma PointRoundTrip<P(!new)>(c: Curve<P>, a: P)
    requires CodingLaws(c) && a != c.zero
    ensures PointToString(c, a).Ok? && |PointToString(c, a).value| == 33
    ensures DecodePoint(c, PointToString(c, a).value) == Some(a)
  {
    PaddedX(c.x(a), 32);
    ToFromBytes(c.x(a), 32);
    var s := PointToString(c, a).value;
    assert s[1..] == ToBytes(c.x(a), 32);
  }

  /** A decoded point is never the identity. */
  lemma DecodedIsPoint<P(!new)>(c: Curve<P>, s: seq<byte>)
    requires CodingLaws(c)
    ensures DecodePoint(c, s).Some? ==> DecodePoint(c, s).value != c.zero
  {
  }

  lemma UncompressedRoundTrip<P(!new)>(c: Curve<P>, a: P)
    requires CodingLaws(c) && a != c.zero
    ensures DecodePoint(c, [4] + ToBytes(c.x(a), 32) + ToBytes(c.y(a), 32)) == Some(a)
  {
    var s := [4] + ToBytes(c.x(a), 32) + ToBytes(c.y(a), 32);
    assert s[1..33] == ToBytes(c.x(a), 32) && s[33..] == ToBytes(c.y(a), 32);
    ToFromBytes(c.x(a), 32);
    ToFromBytes(c.y(a), 32);
  }

  lemma SlicedHex(a: seq<byte>, b: seq<byte>, d: seq<byte>)
    requires |a| == 33 && |b| == 16 && |d| == 32
    ensures var h := Hex(a + b + d);
            Unhex(Slice(h, 0, 66)) == a && Unhex(Slice(h, 66, 98)) == b && Unhex(Slice(h, 98, 162)) == d
  {
    var h := Hex(a + b + d);
    HexConcat(a + b, d);
    HexConcat(a, b);
    assert h[..66] == Hex(a) && h[66..98] == Hex(b) && h[98..162] == Hex(d);
    assert h[98..] == h[98..162];
    UnhexHex(a);
    UnhexHex(b);
    UnhexHex(d);
  }

  /** A proof decodes exactly when its first 33 bytes are a point and its last 32 a number below q. */
  lemma ProofDecodes<P(!new)>(c: Curve<P>, a: seq<byte>, b: seq<byte>, d: seq<byte>, gamma: P, ch: nat, s: nat)
    requires |a| == 33 && |b| == 16 && |d| == 32
    ensures DecodeProof(c, Hex(a + b + d)) == Ok((gamma, ch, s)) <==>
              DecodePoint(c, a) == Some(gamma) && ch == FromBytes(b) && s == FromBytes(d) < c.q
    ensures !DecodeProof(c, Hex(a + b + d)).Ok? ==> DecodeProof(c, Hex(a + b + d)) == Invalid
  {
    SlicedHex(a, b, d);
  }

  /** A proof with a genuine point, a 16-byte challenge and s below q survives encoding. */
  lemma ProofRoundTrip<P(!new)>(c: Curve<P>, gamma: P, ch: nat, s: nat)
    requires CodingLaws(c) && gamma != c.zero && ch < Pow256(16) && s < c.q
    ensures EncodeProof(c, gamma, ch, s).Ok?
    ensures DecodeProof(c, EncodeProof(c, gamma, ch, s).value) == Ok((gamma, ch, s))
  {
    PointRoundTrip(c, gamma);
    ToFromBytes(ch, 16);
    ToFromBytes(s, 32);
    ProofDecodes(c, PointToString(c, gamma).value, ToBytes(ch, 16), ToBytes(s, 32), gamma, ch, s);
  }

  lemma PaddedBack(s: seq<byte>)
    requires |s| > 0
    ensures ZeroPad(BnBytes(FromBytes(s)), |s|) == s
  {
    FromBytesBound(s);
    PaddedX(FromBytes(s), |s|);
    FromToBytes(s);
  }

  /** A compressed string that decodes is the encoding of the point it decodes to. */
  lemma PointFromString<P(!new)>(c: Curve<P>, s: seq<byte>)
    requires CodingLaws(c) && |s| == 33 && DecodePoint(c, s).Some?
    ensures PointToString(c, DecodePoint(c, s).value) == Ok(s)
  {
    PaddedBack(s[1..]);
    assert s == [s[0]] + s[1..];
  }

  lemma ProofFromBytes<P(!new)>(c: Curve<P>, a: seq<byte>, b: seq<byte>, d: seq<byte>, gamma: P, ch: nat, s: nat)
    requires CodingLaws(c) && |a| == 33 && |b| == 16 && |d| == 32
    requires DecodeProof(c, Hex(a + b + d)) == Ok((gamma, ch, s))
    ensures EncodeProof(c, gamma, ch, s) == Ok(Hex(a + b + d))
  {
    ProofDecodes(c, a, b, d, gamma, ch, s);
    PointFromString(c, a);
    NumberFromBytes(b);
    NumberFromBytes(d);
  }

  lemma NumberFromBytes(s: seq<byte>)
    ensures IntToString(FromBytes(s), |s|) == Ok(s)
  {
    FromBytesBound(s);
    FromToBytes(s);
  }

  lemma EncodedIsLowerCase<P(!new)>(c: Curve<P>, gamma: P, ch: nat, s: nat, pi: string)
    requires EncodeProof(c, gamma, ch, s) == Ok(pi)
    ensures |pi| == 162 && Hex(Unhex(pi)) == pi
  {
    UnhexHex(PointToString(c, gamma).value + ToBytes(ch, 16) + ToBytes(s, 32));
  }

  lemma LowerCaseSplits(pi: string) returns (a: seq<byte>, b: seq<byte>, d: seq<byte>)
    requires |pi| == 162 && Hex(Unhex(pi)) == pi
    ensures |a| == 33 && |b| == 16 && |d| == 32 && Hex(a + b + d) == pi
  {
    var bytes := Unhex(pi);
    a, b, d := bytes[..33], bytes[33..49], bytes[49..];
    assert bytes == a + b + d;
  }

  /** A proof that decodes is the encoding of what it decodes to exactly when it is 162 lower-case digits. */
  lemma ProofIsCanonical<P(!new)>(c: Curve<P>, pi: string, gamma: P, ch: nat, s: nat)
    requires CodingLaws(c) && DecodeProof(c, pi) == Ok((gamma, ch, s))
    ensures EncodeProof(c, gamma, ch, s) == Ok(pi) <==> |pi| == 162 && Hex(Unhex(pi)) == pi
  {
    if EncodeProof(c, gamma, ch, s) == Ok(pi) {
      EncodedIsLowerCase(c, gamma, ch, s, pi);
    } else if |pi| == 162 && Hex(Unhex(pi)) == pi {
      ProofDoesEncode(c, pi, gamma, ch, s);
    }
  }

  lemma ProofDoesEncode<P(!new)>(c: Curve<P>, pi: string, gamma: P, ch: nat, s: nat)
    requires CodingLaws(c) && DecodeProof(c, pi) == Ok((gamma, ch, s)) && |pi| == 162 && Hex(Unhex(pi)) == pi
    ensures EncodeProof(c, gamma, ch, s) == Ok(pi)
  {
    var a, b, d := LowerCaseSplits(pi);
    ProofFromBytes(c, a, b, d, gamma, ch, s);
  }

  // ---------------------------------------------------------------- hashes

  lemma {:induction false} TryFromIsPoint<P(!new)>(c: Curve<P>, pk: seq<byte>, alpha: seq<byte>, ctr: nat, h: Option<P>)
    requires CodingLaws(c) && ctr <= 256 && (h.Some? ==> h.value != c.zero)
    ensures var r := TryFrom(c, pk, alpha, ctr, h); r.Some? ==> r.value != c.zero
    decreases 256 - ctr
  {
    if Rejected(c, h) && ctr < 256 {
      DecodedIsPoint(c, [2] + c.hash(CurveInput(pk, alpha, ctr as byte)));
      TryFromIsPoint(c, pk, alpha, ctr + 1, Candidate(c, pk, alpha, ctr));
    }
  }

  lemma HashedIsPoint<P(!new)>(c: Curve<P>, pk: P, alpha: string)
    requires CodingLaws(c)
    ensures var r := HashToCurve(c, pk, alpha); r.Ok? ==> r.value != c.zero && pk != c.zero
  {
    if pk != c.zero {
      TryFromIsPoint(c, PointToString(c, pk).value, Unhex(alpha), 0, None);
    }
  }

  lemma PointStringsThrow<P(!new)>(c: Curve<P>, ps: seq<P>)
    ensures PointStrings(c, ps).Ok? <==> forall i :: 0 <= i < |ps| ==> ps[i] != c.zero
    ensures !PointStrings(c, ps).Invalid?
  {
    if ps != [] {
      var front := ps[..|ps| - 1];
      PointStringsThrow(c, front);
      assert forall i :: 0 <= i < |ps| ==> (ps[i] == if i < |front| then front[i] else ps[|ps| - 1]);
    }
  }

  /** The challenge exists exactly when no point is the identity, and is the first 16 bytes of the hash. */
  lemma ChallengeExists<P(!new)>(c: Curve<P>, ps: seq<P>)
    requires CodingLaws(c)
    ensures HashPoints(c, ps).Ok? <==> forall i :: 0 <= i < |ps| ==> ps[i] != c.zero
    ensures HashPoints(c, ps).Ok? ==>
              && HashPoints(c, ps).value < Pow256(16) && PointStrings(c, ps).Ok?
              && ToBytes(HashPoints(c, ps).value, 16) == c.hash(ChallengeInput(PointStrings(c, ps).value))[..16]
    ensures !HashPoints(c, ps).Invalid?
  {
    PointStringsThrow(c, ps);
    if PointStrings(c, ps).Ok? {
      FromBytesBound(c.hash(ChallengeInput(PointStrings(c, ps).value))[..16]);
      FromToBytes(c.hash(ChallengeInput(PointStrings(c, ps).value))[..16]);
    }
  }

  /** A candidate is the point with an even y whose x is the hash of its input. */
  lemma CandidateIs<P(!new)>(c: Curve<P>, pk: seq<byte>, alpha: seq<byte>, ctr: nat, a: P)
    requires CodingLaws(c) && ctr < 256
    ensures Candidate(c, pk, alpha, ctr) == Some(a) <==>
              a != c.zero && c.y(a) % 2 == 0 && c.x(a) == FromBytes(c.hash(CurveInput(pk, alpha, ctr as byte)))
  {
    var h := c.hash(CurveInput(pk, alpha, ctr as byte));
    assert ([2] + h)[1..] == h;
  }

  /** A candidate is taken when it decodes and neither coordinate is 0. */
  predicate Taken<P(==)>(c: Curve<P>, pk: seq<byte>, alpha: seq<byte>, ctr: nat) {
    ctr < 256 && Candidate(c, pk, alpha, ctr).Some? &&
    var a := Candidate(c, pk, alpha, ctr).value; c.x(a) != 0 && c.y(a) != 0
  }

  lemma TakenIsNotRejected<P(!new)>(c: Curve<P>, pk: seq<byte>, alpha: seq<byte>, ctr: nat)
    requires CodingLaws(c) && ctr < 256
    ensures Taken(c, pk, alpha, ctr) <==> !Rejected(c, Candidate(c, pk, alpha, ctr))
  {
    var h := Candidate(c, pk, alpha, ctr);
    DecodedIsPoint(c, [2] + c.hash(CurveInput(pk, alpha, ctr as byte)));
    if h.Some? { assert Equation(c, h.value); }
  }

  /** The first candidate taken, or the last of the 256 if none is. */
  ghost predicate IsFirst<P>(c: Curve<P>, pk: seq<byte>, alpha: seq<byte>, ctr: nat) {
    ctr < 256 && (Taken(c, pk, alpha, ctr) || ctr == 255) && forall k: nat :: k < ctr ==> !Taken(c, pk, alpha, k)
  }

  lemma {:induction false} TryFromFindsFirst<P(!new)>(c: Curve<P>, pk: seq<byte>, alpha: seq<byte>, ctr: nat) returns (at: nat)
    requires CodingLaws(c) && ctr < 256 && forall k: nat :: k < ctr ==> !Taken(c, pk, alpha, k)
    ensures IsFirst(c, pk, alpha, at)
    ensures TryFrom(c, pk, alpha, ctr + 1, Candidate(c, pk, alpha, ctr)) == Candidate(c, pk, alpha, at)
    decreases 256 - ctr
  {
    TakenIsNotRejected(c, pk, alpha, ctr);
    at := ctr;
    if !Taken(c, pk, alpha, ctr) && ctr < 255 {
      at := TryFromFindsFirst(c, pk, alpha, ctr + 1);
    }
  }

  lemma TryFindsFirst<P(!new)>(c: Curve<P>, pk: seq<byte>, alpha: seq<byte>) returns (at: nat)
    requires CodingLaws(c)
    ensures IsFirst(c, pk, alpha, at) && TryFrom(c, pk, alpha, 0, None) == Candidate(c, pk, alpha, at)
  {
    at := TryFromFindsFirst(c, pk, alpha, 0);
  }

  lemma HashTries<P(!new)>(c: Curve<P>, pk: P, s: seq<byte>, alpha: string)
    requires PointToString(c, pk) == Ok(s)
    ensures var h := TryFrom(c, s, Unhex(alpha), 0, None);
            HashToCurve(c, pk, alpha) == if h.Some? then Ok(h.value) else Throws
  {
  }

  lemma FirstIsUnique<P(!new)>(c: Curve<P>, pk: seq<byte>, alpha: seq<byte>, i: nat, j: nat)
    requires IsFirst(c, pk, alpha, i) && IsFirst(c, pk, alpha, j)
    ensures i == j
  {
  }

  /**
   * Hashing to the curve gives the first of the 256 candidates that decodes to a point with
   * no coordinate 0, or the last candidate if there is none, and throws if that one does not
   * decode.
   */
  lemma HashFindsFirst<P(!new)>(c: Curve<P>, pk: P, s: seq<byte>, alpha: string) returns (ctr: nat)
    requires CodingLaws(c) && PointToString(c, pk) == Ok(s)
    ensures IsFirst(c, s, Unhex(alpha), ctr)
    ensures var h := Candidate(c, s, Unhex(alpha), ctr); HashToCurve(c, pk, alpha) == if h.Some? then Ok(h.value) else Throws
  {
    ctr := TryFindsFirst(c, s, Unhex(alpha));
    HashTries(c, pk, s, alpha);
  }

  /** What is hashed starts with suite and purpose and ends with 0, with the payload in between. */
  lemma InputsAreFramed(payload: seq<byte>, pk: seq<byte>, alpha: seq<byte>, ctr: byte)
    ensures CurveInput(pk, alpha, ctr) == [0xfe, 1] + (pk + alpha + [ctr]) + [0]
    ensures ChallengeInput(payload) == [0xfe, 2] + payload + [0] && OutputInput(payload) == [0xfe, 3] + payload + [0]
  {
    assert CurveInput(pk, alpha, ctr) == [0xfe, 1] + (pk + alpha + [ctr]) + [0];
  }

  /** Inputs hashed for different purposes never coincide, and a candidate's input tells alpha and counter. */
  lemma InputsAreSeparate(pk: seq<byte>, alpha: seq<byte>, ctr: byte, pk': seq<byte>, alpha': seq<byte>, ctr': byte,
                          points: seq<byte>, gamma: seq<byte>)
    ensures CurveInput(pk, alpha, ctr) != ChallengeInput(points) && CurveInput(pk, alpha, ctr) != OutputInput(gamma)
    ensures ChallengeInput(points) != OutputInput(gamma)
    ensures |pk| == |pk'| && CurveInput(pk, alpha, ctr) == CurveInput(pk', alpha', ctr') ==>
              pk == pk' && alpha == alpha' && ctr == ctr'
  {
    var a, b := CurveInput(pk, alpha, ctr), CurveInput(pk', alpha', ctr');
    assert a[1] == 1 && ChallengeInput(points)[1] == 2 && OutputInput(gamma)[1] == 3;
    if |pk| == |pk'| && a == b {
      assert a[2..2 + |pk|] == pk && b[2..2 + |pk|] == pk';
      assert a[2 + |pk|..|a| - 2] == alpha && b[2 + |pk|..|b| - 2] == alpha';
      assert a[|a| - 2] == ctr && b[|b| - 2] == ctr';
    }
  }

  lemma {:induction false} PointStringsLength<P(!new)>(c: Curve<P>, ps: seq<P>)
    requires PointStrings(c, ps).Ok?
    ensures |PointStrings(c, ps).value| == 33 * |ps|
  {
    if ps != [] { PointStringsLength(c, ps[..|ps| - 1]); }
  }

  lemma EndsWith(s: seq<byte>, front: seq<byte>, last: seq<byte>)
    requires s == front + last
    ensures s[..|s| - |last|] == front && s[|s| - |last|..] == last
  {
  }

  lemma LastPoint<P(!new)>(c: Curve<P>, ps: seq<P>)
    requires PointStrings(c, ps).Ok? && ps != []
    ensures var s, front, p := PointStrings(c, ps).value, ps[..|ps| - 1], ps[|ps| - 1];
            && p != c.zero && |s| >= 33 && PointStrings(c, front) == Ok(s[..|s| - 33])
            && PointToString(c, p) == Ok(s[|s| - 33..]) && ps == front + [p]
  {
    var front, last := PointStrings(c, ps[..|ps| - 1]), PointToString(c, ps[|ps| - 1]);
    EndsWith(PointStrings(c, ps).value, front.value, last.value);
  }

  lemma {:induction false} PointStringsBind<P(!new)>(c: Curve<P>, ps: seq<P>, qs: seq<P>)
    requires CodingLaws(c) && PointStrings(c, ps).Ok? && PointStrings(c, ps) == PointStrings(c, qs)
    ensures ps == qs
  {
    PointStringsLength(c, ps);
    PointStringsLength(c, qs);
    if ps != [] {
      LastPoint(c, ps);
      LastPoint(c, qs);
      PointRoundTrip(c, ps[|ps| - 1]);
      PointRoundTrip(c, qs[|qs| - 1]);
      PointStringsBind(c, ps[..|ps| - 1], qs[..|qs| - 1]);
    }
  }

  /** The string hashed for a challenge tells all points under it, in order. */
  lemma ChallengeBinds<P(!new)>(c: Curve<P>, ps: seq<P>, qs: seq<P>)
    requires CodingLaws(c) && PointStrings(c, ps).Ok? && PointStrings(c, qs).Ok?
    requires ChallengeInput(PointStrings(c, ps).value) == ChallengeInput(PointStrings(c, qs).value)
    ensures ps == qs
  {
    var s, t := PointStrings(c, ps).value, PointStrings(c, qs).value;
    assert s == ChallengeInput(s)[2..|s| + 2] && t == ChallengeInput(t)[2..|t| + 2];
    assert |ChallengeInput(s)| == |s| + 3 && |ChallengeInput(t)| == |t| + 3;
    PointStringsBind(c, ps, qs);
  }

  // ---------------------------------------------------------------- completeness

  lemma TimesLinear<P(!new)>(c: Curve<P>, k: nat, ch: nat, sk: nat, a: P)
    requires GroupLaws(c)
    ensures Times(c, k + ch * sk, a) == c.add(Times(c, k, a), Times(c, ch, Times(c, sk, a)))
  {
    TimesSum(c, k, ch * sk, a);
    TimesProduct(c, ch, sk, a);
  }

  lemma Cancels<P(!new)>(c: Curve<P>, sk: nat, k: nat, ch: nat, n: nat, s: nat, a: P)
    requires GroupLaws(c) && n == k + ch * sk && s == n % c.q
    ensures Minus(c, Times(c, s, a), Times(c, ch, Times(c, sk, a))) == Times(c, k, a)
  {
    TimesLinear(c, k, ch, sk, a);
    TimesMod(c, n, a);
    Cancel(c, Times(c, k, a), Times(c, ch, Times(c, sk, a)));
  }

  /** s a - ch (sk a) = k a, for s = k + ch sk modulo q. */
  lemma ResponseCancels<P(!new)>(c: Curve<P>, sk: nat, k: nat, ch: nat, a: P)
    requires GroupLaws(c)
    ensures Answer(c, k, ch, sk) < c.q
    ensures Minus(c, Times(c, Answer(c, k, ch, sk), a), Times(c, ch, Times(c, sk, a))) == Times(c, k, a)
  {
    Cancels(c, sk, k, ch, k + ch * sk, Answer(c, k, ch, sk), a);
  }

  lemma KeyIsMultiple<P(!new)>(c: Curve<P>, sk: nat)
    requires GroupLaws(c)
    ensures PublicKey(c, sk) == Times(c, sk, c.base)
    ensures PublicKey(c, sk) == c.zero <==> sk % c.q == 0
  {
    TimesMod(c, sk, c.base);
    TimesVanishes(c, sk, c.base);
  }

  /** The nonce the prover derives once it has hashed to h. */
  function NonceFor<P(==)>(c: Curve<P>, sk: nat, h: P): nat {
    var hs := PointToString(c, h);
    if hs.Ok? then c.nonce(sk, hs.value) else 0
  }

  /** The four points under the challenge. */
  function Commitment<P(==)>(c: Curve<P>, sk: nat, h: P): seq<P> {
    var k := NonceFor(c, sk, h);
    [h, Times(c, sk, h), Times(c, k, c.base), Times(c, k, h)]
  }

  lemma CommitmentIsProper<P(!new)>(c: Curve<P>, sk: nat, h: P)
    requires GroupLaws(c) && CodingLaws(c) && h != c.zero && sk % c.q != 0
    ensures HashPoints(c, Commitment(c, sk, h)).Ok? <==> NonceFor(c, sk, h) % c.q != 0
  {
    var k, ps := NonceFor(c, sk, h), Commitment(c, sk, h);
    TimesVanishes(c, sk, h);
    TimesVanishes(c, k, h);
    TimesVanishes(c, k, c.base);
    ChallengeExists(c, ps);
    assert ps[0] != c.zero && ps[1] != c.zero && (ps[2] == c.zero <==> k % c.q == 0) && (ps[3] == c.zero <==> k % c.q == 0);
    assert ps[2] == c.zero ==> exists i :: 0 <= i < |ps| && ps[i] == c.zero;
  }

  /**
   * The prover gives a proof exactly when q divides neither the secret nor the derived nonce
   * and hashing to the curve succeeds; otherwise it throws. The proof decodes to Gamma = sk H,
   * the challenge, and s = k + ch sk modulo q.
   */
  lemma ProveSucceeds<P(!new)>(c: Curve<P>, sk: nat, alpha: string)
    requires GroupLaws(c) && CodingLaws(c)
    ensures var h := HashToCurve(c, PublicKey(c, sk), alpha);
            Prove(c, sk, alpha).Ok? <==> sk % c.q != 0 && h.Ok? && NonceFor(c, sk, h.value) % c.q != 0
    ensures !Prove(c, sk, alpha).Invalid?
    ensures Prove(c, sk, alpha).Ok? ==>
              var h := HashToCurve(c, PublicKey(c, sk), alpha).value;
              var ch := HashPoints(c, Commitment(c, sk, h));
              && h != c.zero && ch.Ok?
              && DecodeProof(c, Prove(c, sk, alpha).value)
                 == Ok((Times(c, sk, h), ch.value, Answer(c, NonceFor(c, sk, h), ch.value, sk)))
  {
    var y := PublicKey(c, sk);
    KeyIsMultiple(c, sk);
    HashedIsPoint(c, y, alpha);
    var hr := HashToCurve(c, y, alpha);
    if hr.Ok? {
      var h := hr.value;
      PointRoundTrip(c, h);
      CommitmentIsProper(c, sk, h);
      var ch := HashPoints(c, Commitment(c, sk, h));
      if ch.Ok? {
        ChallengeExists(c, Commitment(c, sk, h));
        TimesVanishes(c, sk, h);
        ResponseCancels(c, sk, NonceFor(c, sk, h), ch.value, h);
        ProofRoundTrip(c, Times(c, sk, h), ch.value, Answer(c, NonceFor(c, sk, h), ch.value, sk));
      }
    }
  }

  /** Both SEC 1 encodings of the matching public key are accepted. */
  lemma KeyEncodingsMatch<P(!new)>(c: Curve<P>, sk: nat)
    requires GroupLaws(c) && CodingLaws(c) && sk % c.q != 0
    ensures var y := PublicKey(c, sk);
            && PointToString(c, y).Ok?
            && DecodePoint(c, Unhex(Hex(PointToString(c, y).value))) == Some(y)
            && DecodePoint(c, Unhex(Hex([4] + ToBytes(c.x(y), 32) + ToBytes(c.y(y), 32)))) == Some(y)
  {
    var y := PublicKey(c, sk);
    KeyIsMultiple(c, sk);
    PointRoundTrip(c, y);
    UncompressedRoundTrip(c, y);
    UnhexHex(PointToString(c, y).value);
    UnhexHex([4] + ToBytes(c.x(y), 32) + ToBytes(c.y(y), 32));
  }

  /** Whatever decodes, hashes: proof_to_hash succeeds exactly on decodable proofs. */
  lemma DecodableHashes<P(!new)>(c: Curve<P>, pi: string)
    requires CodingLaws(c)
    ensures DecodeProof(c, pi).Ok? <==> ProofToHash(c, pi).Ok?
  {
    DecodedIsPoint(c, Unhex(Slice(pi, 0, 66)));
  }

  /**
   * Completeness: every proof the prover gives is VALID under every encoding of the matching
   * public key, and verification returns proof_to_hash of that proof.
   */
  lemma VerifyAcceptsProof<P(!new)>(c: Curve<P>, sk: nat, pk: string, alpha: string)
    requires GroupLaws(c) && CodingLaws(c)
    requires Prove(c, sk, alpha).Ok? && DecodePoint(c, Unhex(pk)) == Some(PublicKey(c, sk))
    ensures var pi := Prove(c, sk, alpha).value;
            ProofToHash(c, pi).Ok? && Verify(c, pk, pi, alpha) == Ok(Hex(ProofToHash(c, pi).value))
  {
    var pi := Prove(c, sk, alpha).value;
    ProveSucceeds(c, sk, alpha);
    DecodableHashes(c, pi);
    var y := PublicKey(c, sk);
    var h := HashToCurve(c, y, alpha).value;
    var ch := HashPoints(c, Commitment(c, sk, h)).value;
    KeyIsMultiple(c, sk);
    ResponseCancels(c, sk, NonceFor(c, sk, h), ch, c.base);
    ResponseCancels(c, sk, NonceFor(c, sk, h), ch, h);
  }

  // ---------------------------------------------------------------- what verification decides

  /** The two points verification recomputes from challenge ch and answer s. */
  predicate Opens<P(==)>(c: Curve<P>, y: P, h: P, gamma: P, ch: nat, s: nat, u: P, v: P) {
    && u == Minus(c, Times(c, s, c.base), Times(c, ch, y))
    && v == Minus(c, Times(c, s, h), Times(c, ch, gamma))
  }

  /** Key and proof decode, alpha hashes to h, and the points they open hash to challenge d. */
  ghost predicate Recomputed<P>(c: Curve<P>, pk: string, pi: string, alpha: string, y: P, gamma: P, ch: nat, s: nat,
                                    h: P, u: P, v: P, d: nat) {
    && DecodePoint(c, Unhex(pk)) == Some(y) && DecodeProof(c, pi) == Ok((gamma, ch, s)) && HashToCurve(c, y, alpha) == Ok(h)
    && Opens(c, y, h, gamma, ch, s, u, v) && HashPoints(c, [h, gamma, u, v]) == Ok(d)
  }

  /**
   * Verification accepts exactly when the challenge recomputed from the opened points is the
   * one in the proof, and then returns proof_to_hash. It answers INVALID exactly when the key
   * decodes and the proof does not, or that challenge differs; in all other cases it throws.
   */
  lemma VerifyDecides<P(!new)>(c: Curve<P>, pk: string, pi: string, alpha: string)
    requires CodingLaws(c)
    ensures Verify(c, pk, pi, alpha).Ok? <==>
              exists y, gamma, ch, s, h, u, v, d :: Recomputed(c, pk, pi, alpha, y, gamma, ch, s, h, u, v, d) && d == ch
    ensures Verify(c, pk, pi, alpha) == Invalid <==>
              || (DecodePoint(c, Unhex(pk)).Some? && !DecodeProof(c, pi).Ok?)
              || (exists y, gamma, ch, s, h, u, v, d :: Recomputed(c, pk, pi, alpha, y, gamma, ch, s, h, u, v, d) && d != ch)
    ensures Verify(c, pk, pi, alpha).Ok? ==>
              ProofToHash(c, pi).Ok? && Verify(c, pk, pi, alpha).value == Hex(ProofToHash(c, pi).value)
  {
    DecodableHashes(c, pi);
    var y, p := DecodePoint(c, Unhex(pk)), DecodeProof(c, pi);
    if y.Some? && p.Ok? && HashToCurve(c, y.value, alpha).Ok? {
      var (gamma, ch, s) := p.value;
      var h := HashToCurve(c, y.value, alpha).value;
      var u := Minus(c, Times(c, s, c.base), Times(c, ch, y.value));
      var v := Minus(c, Times(c, s, h), Times(c, ch, gamma));
      var d := HashPoints(c, [h, gamma, u, v]);
      if d.Ok? { assert Recomputed(c, pk, pi, alpha, y.value, gamma, ch, s, h, u, v, d.value); }
    }
  }

  /** The output is the hash of Gamma, so two proofs with one Gamma yield one output. */
  lemma OutputIsHashOfGamma<P(!new)>(c: Curve<P>, pi: string, gamma: P, ch: nat, s: nat)
    requires CodingLaws(c) && DecodeProof(c, pi) == Ok((gamma, ch, s))
    ensures PointToString(c, gamma).Ok? && ProofToHash(c, pi) == Ok(c.hash(OutputInput(PointToString(c, gamma).value)))
  {
    DecodableHashes(c, pi);
  }

  // ---------------------------------------------------------------- special soundness

  /** q - n modulo q, the scalar of the opposite. */
  function Negated<P>(c: Curve<P>, n: nat): nat
    requires c.q > 0
  {
    c.q - Reduce(c, n)
  }

  lemma NegatedTimes<P(!new)>(c: Curve<P>, n: nat, a: P)
    requires GroupLaws(c)
    ensures c.add(Times(c, Negated(c, n), a), Times(c, n, a)) == c.zero
  {
    TimesMod(c, n, a);
    TimesSum(c, Negated(c, n), Reduce(c, n), a);
  }

  /** A scalar for m - n. */
  function Difference<P>(c: Curve<P>, m: nat, n: nat): nat
    requires c.q > 0
  {
    m + Negated(c, n)
  }

  /** Times m + (q - n) is times m minus times n. */
  lemma TimesMinus<P(!new)>(c: Curve<P>, m: nat, n: nat, a: P)
    requires GroupLaws(c)
    ensures Times(c, Difference(c, m, n), a) == Minus(c, Times(c, m, a), Times(c, n, a))
  {
    TimesSum(c, m, Negated(c, n), a);
    NegatedTimes(c, n, a);
    OppositeIsUnique(c, Times(c, Negated(c, n), a), Times(c, n, a));
  }

  lemma OppositeIsUnique<P(!new)>(c: Curve<P>, a: P, b: P)
    requires GroupLaws(c) && c.add(a, b) == c.zero
    ensures a == c.neg(b)
  {
    assert Sum3(c, a, b, c.neg(b)) == c.add(a, c.add(b, c.neg(b)));
    assert Sum(c, a, c.zero) == c.add(c.zero, a);
  }

  /** From a - b = d - e to a - d = b - e. */
  lemma Rearranges<P(!new)>(c: Curve<P>, a: P, b: P, d: P, e: P)
    requires GroupLaws(c) && Minus(c, a, b) == Minus(c, d, e)
    ensures Minus(c, a, d) == Minus(c, b, e)
  {
    // a = (d - e) + b
    var n := c.neg(b);
    assert Sum3(c, a, n, b) == c.add(a, c.add(n, b));
    assert Sum(c, n, b) == c.add(b, n);
    assert Sum(c, a, c.zero) == c.add(c.zero, a);
    assert a == c.add(Minus(c, d, e), b);
    // (d - e) + b - d = b - e
    var ne, nd := c.neg(e), c.neg(d);
    assert Sum3(c, c.add(d, ne), b, nd) == c.add(c.add(d, ne), c.add(b, nd));
    assert Sum3(c, d, ne, c.add(b, nd)) == c.add(d, c.add(ne, c.add(b, nd)));
    assert Sum3(c, ne, b, nd) == c.add(ne, c.add(b, nd));
    assert Sum(c, c.add(ne, b), nd) == c.add(nd, c.add(ne, b));
    assert Sum3(c, d, nd, c.add(ne, b)) == c.add(d, c.add(nd, c.add(ne, b)));
    assert Sum(c, ne, b) == c.add(b, ne);
  }

  lemma EqualMeansNoDifference<P(!new)>(c: Curve<P>, a: P, b: P)
    requires GroupLaws(c)
    ensures Minus(c, a, b) == c.zero <==> a == b
  {
    if Minus(c, a, b) == c.zero {
      OppositeIsUnique(c, a, c.neg(b));
      assert Sum(c, c.neg(b), b) == c.add(b, c.neg(b));
      OppositeIsUnique(c, b, c.neg(b));
    }
  }

  lemma {:induction false} TimesDistributes<P(!new)>(c: Curve<P>, n: nat, a: P, b: P)
    requires GroupLaws(c)
    ensures Times(c, n, c.add(a, b)) == c.add(Times(c, n, a), Times(c, n, b))
  {
    if n > 0 {
      var x, y := Times(c, n - 1, a), Times(c, n - 1, b);
      TimesDistributes(c, n - 1, a, b);
      assert Sum3(c, a, b, c.add(x, y)) == c.add(a, c.add(b, c.add(x, y)));
      assert Sum3(c, b, x, y) == c.add(b, c.add(x, y));
      assert Sum(c, b, x) == c.add(x, b);
      assert Sum3(c, x, b, y) == c.add(x, c.add(b, y));
      assert Sum3(c, a, x, c.add(b, y)) == c.add(a, c.add(x, c.add(b, y)));
    }
  }

  /** A factor that is no multiple of q cancels. */
  lemma TimesCancels<P(!new)>(c: Curve<P>, n: nat, a: P, b: P)
    requires GroupLaws(c) && Reduce(c, n) != 0 && Times(c, n, a) == Times(c, n, b)
    ensures a == b
  {
    TimesDistributes(c, n, b, c.neg(b));
    TimesOfZero(c, n);
    assert Sum(c, Times(c, n, b), Times(c, n, c.neg(b))) == c.add(Times(c, n, c.neg(b)), Times(c, n, b));
    TimesDistributes(c, n, a, c.neg(b));
    TimesVanishes(c, n, Minus(c, a, b));
    EqualMeansNoDifference(c, a, b);
  }

  /** Two answers to one commitment: the difference of the answers times a is that of the challenges times y. */
  lemma AnswersDiffer<P(!new)>(c: Curve<P>, a: P, y: P, ch1: nat, s1: nat, ch2: nat, s2: nat)
    requires GroupLaws(c)
    requires Minus(c, Times(c, s1, a), Times(c, ch1, y)) == Minus(c, Times(c, s2, a), Times(c, ch2, y))
    ensures Times(c, Difference(c, s1, s2), a) == Times(c, Difference(c, ch1, ch2), y)
  {
    Rearranges(c, Times(c, s1, a), Times(c, ch1, y), Times(c, s2, a), Times(c, ch2, y));
    TimesMinus(c, s1, s2, a);
    TimesMinus(c, ch1, ch2, y);
  }

  lemma DifferenceVanishes(m: nat, n: nat, q: nat)
    requires q > 0
    ensures (m + (q - n % q)) % q == 0 <==> m % q == n % q
  {
    var a, b := m / q, n % q;
    assert m == q * a + m % q;
    RemainderOf(m + (q - b), q, if m % q >= b then a + 1 else a, if m % q >= b then m % q - b else m % q - b + q);
  }

  lemma RemainderOf(x: nat, q: nat, a: nat, r: nat)
    requires r < q && x == q * a + r
    ensures x % q == r
  {
    var k, m := x / q, x % q;
    assert x == q * k + m && q * (a - k) == q * a - q * k;
    Scales(q, a - k);
  }

  /** If two scalars act alike on the base point, they act alike on every point. */
  lemma ActsAlike<P(!new)>(c: Curve<P>, m: nat, n: nat, a: P)
    requires GroupLaws(c) && Times(c, m, c.base) == Times(c, n, c.base)
    ensures Times(c, m, a) == Times(c, n, a)
  {
    TimesMinus(c, m, n, c.base);
    EqualMeansNoDifference(c, Times(c, m, c.base), Times(c, n, c.base));
    TimesVanishes(c, Difference(c, m, n), c.base);
    TimesVanishes(c, Difference(c, m, n), a);
    TimesMinus(c, m, n, a);
    EqualMeansNoDifference(c, Times(c, m, a), Times(c, n, a));
  }

  /**
   * Special soundness: two answers that open one pair (U, V) for challenges that differ modulo
   * q force Gamma = sk H. So whatever pair is hashed, a wrong Gamma can be opened for at most
   * one challenge modulo q.
   */
  lemma SpecialSoundness<P(!new)>(c: Curve<P>, sk: nat, h: P, gamma: P, u: P, v: P, ch1: nat, s1: nat, ch2: nat, s2: nat)
    requires GroupLaws(c)
    requires Opens(c, PublicKey(c, sk), h, gamma, ch1, s1, u, v) && Opens(c, PublicKey(c, sk), h, gamma, ch2, s2, u, v)
    requires Reduce(c, ch1) != Reduce(c, ch2)
    ensures gamma == Times(c, sk, h)
  {
    OpenedTwice(c, PublicKey(c, sk), h, gamma, u, v, ch1, s1, ch2, s2);
    KeyIsMultiple(c, sk);
    DifferentChallenges(c, ch1, ch2);
    ScalarsForceGamma(c, sk, h, gamma, Difference(c, s1, s2), Difference(c, ch1, ch2));
  }

  /**
   * What a wrong Gamma takes: if a proof with Gamma other than sk H is accepted, the points it
   * opens can be opened for no other challenge modulo q, so the hash of those very points hit
   * the one challenge they allow.
   */
  lemma WrongGammaHasOneChallenge<P(!new)>(c: Curve<P>, sk: nat, pk: string, pi: string, alpha: string, gamma: P, ch: nat,
                                           s: nat, h: P, u: P, v: P, ch2: nat, s2: nat)
    requires GroupLaws(c) && CodingLaws(c)
    requires Recomputed(c, pk, pi, alpha, PublicKey(c, sk), gamma, ch, s, h, u, v, ch) && gamma != Times(c, sk, h)
    requires Opens(c, PublicKey(c, sk), h, gamma, ch2, s2, u, v)
    ensures Verify(c, pk, pi, alpha).Ok? && Reduce(c, ch2) == Reduce(c, ch)
  {
    VerifyDecides(c, pk, pi, alpha);
    if Reduce(c, ch2) != Reduce(c, ch) {
      SpecialSoundness(c, sk, h, gamma, u, v, ch, s, ch2, s2);
    }
  }

  lemma OpenedTwice<P(!new)>(c: Curve<P>, y: P, h: P, gamma: P, u: P, v: P, ch1: nat, s1: nat, ch2: nat, s2: nat)
    requires GroupLaws(c) && Opens(c, y, h, gamma, ch1, s1, u, v) && Opens(c, y, h, gamma, ch2, s2, u, v)
    ensures Times(c, Difference(c, s1, s2), c.base) == Times(c, Difference(c, ch1, ch2), y)
    ensures Times(c, Difference(c, s1, s2), h) == Times(c, Difference(c, ch1, ch2), gamma)
  {
    AnswersDiffer(c, c.base, y, ch1, s1, ch2, s2);
    AnswersDiffer(c, h, gamma, ch1, s1, ch2, s2);
  }

  lemma DifferentChallenges<P(!new)>(c: Curve<P>, ch1: nat, ch2: nat)
    requires c.q > 0 && Reduce(c, ch1) != Reduce(c, ch2)
    ensures Reduce(c, Difference(c, ch1, ch2)) != 0
  {
    DifferenceVanishes(ch1, ch2, c.q);
  }

  lemma ScalarsForceGamma<P(!new)>(c: Curve<P>, sk: nat, h: P, gamma: P, s: nat, d: nat)
    requires GroupLaws(c) && Reduce(c, d) != 0
    requires Times(c, s, c.base) == Times(c, d, Times(c, sk, c.base)) && Times(c, s, h) == Times(c, d, gamma)
    ensures gamma == Times(c, sk, h)
  {
    TimesProduct(c, d, sk, c.base);
    TimesProduct(c, d, sk, h);
    ActsAlike(c, s, d * sk, h);
    TimesCancels(c, d, gamma, Times(c, sk, h));
  }

  // ---------------------------------------------------------------- fast verification

  /** Coordinates determine the point. */
  lemma CoordinatesDetermine<P(!new)>(c: Curve<P>, a: P, b: P)
    requires CodingLaws(c) && Coordinates(c, a).Some? && Coordinates(c, a) == Coordinates(c, b)
    ensures a == b
  {
    assert c.lift(c.x(a), c.y(a) % 2) == Some(a);
    assert c.lift(c.x(b), c.y(b) % 2) == Some(b);
  }

  lemma SmallMultipleVanishes<P(!new)>(c: Curve<P>, s: nat, a: P)
    requires GroupLaws(c) && s < c.q
    ensures Times(c, s, a) == c.zero <==> a == c.zero || s == 0
  {
    TimesVanishes(c, s, a);
    ReducedStays(s, c.q);
  }

  lemma ReducedStays(s: nat, q: nat)
    requires s < q
    ensures s % q == s
  {
  }

  /** Which of the fast components have coordinates, for an honest proof. */
  lemma ComponentsExist<P(!new)>(c: Curve<P>, sk: nat, k: nat, ch: nat, h: P)
    requires GroupLaws(c) && h != c.zero && Reduce(c, sk) != 0 && Reduce(c, k) != 0
    ensures var s, gamma := Answer(c, k, ch, sk), Times(c, sk, h);
            && gamma != c.zero
            && Minus(c, Times(c, s, c.base), Times(c, ch, PublicKey(c, sk))) != c.zero
            && (Times(c, s, h) == c.zero <==> s == 0)
            && (Times(c, ch, gamma) == c.zero <==> Reduce(c, ch) == 0)
  {
    KeyIsMultiple(c, sk);
    ResponseCancels(c, sk, k, ch, c.base);
    TimesVanishes(c, k, c.base);
    TimesVanishes(c, sk, h);
    TimesVanishes(c, ch, Times(c, sk, h));
    SmallMultipleVanishes(c, Answer(c, k, ch, sk), h);
  }

  lemma FastExists<P(!new)>(c: Curve<P>, pk: string, pi: string, alpha: string, y: P, gamma: P, ch: nat, s: nat, h: P)
    requires DecodePoint(c, Unhex(pk)) == Some(y) && DecodeProof(c, pi) == Ok((gamma, ch, s))
    requires HashToCurve(c, y, alpha) == Ok(h)
    ensures !FastComponents(c, pk, pi, alpha).Invalid?
    ensures FastComponents(c, pk, pi, alpha).Ok? <==>
              && Minus(c, Times(c, s, c.base), Times(c, ch, y)) != c.zero
              && Times(c, s, h) != c.zero && Times(c, ch, gamma) != c.zero
  {
  }

  /**
   * processVrfRequest never reports InvalidProofError for its own proof. It answers exactly
   * when the prover does and neither s nor the challenge is a multiple of q: then s H or
   * ch Gamma would have no coordinates.
   */
  lemma RequestSucceeds<P(!new)>(c: Curve<P>, sk: nat, pk: string, alpha: string)
    requires GroupLaws(c) && CodingLaws(c) && DecodePoint(c, Unhex(pk)) == Some(PublicKey(c, sk))
    ensures !ProcessRequest(c, sk, pk, alpha).Invalid?
    ensures ProcessRequest(c, sk, pk, alpha).Ok? <==>
              Prove(c, sk, alpha).Ok? &&
              var d := DecodeProof(c, Prove(c, sk, alpha).value); d.Ok? && d.value.2 != 0 && Reduce(c, d.value.1) != 0
  {
    ProveSucceeds(c, sk, alpha);
    if Prove(c, sk, alpha).Ok? {
      var h := HashToCurve(c, PublicKey(c, sk), alpha).value;
      var k, ch := NonceFor(c, sk, h), HashPoints(c, Commitment(c, sk, h)).value;
      ComponentsExist(c, sk, k, ch, h);
      FastExists(c, pk, Prove(c, sk, alpha).value, alpha, PublicKey(c, sk), Times(c, sk, h), ch, Answer(c, k, ch, sk), h);
    }
  }

  /**
   * Fast verification agrees with full verification: for the answer to a request, hashing H,
   * Gamma, the point u and the difference of the points s H and ch Gamma - each read back
   * from the coordinates handed out - reproduces the challenge. They are what full verification
   * computes from the s and ch handed out with them.
   */
  lemma FastReproducesChallenge<P(!new)>(c: Curve<P>, sk: nat, pk: string, alpha: string, gamma: P, u: P, sH: P, cGamma: P)
    requires GroupLaws(c) && CodingLaws(c) && DecodePoint(c, Unhex(pk)) == Some(PublicKey(c, sk))
    requires ProcessRequest(c, sk, pk, alpha).Ok?
    requires var r := ProcessRequest(c, sk, pk, alpha).value;
             && Coordinates(c, gamma) == Some(r.gamma) && Coordinates(c, u) == Some(r.fast.u)
             && Coordinates(c, sH) == Some(r.fast.sH) && Coordinates(c, cGamma) == Some(r.fast.cGamma)
    ensures HashToCurve(c, PublicKey(c, sk), alpha).Ok?
    ensures HashPoints(c, [HashToCurve(c, PublicKey(c, sk), alpha).value, gamma, u, Minus(c, sH, cGamma)])
            == Ok(ProcessRequest(c, sk, pk, alpha).value.ch)
    ensures var r, h := ProcessRequest(c, sk, pk, alpha).value, HashToCurve(c, PublicKey(c, sk), alpha).value;
            && gamma == Times(c, sk, h) && sH == Times(c, r.s, h) && cGamma == Times(c, r.ch, gamma)
            && Opens(c, PublicKey(c, sk), h, gamma, r.ch, r.s, u, Minus(c, sH, cGamma))
  {
    ProveSucceeds(c, sk, alpha);
    var h := HashToCurve(c, PublicKey(c, sk), alpha).value;
    var k, ch := NonceFor(c, sk, h), HashPoints(c, Commitment(c, sk, h)).value;
    var s := Answer(c, k, ch, sk);
    KeyIsMultiple(c, sk);
    ResponseCancels(c, sk, k, ch, c.base);
    ResponseCancels(c, sk, k, ch, h);
    CoordinatesDetermine(c, gamma, Times(c, sk, h));
    CoordinatesDetermine(c, u, Times(c, k, c.base));
    CoordinatesDetermine(c, sH, Times(c, s, h));
    CoordinatesDetermine(c, cGamma, Times(c, ch, Times(c, sk, h)));
  }
}
