/**
 * The curve laws are consistent: y^2 = x^3 + 7 over the field of 13 elements has seven
 * points, and its group is Z_7 with generator (7, 5).
 */
module VrfToyCurve {
  import opened Wrappers
  import opened Bytes
  import opened Vrf
  import opened VrfProofs

  newtype Z7 = x: int | 0 <= x < 7

  function Plus(a: Z7, b: Z7): Z7 {
    var s := a as int + b as int;
    if s < 7 then s as Z7 else (s - 7) as Z7
  }

  function Opposite(a: Z7): Z7 {
    if a == 0 then 0 else (7 - a as int) as Z7
  }

  /** The x coordinates of the multiples of (7, 5). */
  function X(a: Z7): nat {
    match a
    case 0 => 0
    case 1 => 7
    case 2 => 8
    case 3 => 11
    case 4 => 11
    case 5 => 8
    case _ => 7
  }

  function Y(a: Z7): nat {
    match a
    case 0 => 0
    case 1 => 5
    case 2 => 5
    case 3 => 8
    case 4 => 5
    case 5 => 8
    case _ => 8
  }

  function Lift(x: nat, parity: nat): Option<Z7> {
    if x == 7 then (if parity == 1 then Some(1) else if parity == 0 then Some(6) else None)
    else if x == 8 then (if parity == 1 then Some(2) else if parity == 0 then Some(5) else None)
    else if x == 11 then (if parity == 1 then Some(4) else if parity == 0 then Some(3) else None)
    else None
  }

  function Digest(s: seq<byte>): seq<byte> { Zeros(31) + [7] }

  function Nonce(sk: nat, s: seq<byte>): nat { 1 }

  function Toy(): Curve<Z7> {
    Curve(7, 13, 7, 0, 1, Plus, Opposite, X, Y, Lift, Digest, Nonce)
  }

  lemma SevenTimes(a: Z7)
    ensures Times(Toy(), 7, a) == 0
  {
    var c := Toy();
    var a2 := Plus(a, a);
    var a3 := Plus(a, a2);
    assert Times(c, 1, a) == a && Times(c, 2, a) == a2 && Times(c, 3, a) == a3;
    assert Times(c, 4, a) == Plus(a, a3) && Times(c, 5, a) == Plus(a, Plus(a, a3));
    assert Times(c, 6, a) == Opposite(a);
  }

  lemma PlusAssociates(a: Z7, b: Z7, d: Z7)
    ensures Plus(Plus(a, b), d) == Plus(a, Plus(b, d))
  {
  }

  lemma SevenIsPrime()
    ensures Prime(7)
  {
    assert 7 % 2 == 1 && 7 % 3 == 1 && 7 % 4 == 3 && 7 % 5 == 2 && 7 % 6 == 1;
  }

  lemma ToyIsGroup()
    ensures GroupLaws(Toy())
  {
    var c := Toy();
    forall a: Z7 ensures Times(c, c.q, a) == c.zero { SevenTimes(a); }
    forall a: Z7, b: Z7, d: Z7 ensures Sum3(c, a, b, d) == c.add(a, c.add(b, d)) { PlusAssociates(a, b, d); }
    SevenIsPrime();
  }

  lemma LiftFinds(x: nat, parity: nat, a: Z7)
    ensures Lift(x, parity) == Some(a) <==> a != 0 && X(a) == x && Y(a) % 2 == parity
  {
  }

  lemma OnToyCurve(a: Z7)
    requires a != 0
    ensures X(a) < 13 && Y(a) < 13 && Equation(Toy(), a)
  {
    assert (5 * 5) % 13 == 12 && (8 * 8) % 13 == 12;
    assert ((7 * 7) % 13 * 7) % 13 == 5 && ((8 * 8) % 13 * 8) % 13 == 5 && ((11 * 11) % 13 * 11) % 13 == 5;
  }

  lemma ToyIsCoded()
    ensures CodingLaws(Toy())
  {
    var c := Toy();
    PowGrows(32);
    forall a: Z7 | a != c.zero ensures c.x(a) < c.p && c.y(a) < c.p && Equation(c, a) { OnToyCurve(a); }
    forall x: nat, parity: nat, a: Z7
      ensures c.lift(x, parity) == Some(a) <==> a != c.zero && c.x(a) == x && c.y(a) % 2 == parity
    {
      LiftFinds(x, parity, a);
    }
    forall s ensures |c.hash(s)| == 32 { assert c.hash(s) == Digest(s); }
  }

  lemma {:induction false} PowGrows(n: nat)
    ensures Pow256(n) >= 1 && (n > 0 ==> Pow256(n) >= 256)
  {
    if n > 0 { PowGrows(n - 1); }
  }

  /** A curve record that meets every law the theorems ask for. */
  lemma LawsAreConsistent()
    ensures exists c: Curve<Z7> :: GroupLaws(c) && CodingLaws(c)
  {
    ToyIsGroup();
    ToyIsCoded();
  }

  // ---------------------------------------------------------------- a request that throws, a proof that is rejected

  lemma {:induction false} ZerosRead(n: nat)
    ensures FromBytes(Zeros(n)) == 0
  {
    if n > 0 {
      ZerosRead(n - 1);
      assert Zeros(n)[..n - 1] == Zeros(n - 1);
    }
  }

  /** Every hash reads as 7, and its first 16 bytes as 0. */
  lemma DigestReads(s: seq<byte>)
    ensures FromBytes(Digest(s)) == 7 && FromBytes(Digest(s)[..16]) == 0
  {
    ZerosRead(31);
    assert Digest(s)[..31] == Zeros(31);
    ZerosRead(16);
    assert Digest(s)[..16] == Zeros(16);
  }

  /** The first candidate is the point (7, 8), and it is taken. */
  lemma ToyHashesToCurve(pk: Z7, alpha: string)
    requires pk != 0
    ensures HashToCurve(Toy(), pk, alpha) == Ok(6)
  {
    var c := Toy();
    var s := PointToString(c, pk).value;
    var h := Digest(CurveInput(s, Unhex(alpha), 0));
    DigestReads(CurveInput(s, Unhex(alpha), 0));
    assert ([2] + h)[1..] == h;
    OnToyCurve(6);
    assert Candidate(c, s, Unhex(alpha), 0) == Some(6);
    assert TryFrom(c, s, Unhex(alpha), 0, None) == TryFrom(c, s, Unhex(alpha), 1, Some(6));
  }

  lemma ToyChallengeIsZero(points: seq<Z7>)
    requires HashPoints(Toy(), points).Ok?
    ensures HashPoints(Toy(), points) == Ok(0)
  {
    DigestReads(ChallengeInput(PointStrings(Toy(), points).value));
  }

  /**
   * The throwing case of processVrfRequest is real: on this curve, for every secret the prover
   * accepts, every encoding of the matching key and every alpha, there is a proof and the
   * request throws, because the challenge is 0 and 0 Gamma has no coordinates.
   */
  lemma ToyRequestThrows(sk: nat, pk: string, alpha: string)
    requires sk % 7 != 0 && DecodePoint(Toy(), Unhex(pk)) == Some(PublicKey(Toy(), sk))
    ensures Prove(Toy(), sk, alpha).Ok? && ProcessRequest(Toy(), sk, pk, alpha) == Throws
  {
    var c := Toy();
    ToyIsGroup();
    ToyIsCoded();
    KeyIsMultiple(c, sk);
    ToyHashesToCurve(PublicKey(c, sk), alpha);
    PointRoundTrip(c, 6);
    assert NonceFor(c, sk, 6) == 1;
    ProveSucceeds(c, sk, alpha);
    ToyChallengeIsZero(Commitment(c, sk, 6));
    RequestSucceeds(c, sk, pk, alpha);
  }

  lemma ToyTimes()
    ensures Times(Toy(), 1, 1) == 1 && Times(Toy(), 3, 1) == 3 && Times(Toy(), 3, 6) == 4
  {
    var c := Toy();
    assert Times(c, 2, 1) == 2 && Times(c, 1, 6) == 6 && Times(c, 2, 6) == 5;
  }

  lemma ToyOpens()
    ensures Opens(Toy(), 1, 6, 1, 1, 3, 2, 3)
  {
    ToyTimes();
  }

  lemma ToyChallenge()
    ensures HashPoints(Toy(), [6, 1, 2, 3]) == Ok(0)
  {
    ToyIsCoded();
    var ps: seq<Z7> := [6, 1, 2, 3];
    ChallengeExists(Toy(), ps);
    ToyChallengeIsZero(ps);
  }

  lemma ToyRecomputes(pk: string, pi: string, alpha: string)
    requires DecodePoint(Toy(), Unhex(pk)) == Some(1) && DecodeProof(Toy(), pi) == Ok((1, 1, 3))
    ensures Verify(Toy(), pk, pi, alpha) == Invalid
  {
    ToyIsCoded();
    ToyHashesToCurve(1, alpha);
    ToyOpens();
    ToyChallenge();
    assert Recomputed(Toy(), pk, pi, alpha, 1, 1, 1, 3, 6, 2, 3, 0);
    VerifyDecides(Toy(), pk, pi, alpha);
  }

  /**
   * A proof that is rejected: Gamma is 1 where the secret 1 gives 6, and the recomputed
   * challenge is 0 where the proof says 1.
   */
  lemma ToyRejects(pk: string, alpha: string)
    requires DecodePoint(Toy(), Unhex(pk)) == Some(1)
    ensures PublicKey(Toy(), 1) == 1 && EncodeProof(Toy(), 1, 1, 3).Ok?
    ensures Verify(Toy(), pk, EncodeProof(Toy(), 1, 1, 3).value, alpha) == Invalid
  {
    ToyIsCoded();
    PowGrows(16);
    ToyTimes();
    ProofRoundTrip(Toy(), 1, 1, 3);
    ToyRecomputes(pk, EncodeProof(Toy(), 1, 1, 3).value, alpha);
  }
}
