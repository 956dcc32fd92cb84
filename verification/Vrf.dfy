/**
 * The ECVRF prover and verifier of vrf/src/index.ts (draft-irtf-cfrg-vrf-10, sections 5.1 to
 * 5.4, suite 0xFE, cofactor 1) over an abstract curve: a group of prime order q whose points
 * other than the identity have coordinates. Hash and nonce derivation are arbitrary
 * functions of the curve record. Calls that throw are modelled as results.
 */
module Vrf {
  import opened Wrappers
  import opened Bytes

  datatype Curve<!P> = Curve(
    q: nat,                            // group order
    p: nat,                            // field size
    b: nat,                            // y^2 = x^3 + b
    zero: P,
    base: P,
    add: (P, P) -> P,
    neg: P -> P,
    x: P -> nat,
    y: P -> nat,
    lift: (nat, nat) -> Option<P>,     // the point with this x and this parity of y
    hash: seq<byte> -> seq<byte>,
    nonce: (nat, seq<byte>) -> nat)

  /** n-fold sum of a. */
  function Times<P>(c: Curve<P>, n: nat, a: P): P {
    if n == 0 then c.zero else c.add(a, Times(c, n - 1, a))
  }

  predicate Equation<P>(c: Curve<P>, a: P)
    requires c.p > 0
  {
    (c.y(a) * c.y(a)) % c.p == (((c.x(a) * c.x(a)) % c.p * c.x(a)) % c.p + c.b) % c.p
  }

  predicate Prime(q: nat) {
    q > 1 && forall d: nat :: 1 < d < q ==> q % d != 0
  }

  function Sum<P>(c: Curve<P>, a: P, b: P): P { c.add(a, b) }

  function Sum3<P>(c: Curve<P>, a: P, b: P, d: P): P { c.add(c.add(a, b), d) }

  ghost predicate GroupLaws<P(!new)>(c: Curve<P>) {
    && (forall a: P, b: P, d: P {:trigger Sum3(c, a, b, d)} :: Sum3(c, a, b, d) == c.add(a, c.add(b, d)))
    && (forall a: P, b: P {:trigger Sum(c, a, b)} :: Sum(c, a, b) == c.add(b, a))
    && (forall a: P :: c.add(c.zero, a) == a)
    && (forall a: P :: c.add(a, c.neg(a)) == c.zero)
    && c.base != c.zero
    && Prime(c.q)
    && (forall a: P :: Times(c, c.q, a) == c.zero)
  }

  ghost predicate CodingLaws<P(!new)>(c: Curve<P>) {
    && 0 < c.p <= Pow256(32) && c.q <= Pow256(32)
    && (forall a: P :: a != c.zero ==> c.x(a) < c.p && c.y(a) < c.p)
    && (forall a: P {:trigger Equation(c, a)} :: a != c.zero ==> Equation(c, a))
    && (forall x: nat, parity: nat, a: P :: c.lift(x, parity) == Some(a) <==> a != c.zero && c.x(a) == x && c.y(a) % 2 == parity)
    && (forall s :: |c.hash(s)| == 32)
  }

  /** A value, the 'INVALID' marker, or an exception. */
  datatype Res<+T> = Ok(value: T) | Invalid | Throws

  // ---------------------------------------------------------------- encodings

  /** SEC 1 section 2.3.3, compressed; the identity has no coordinates and throws. */
  function PointToString<P(==)>(c: Curve<P>, a: P): Res<seq<byte>> {
    if a == c.zero then Throws
    else Ok([(2 + c.y(a) % 2) as byte] + ZeroPad(BnBytes(c.x(a)), 32))
  }

  /** BN.toArray(): the shortest form, but [0] for 0. */
  function BnBytes(x: nat): seq<byte> {
    if x == 0 then [0] else MinBytes(x)
  }

  /** zero_pad: the last n bytes of n zeros followed by s. */
  function ZeroPad(s: seq<byte>, n: nat): (r: seq<byte>)
    ensures |r| == n
  {
    (Zeros(n) + s)[|s|..]
  }

  /** int_to_string: fails when x needs more than n bytes. */
  function IntToString(x: nat, n: nat): Res<seq<byte>> {
    if x < Pow256(n) then Ok(ToBytes(x, n)) else Throws
  }

  /** SEC 1 section 2.3.4 for both the compressed and the uncompressed form. */
  function DecodePoint<P(==)>(c: Curve<P>, s: seq<byte>): Option<P> {
    if |s| == 33 && (s[0] == 2 || s[0] == 3) then c.lift(FromBytes(s[1..]), s[0] - 2)
    else if |s| == 65 && s[0] == 4 then
      var y := FromBytes(s[33..]);
      var a := c.lift(FromBytes(s[1..33]), y % 2);
      if a.Some? && c.y(a.value) == y then a else None
    else None
  }

  // ---------------------------------------------------------------- hashing to points and to a challenge

  const SUITE: byte := 0xfe

  /** What is hashed for a candidate point, for a challenge and for the output (sections 5.4.1.1, 5.4.3 and 5.2). */
  function CurveInput(pk: seq<byte>, alpha: seq<byte>, ctr: byte): seq<byte> { [SUITE, 1] + pk + alpha + [ctr, 0] }

  function ChallengeInput(points: seq<byte>): seq<byte> { [SUITE, 2] + points + [0] }

  function OutputInput(gamma: seq<byte>): seq<byte> { [SUITE, 3] + gamma + [0] }

  predicate IsOnCurve<P>(c: Curve<P>, a: P) {
    c.p > 0 && c.x(a) != 0 && c.x(a) < c.p && c.y(a) != 0 && c.y(a) < c.p && Equation(c, a)
  }

  function Candidate<P(==)>(c: Curve<P>, pk: seq<byte>, alpha: seq<byte>, ctr: nat): Option<P>
    requires ctr < 256
  {
    DecodePoint(c, [2] + c.hash(CurveInput(pk, alpha, ctr as byte)))
  }

  predicate Rejected<P(==)>(c: Curve<P>, h: Option<P>) {
    h.None? || h.value == c.zero || !IsOnCurve(c, h.value)
  }

  /** The outcome of the try-and-increment loop from counter ctr with candidate h in hand. */
  function TryFrom<P(==)>(c: Curve<P>, pk: seq<byte>, alpha: seq<byte>, ctr: nat, h: Option<P>): Option<P>
    requires ctr <= 256
    decreases 256 - ctr
  {
    if Rejected(c, h) && ctr < 256 then TryFrom(c, pk, alpha, ctr + 1, Candidate(c, pk, alpha, ctr)) else h
  }

  function HashToCurve<P(==)>(c: Curve<P>, pk: P, alpha: string): Res<P> {
    match PointToString(c, pk)
    case Ok(s) =>
      var h := TryFrom(c, s, Unhex(alpha), 0, None);
      if h.None? then Throws else Ok(h.value)
    case _ => Throws
  }

  method TryAndIncrement<P(==)>(c: Curve<P>, pk: P, alpha: string) returns (r: Res<P>)
    ensures r == HashToCurve(c, pk, alpha)
  {
    var s := PointToString(c, pk);
    if !s.Ok? {
      return Throws;
    }
    var ctr := 0;
    var h: Option<P> := None;
    while Rejected(c, h) && ctr < 256
      invariant 0 <= ctr <= 256
      invariant TryFrom(c, s.value, Unhex(alpha), ctr, h) == TryFrom(c, s.value, Unhex(alpha), 0, None)
    {
      h := Candidate(c, s.value, Unhex(alpha), ctr);
      ctr := ctr + 1;
    }
    return if h.None? then Throws else Ok(h.value);
  }

  function PointStrings<P(==)>(c: Curve<P>, points: seq<P>): Res<seq<byte>> {
    if points == [] then Ok([])
    else
      match (PointStrings(c, points[..|points| - 1]), PointToString(c, points[|points| - 1]))
      case (Ok(s), Ok(t)) => Ok(s + t)
      case _ => Throws
  }

  /** ECVRF_hash_points: the first 16 bytes of the hash, as a number. */
  function HashPoints<P(==)>(c: Curve<P>, points: seq<P>): Res<nat> {
    match PointStrings(c, points)
    case Ok(s) =>
      var d := c.hash(ChallengeInput(s));
      Ok(FromBytes(if |d| < 16 then d else d[..16]))
    case _ => Throws
  }

  // ---------------------------------------------------------------- proving and verifying

  /** umod(n). */
  function Reduce<P>(c: Curve<P>, n: nat): nat
    requires c.q > 0
  {
    n % c.q
  }

  /** s = k + ch sk modulo q. */
  function Answer<P>(c: Curve<P>, k: nat, ch: nat, sk: nat): nat
    requires c.q > 0
  {
    (k + ch * sk) % c.q
  }

  function PublicKey<P>(c: Curve<P>, sk: nat): P
    requires c.q > 0
  {
    Times(c, Reduce(c, sk), c.base)
  }

  function EncodeProof<P(==)>(c: Curve<P>, gamma: P, ch: nat, s: nat): Res<string> {
    match (PointToString(c, gamma), IntToString(ch, 16), IntToString(s, 32))
    case (Ok(g), Ok(cs), Ok(ss)) => Ok(Hex(g + cs + ss))
    case _ => Throws
  }

  function Prove<P(==)>(c: Curve<P>, sk: nat, alpha: string): Res<string>
    requires c.q > 0
  {
    match HashToCurve(c, PublicKey(c, sk), alpha)
    case Ok(h) =>
      var hs := PointToString(c, h);
      if !hs.Ok? then Throws
      else
        var gamma := Times(c, sk, h);
        var k := c.nonce(sk, hs.value);
        var ch := HashPoints(c, [h, gamma, Times(c, k, c.base), Times(c, k, h)]);
        if !ch.Ok? then Throws else EncodeProof(c, gamma, ch.value, Answer(c, k, ch.value, sk))
    case _ => Throws
  }

  function DecodeProof<P(==)>(c: Curve<P>, pi: string): Res<(P, nat, nat)> {
    var gamma := DecodePoint(c, Unhex(Slice(pi, 0, 66)));
    if gamma.None? then Invalid
    else
      var ch := FromBytes(Unhex(Slice(pi, 66, 98)));
      var s := FromBytes(Unhex(Slice(pi, 98, 162)));
      if s >= c.q then Invalid else Ok((gamma.value, ch, s))
  }

  /** ECVRF_proof_to_hash. */
  function ProofToHash<P(==)>(c: Curve<P>, pi: string): Res<seq<byte>> {
    match DecodeProof(c, pi)
    case Ok((gamma, _, _)) =>
      var g := PointToString(c, gamma);
      if g.Ok? then Ok(c.hash(OutputInput(g.value))) else Throws
    case _ => Invalid
  }

  /** a - b */
  function Minus<P>(c: Curve<P>, a: P, b: P): P {
    c.add(a, c.neg(b))
  }

  /** ['VALID', beta] is Ok(beta); ['INVALID', null] and 'INVALID' are Invalid. */
  function Verify<P(==)>(c: Curve<P>, pk: string, pi: string, alpha: string): Res<string> {
    var y := DecodePoint(c, Unhex(pk));
    if y.None? then Throws
    else match DecodeProof(c, pi)
      case Ok((gamma, ch, s)) =>
        var h := HashToCurve(c, y.value, alpha);
        if !h.Ok? then Throws
        else
          var u := Minus(c, Times(c, s, c.base), Times(c, ch, y.value));
          var v := Minus(c, Times(c, s, h.value), Times(c, ch, gamma));
          var ch' := HashPoints(c, [h.value, gamma, u, v]);
          if !ch'.Ok? then Throws
          else if ch'.value != ch then Invalid
          else (match ProofToHash(c, pi)
                case Ok(beta) => Ok(Hex(beta))
                case _ => Throws)
      case _ => Invalid
  }

  /** The coordinates handed to the on-chain fast verification. */
  datatype Fast = Fast(u: (nat, nat), sH: (nat, nat), cGamma: (nat, nat))

  function Coordinates<P(==)>(c: Curve<P>, a: P): Option<(nat, nat)> {
    if a == c.zero then None else Some((c.x(a), c.y(a)))
  }

  function FastComponents<P(==)>(c: Curve<P>, pk: string, pi: string, alpha: string): Res<Fast> {
    var y := DecodePoint(c, Unhex(pk));
    if y.None? then Throws
    else match DecodeProof(c, pi)
      case Ok((gamma, ch, s)) =>
        (match HashToCurve(c, y.value, alpha)
         case Ok(h) =>
           (match (Coordinates(c, Minus(c, Times(c, s, c.base), Times(c, ch, y.value))),
                   Coordinates(c, Times(c, s, h)), Coordinates(c, Times(c, ch, gamma)))
            case (Some(u), Some(sH), Some(cG)) => Ok(Fast(u, sH, cG))
            case _ => Throws)
         case _ => Throws)
      case _ => Invalid
  }

  datatype Response = Response(gamma: (nat, nat), ch: nat, s: nat, fast: Fast)

  /** processVrfRequest: Invalid is its InvalidProofError. */
  function ProcessRequest<P(==)>(c: Curve<P>, sk: nat, pk: string, alpha: string): Res<Response>
    requires c.q > 0
  {
    match Prove(c, sk, alpha)
    case Ok(pi) =>
      (match DecodeProof(c, pi)
       case Ok((gamma, ch, s)) =>
         (match FastComponents(c, pk, pi, alpha)
          case Ok(fast) =>
            (match Coordinates(c, gamma)
             case Some(g) => Ok(Response(g, ch, s, fast))
             case None => Throws)
          case Invalid => Invalid
          case Throws => Throws)
       case _ => Throws)
    case _ => Throws
  }
}
