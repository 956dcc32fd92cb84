/**
 * A round can be completed: from any state in which the leader's next round is new, a run
 * under that leader goes from its trigger to an aggregate streamed by every node, with the
 * median of the prices offered and the signatures of the nodes that took part - whether all
 * peers answer or only a quorum does and the timers fire.
 */
module RoundProgress {
  import opened GoInt
  import opened Wrappers
  import opened Bytes
  import opened RoundTables
  import opened Median
  import opened Aggregator
  import opened RoundProtocol
  import opened RoundTraces

  /** What node `id` is told: who leads, how many peers there are, its local price, its signature. */
  function Told(leader: string, id: string, peers: nat, local: Option<int64>, signature: Option<seq<byte>>): Env {
    Env(leader, id == leader, peers, local, signature)
  }

  /** The table holds these items of these senders for round r, and r is not processed yet. */
  predicate Holds<T(==)>(t: Table<T>, r: int32, items: seq<T>, senders: seq<string>) {
    !IsLocked(t.locked, r) && At(t.items, r) == items && At(t.senders, r) == senders
  }

  /** Only node `id` has moved; nothing was taken back. */
  ghost predicate Moves(s: System, s': System, id: string) {
    && s'.nodes.Keys == s.nodes.Keys && (forall x :: x in s.nodes && x != id ==> s'.nodes[x] == s.nodes[x])
    && id in s.nodes && s'.nodes[id].id == s.nodes[id].id
    && forall e :: e in s.log ==> e in s'.log
  }

  ghost predicate Named(s: System, ids: seq<string>) {
    forall i :: 0 <= i < |ids| ==> ids[i] in s.nodes && s.nodes[ids[i]].id == ids[i]
  }

  // ---------------------------------------------------------------- the trigger

  /** The value a node publishes: its local price, or -1. */
  function Value(local: Option<int64>): int64 {
    if local.Some? then local.value else -1
  }

  lemma AnswersTrigger(run: Trace, acts: seq<Action>, s: System, leader: string, id: string, r: int32, ts: int, peers: nat,
                       local: Option<int64>)
    returns (acts': seq<Action>, s': System)
    requires Closed(run, leader) && run(acts, s) && id in s.nodes && s.nodes[id].id == id
    requires r != 0 && !IsLocked(s.nodes[id].triggers, r) && Published(Trigger(leader, r, ts)) in s.log
    ensures run(acts', s') && Moves(s, s', id) && Published(PriceData(id, r, Value(local), ts)) in s'.log
    ensures SameTables(s.nodes[id], s'.nodes[id])
  {
    var a := Deliver(id, Trigger(leader, r, ts), Told(leader, id, peers, local, None));
    Step(run, acts, s, a, leader);
    acts', s' := acts + [a], Apply(s, a);
    assert s'.log == s.log + [Published(PriceData(id, r, Value(local), ts))];
  }

  predicate SameTables(n: Node, n': Node) {
    n'.prices == n.prices && n'.fixes == n.fixes && n'.proofs == n.proofs
  }

  /** Prices, fixes and proofs are as they were at every node; nothing was taken back. */
  ghost predicate Untouched(s: System, s': System) {
    && s'.nodes.Keys == s.nodes.Keys
    && (forall x :: x in s.nodes ==> SameTables(s.nodes[x], s'.nodes[x]) && s'.nodes[x].id == s.nodes[x].id)
    && forall e :: e in s.log ==> e in s'.log
  }

  /** After a move of the first node the others are as they were. */
  lemma OthersWait(s: System, s1: System, ids: seq<string>)
    requires ids != [] && Distinct(ids) && Named(s, ids) && Moves(s, s1, ids[0])
    ensures Distinct(ids[1..]) && Named(s1, ids[1..])
    ensures forall i :: 0 <= i < |ids[1..]| ==> ids[1..][i] == ids[i + 1] && s1.nodes[ids[i + 1]] == s.nodes[ids[i + 1]]
  {
    forall i | 0 <= i < |ids[1..]|
      ensures ids[1..][i] == ids[i + 1] && ids[i + 1] in s1.nodes && s1.nodes[ids[i + 1]] == s.nodes[ids[i + 1]]
    {
    }
  }

  lemma UntouchedThen(s: System, s1: System, s2: System, id: string)
    requires Moves(s, s1, id) && SameTables(s.nodes[id], s1.nodes[id]) && Untouched(s1, s2)
    ensures Untouched(s, s2)
  {
    forall x | x in s.nodes ensures SameTables(s.nodes[x], s2.nodes[x]) && s2.nodes[x].id == s.nodes[x].id {
      assert x in s1.nodes;
    }
  }

  /** Every one of ids has published its price for the round. */
  ghost predicate AllPriced(log: seq<Event>, ids: seq<string>, r: int32, ts: int, local: string -> Option<int64>) {
    forall i :: 0 <= i < |ids| ==> Published(PriceData(ids[i], r, Value(local(ids[i])), ts)) in log
  }

  lemma PricedMore(log: seq<Event>, ids: seq<string>, r: int32, ts: int, local: string -> Option<int64>)
    requires ids != [] && Published(PriceData(ids[0], r, Value(local(ids[0])), ts)) in log && AllPriced(log, ids[1..], r, ts, local)
    ensures AllPriced(log, ids, r, ts, local)
  {
    forall i | 0 <= i < |ids| ensures Published(PriceData(ids[i], r, Value(local(ids[i])), ts)) in log {
      if i > 0 { assert ids[1..][i - 1] == ids[i]; }
    }
  }

  ghost predicate AllUnlocked(s: System, ids: seq<string>, r: int32) {
    forall i :: 0 <= i < |ids| ==> ids[i] in s.nodes && !IsLocked(s.nodes[ids[i]].triggers, r)
  }

  lemma {:induction false} AllAnswer(run: Trace, acts: seq<Action>, s: System, leader: string, ids: seq<string>, r: int32,
                                     ts: int, peers: nat, local: string -> Option<int64>)
    returns (acts': seq<Action>, s': System)
    requires Closed(run, leader) && run(acts, s) && Named(s, ids) && Distinct(ids) && AllUnlocked(s, ids, r)
    requires r != 0 && Published(Trigger(leader, r, ts)) in s.log
    ensures run(acts', s') && Untouched(s, s')
    ensures AllPriced(s'.log, ids, r, ts, local)
    decreases |ids|
  {
    acts', s' := acts, s;
    if ids != [] {
      var id, rest := ids[0], ids[1..];
      var acts1, s1 := AnswersTrigger(run, acts, s, leader, id, r, ts, peers, local(id));
      OthersWait(s, s1, ids);
      acts', s' := AllAnswer(run, acts1, s1, leader, rest, r, ts, peers, local);
      UntouchedThen(s, s1, s', id);
      PricedMore(s'.log, ids, r, ts, local);
    }
  }

  // ---------------------------------------------------------------- prices

  /** A price that does not complete the round is stored, and the first one starts the timer. */
  lemma StoresPrice(run: Trace, acts: seq<Action>, s: System, leader: string, from: string, r: int32, v: int64, ts: int,
                    peers: nat, items: seq<int64>, senders: seq<string>)
    returns (acts': seq<Action>, s': System)
    requires Closed(run, leader) && run(acts, s) && leader in s.nodes && s.nodes[leader].id == leader
    requires r != 0 && Published(PriceData(from, r, v, ts)) in s.log
    requires Holds(s.nodes[leader].prices, r, items, senders) && from !in senders && |items| < peers
    ensures run(acts', s') && Moves(s, s', leader) && Holds(s'.nodes[leader].prices, r, items + [v], senders + [from])
    ensures s'.nodes[leader] == s.nodes[leader].(prices := s'.nodes[leader].prices)
    ensures items == [] || (leader, PriceTimer(r, ts)) in s.timers ==> (leader, PriceTimer(r, ts)) in s'.timers
  {
    var a := Deliver(leader, PriceData(from, r, v, ts), Told(leader, leader, peers, None, None));
    Step(run, acts, s, a, leader);
    acts', s' := acts + [a], Apply(s, a);
  }

  /** The last price of all peers completes the round. */
  lemma LastPrice(run: Trace, acts: seq<Action>, s: System, leader: string, from: string, r: int32, v: int64, ts: int,
                  peers: nat, items: seq<int64>, senders: seq<string>, m: int64)
    returns (acts': seq<Action>, s': System)
    requires Closed(run, leader) && run(acts, s) && leader in s.nodes && s.nodes[leader].id == leader
    requires r != 0 && Published(PriceData(from, r, v, ts)) in s.log
    requires Holds(s.nodes[leader].prices, r, items, senders) && from !in senders && |items| == peers
    requires MedianInt64(NonNegative(items + [v])) == Some(m)
    ensures run(acts', s') && Moves(s, s', leader) && Published(PriceFix(leader, r, m, ts)) in s'.log
    ensures s'.nodes[leader] == s.nodes[leader].(prices := s'.nodes[leader].prices)
  {
    var a := Deliver(leader, PriceData(from, r, v, ts), Told(leader, leader, peers, None, None));
    Step(run, acts, s, a, leader);
    acts', s' := acts + [a], Apply(s, a);
    assert s'.log == s.log + [Published(PriceFix(leader, r, m, ts))];
  }

  /** The timer completes a round with a quorum. */
  lemma PriceTimeout(run: Trace, acts: seq<Action>, s: System, leader: string, r: int32, ts: int, peers: nat,
                     items: seq<int64>, senders: seq<string>, m: int64)
    returns (acts': seq<Action>, s': System)
    requires Closed(run, leader) && run(acts, s) && leader in s.nodes && s.nodes[leader].id == leader
    requires (leader, PriceTimer(r, ts)) in s.timers && Holds(s.nodes[leader].prices, r, items, senders)
    requires |items| >= (peers + 1) / 2 && MedianInt64(NonNegative(items)) == Some(m)
    ensures run(acts', s') && Moves(s, s', leader) && Published(PriceFix(leader, r, m, ts)) in s'.log
    ensures s'.nodes[leader] == s.nodes[leader].(prices := s'.nodes[leader].prices)
  {
    var a := Timeout(leader, PriceTimer(r, ts), Told(leader, leader, peers, None, None));
    Step(run, acts, s, a, leader);
    acts', s' := acts + [a], Apply(s, a);
    assert s'.log == s.log + [Published(PriceFix(leader, r, m, ts))];
  }

  function Values(ids: seq<string>, local: string -> Option<int64>): seq<int64> {
    if ids == [] then [] else Values(ids[..|ids| - 1], local) + [Value(local(ids[|ids| - 1]))]
  }

  /** The first k prices are stored. */
  lemma {:induction false} StoresPrices(run: Trace, acts: seq<Action>, s: System, leader: string, ids: seq<string>, k: nat,
                                        r: int32, ts: int, peers: nat, local: string -> Option<int64>)
    returns (acts': seq<Action>, s': System)
    requires Closed(run, leader) && run(acts, s) && leader in s.nodes && s.nodes[leader].id == leader && r != 0
    requires k <= |ids| && k <= peers && Distinct(ids) && Holds(s.nodes[leader].prices, r, [], [])
    requires AllPriced(s.log, ids, r, ts, local)
    ensures run(acts', s') && Moves(s, s', leader) && Holds(s'.nodes[leader].prices, r, Values(ids[..k], local), ids[..k])
    ensures s'.nodes[leader] == s.nodes[leader].(prices := s'.nodes[leader].prices)
    ensures k > 0 ==> (leader, PriceTimer(r, ts)) in s'.timers
    decreases k
  {
    acts', s' := acts, s;
    if k > 0 {
      var acts1, s1 := StoresPrices(run, acts, s, leader, ids, k - 1, r, ts, peers, local);
      var id := ids[k - 1];
      assert id !in ids[..k - 1];
      ValuesOf(ids[..k - 1], local);
      acts', s' := StoresPrice(run, acts1, s1, leader, id, r, Value(local(id)), ts, peers, Values(ids[..k - 1], local), ids[..k - 1]);
      assert ids[..k] == ids[..k - 1] + [id] && ids[..k][..k - 1] == ids[..k - 1];
    }
  }

  lemma {:induction false} ValuesOf(ids: seq<string>, local: string -> Option<int64>)
    ensures |Values(ids, local)| == |ids|
  {
    if ids != [] { ValuesOf(ids[..|ids| - 1], local); }
  }

  /** Who answered: everybody, or a quorum of the peers. */
  predicate Enough(n: nat, peers: nat) {
    n > 0 && (n == peers + 1 || (peers + 1) / 2 <= n <= peers)
  }

  lemma FixesPrice(run: Trace, acts: seq<Action>, s: System, leader: string, ids: seq<string>, r: int32, ts: int, peers: nat,
                   local: string -> Option<int64>, m: int64)
    returns (acts': seq<Action>, s': System)
    requires Closed(run, leader) && run(acts, s) && leader in s.nodes && s.nodes[leader].id == leader && r != 0
    requires Enough(|ids|, peers) && Distinct(ids) && Holds(s.nodes[leader].prices, r, [], [])
    requires AllPriced(s.log, ids, r, ts, local)
    requires MedianInt64(NonNegative(Values(ids, local))) == Some(m)
    ensures run(acts', s') && Moves(s, s', leader) && Published(PriceFix(leader, r, m, ts)) in s'.log
    ensures s'.nodes[leader] == s.nodes[leader].(prices := s'.nodes[leader].prices)
  {
    ValuesOf(ids, local);
    if |ids| == peers + 1 {
      var k, id := |ids| - 1, ids[|ids| - 1];
      var acts1, s1 := StoresPrices(run, acts, s, leader, ids, k, r, ts, peers, local);
      ValuesOf(ids[..k], local);
      acts', s' := LastPrice(run, acts1, s1, leader, id, r, Value(local(id)), ts, peers, Values(ids[..k], local), ids[..k], m);
    } else {
      var acts1, s1 := StoresPrices(run, acts, s, leader, ids, |ids|, r, ts, peers, local);
      assert ids[..|ids|] == ids;
      acts', s' := PriceTimeout(run, acts1, s1, leader, r, ts, peers, Values(ids, local), ids, m);
    }
  }

  // ---------------------------------------------------------------- fixes and signatures

  lemma SignsFix(run: Trace, acts: seq<Action>, s: System, leader: string, id: string, r: int32, m: int64, ts: int,
                 peers: nat, signature: seq<byte>)
    returns (acts': seq<Action>, s': System)
    requires Closed(run, leader) && run(acts, s) && id in s.nodes && s.nodes[id].id == id
    requires !IsLocked(s.nodes[id].fixes, r) && Published(PriceFix(leader, r, m, ts)) in s.log
    ensures run(acts', s') && Moves(s, s', id) && Published(Proof(id, r, m, Some(signature), ts)) in s'.log
    ensures s'.nodes[id].proofs == s.nodes[id].proofs
  {
    var a := Deliver(id, PriceFix(leader, r, m, ts), Told(leader, id, peers, None, Some(signature)));
    Step(run, acts, s, a, leader);
    acts', s' := acts + [a], Apply(s, a);
    assert s'.log == s.log + [Published(Proof(id, r, m, Some(signature), ts))];
  }

  /** Every one of ids has published its signature of the fixed price. */
  ghost predicate AllSigned(log: seq<Event>, ids: seq<string>, r: int32, m: int64, ts: int, sign: string -> seq<byte>) {
    forall i :: 0 <= i < |ids| ==> Published(Proof(ids[i], r, m, Some(sign(ids[i])), ts)) in log
  }

  lemma SignedMore(log: seq<Event>, ids: seq<string>, r: int32, m: int64, ts: int, sign: string -> seq<byte>)
    requires ids != [] && Published(Proof(ids[0], r, m, Some(sign(ids[0])), ts)) in log && AllSigned(log, ids[1..], r, m, ts, sign)
    ensures AllSigned(log, ids, r, m, ts, sign)
  {
    forall i | 0 <= i < |ids| ensures Published(Proof(ids[i], r, m, Some(sign(ids[i])), ts)) in log {
      if i > 0 { assert ids[1..][i - 1] == ids[i]; }
    }
  }

  ghost predicate AllUnfixed(s: System, ids: seq<string>, r: int32) {
    forall i :: 0 <= i < |ids| ==> ids[i] in s.nodes && !IsLocked(s.nodes[ids[i]].fixes, r)
  }

  /** Every node keeps its proofs and its name; nothing was taken back. */
  ghost predicate SameProofs(s: System, s': System) {
    && s'.nodes.Keys == s.nodes.Keys
    && (forall x :: x in s.nodes ==> s'.nodes[x].proofs == s.nodes[x].proofs && s'.nodes[x].id == s.nodes[x].id)
    && forall e :: e in s.log ==> e in s'.log
  }

  lemma SameProofsThen(s: System, s1: System, s2: System, id: string)
    requires Moves(s, s1, id) && s1.nodes[id].proofs == s.nodes[id].proofs && SameProofs(s1, s2)
    ensures SameProofs(s, s2)
  {
    forall x | x in s.nodes ensures s2.nodes[x].proofs == s.nodes[x].proofs && s2.nodes[x].id == s.nodes[x].id {
      assert x in s1.nodes;
    }
  }

  lemma {:induction false} AllSign(run: Trace, acts: seq<Action>, s: System, leader: string, ids: seq<string>, r: int32,
                                   m: int64, ts: int, peers: nat, sign: string -> seq<byte>)
    returns (acts': seq<Action>, s': System)
    requires Closed(run, leader) && run(acts, s) && Named(s, ids) && Distinct(ids) && AllUnfixed(s, ids, r)
    requires Published(PriceFix(leader, r, m, ts)) in s.log
    ensures run(acts', s') && SameProofs(s, s')
    ensures AllSigned(s'.log, ids, r, m, ts, sign)
    decreases |ids|
  {
    acts', s' := acts, s;
    if ids != [] {
      var id, rest := ids[0], ids[1..];
      var acts1, s1 := SignsFix(run, acts, s, leader, id, r, m, ts, peers, sign(id));
      OthersWait(s, s1, ids);
      acts', s' := AllSign(run, acts1, s1, leader, rest, r, m, ts, peers, sign);
      SameProofsThen(s, s1, s', id);
      SignedMore(s'.log, ids, r, m, ts, sign);
    }
  }

  // ---------------------------------------------------------------- proofs

  function Signatures(ids: seq<string>, sign: string -> seq<byte>): seq<seq<byte>> {
    if ids == [] then [] else Signatures(ids[..|ids| - 1], sign) + [sign(ids[|ids| - 1])]
  }

  lemma {:induction false} SignaturesOf(ids: seq<string>, sign: string -> seq<byte>)
    ensures |Signatures(ids, sign)| == |ids|
  {
    if ids != [] { SignaturesOf(ids[..|ids| - 1], sign); }
  }

  ghost predicate TimerSet(s: System, j: string, r: int32, m: int64, ts: int) {
    exists p :: (j, ProofTimer(p)) in s.timers && p.Proof? && p.round == r && p.value == m && p.ts == ts
  }

  lemma StoresProof(run: Trace, acts: seq<Action>, s: System, leader: string, j: string, p: Message, peers: nat,
                    items: seq<seq<byte>>, senders: seq<string>)
    returns (acts': seq<Action>, s': System)
    requires Closed(run, leader) && run(acts, s) && j in s.nodes && s.nodes[j].id == j
    requires p.Proof? && p.proof.Some? && p.round != 0 && Published(p) in s.log
    requires Holds(s.nodes[j].proofs, p.round, items, senders) && p.from !in senders && |items| < peers
    ensures run(acts', s') && Moves(s, s', j)
    ensures Holds(s'.nodes[j].proofs, p.round, items + [p.proof.value], senders + [p.from])
    ensures items == [] || TimerSet(s, j, p.round, p.value, p.ts) ==> TimerSet(s', j, p.round, p.value, p.ts)
  {
    var a := Deliver(j, p, Told(leader, j, peers, None, None));
    Step(run, acts, s, a, leader);
    acts', s' := acts + [a], Apply(s, a);
    if items == [] {
      assert (j, ProofTimer(p)) in s'.timers;
    } else if TimerSet(s, j, p.round, p.value, p.ts) {
      var q :| (j, ProofTimer(q)) in s.timers && q.Proof? && q.round == p.round && q.value == p.value && q.ts == p.ts;
      assert (j, ProofTimer(q)) in s'.timers;
    }
  }

  lemma LastProof(run: Trace, acts: seq<Action>, s: System, leader: string, j: string, p: Message, peers: nat,
                  items: seq<seq<byte>>, senders: seq<string>)
    returns (acts': seq<Action>, s': System)
    requires Closed(run, leader) && run(acts, s) && j in s.nodes && s.nodes[j].id == j
    requires p.Proof? && p.proof.Some? && p.round != 0 && Published(p) in s.log && p.value != 0 && p.ts != ZERO_TIME
    requires Holds(s.nodes[j].proofs, p.round, items, senders) && p.from !in senders && |items| == peers
    ensures run(acts', s') && Moves(s, s', j)
    ensures Streamed(j, Submission(p.round, p.value, p.ts, Concat(items + [p.proof.value]))) in s'.log
  {
    var a := Deliver(j, p, Told(leader, j, peers, None, None));
    Step(run, acts, s, a, leader);
    acts', s' := acts + [a], Apply(s, a);
    assert s'.log == s.log + [Streamed(j, Submission(p.round, p.value, p.ts, Concat(items + [p.proof.value])))];
  }

  lemma ProofTimeout(run: Trace, acts: seq<Action>, s: System, leader: string, j: string, p: Message, peers: nat,
                     items: seq<seq<byte>>, senders: seq<string>)
    returns (acts': seq<Action>, s': System)
    requires Closed(run, leader) && run(acts, s) && j in s.nodes && s.nodes[j].id == j && (j, ProofTimer(p)) in s.timers
    requires p.Proof? && p.value != 0 && p.ts != ZERO_TIME
    requires Holds(s.nodes[j].proofs, p.round, items, senders) && |items| >= (peers + 1) / 2
    ensures run(acts', s') && Moves(s, s', j)
    ensures Streamed(j, Submission(p.round, p.value, p.ts, Concat(items))) in s'.log
  {
    var a := Timeout(j, ProofTimer(p), Told(leader, j, peers, None, None));
    Step(run, acts, s, a, leader);
    acts', s' := acts + [a], Apply(s, a);
    assert s'.log == s.log + [Streamed(j, Submission(p.round, p.value, p.ts, Concat(items)))];
  }

  lemma {:induction false} StoresProofs(run: Trace, acts: seq<Action>, s: System, leader: string, j: string, ids: seq<string>,
                                        k: nat, r: int32, m: int64, ts: int, peers: nat, sign: string -> seq<byte>)
    returns (acts': seq<Action>, s': System)
    requires Closed(run, leader) && run(acts, s) && j in s.nodes && s.nodes[j].id == j && r != 0
    requires k <= |ids| && k <= peers && Distinct(ids) && Holds(s.nodes[j].proofs, r, [], [])
    requires AllSigned(s.log, ids, r, m, ts, sign)
    ensures run(acts', s') && Moves(s, s', j) && Holds(s'.nodes[j].proofs, r, Signatures(ids[..k], sign), ids[..k])
    ensures k > 0 ==> TimerSet(s', j, r, m, ts)
    decreases k
  {
    acts', s' := acts, s;
    if k > 0 {
      var acts1, s1 := StoresProofs(run, acts, s, leader, j, ids, k - 1, r, m, ts, peers, sign);
      var id := ids[k - 1];
      assert id !in ids[..k - 1];
      SignaturesOf(ids[..k - 1], sign);
      acts', s' := StoresProof(run, acts1, s1, leader, j, Proof(id, r, m, Some(sign(id)), ts), peers,
                               Signatures(ids[..k - 1], sign), ids[..k - 1]);
      assert ids[..k] == ids[..k - 1] + [id] && ids[..k][..k - 1] == ids[..k - 1];
    }
  }

  /** Node j collects the proofs and streams the aggregate. */
  lemma StreamsAggregate(run: Trace, acts: seq<Action>, s: System, leader: string, j: string, ids: seq<string>, r: int32,
                         m: int64, ts: int, peers: nat, sign: string -> seq<byte>)
    returns (acts': seq<Action>, s': System)
    requires Closed(run, leader) && run(acts, s) && j in s.nodes && s.nodes[j].id == j && r != 0 && m != 0 && ts != ZERO_TIME
    requires Enough(|ids|, peers) && Distinct(ids) && Holds(s.nodes[j].proofs, r, [], [])
    requires AllSigned(s.log, ids, r, m, ts, sign)
    ensures run(acts', s') && Moves(s, s', j)
    ensures Streamed(j, Submission(r, m, ts, Concat(Signatures(ids, sign)))) in s'.log
  {
    SignaturesOf(ids, sign);
    if |ids| == peers + 1 {
      var k, id := |ids| - 1, ids[|ids| - 1];
      var acts1, s1 := StoresProofs(run, acts, s, leader, j, ids, k, r, m, ts, peers, sign);
      SignaturesOf(ids[..k], sign);
      acts', s' := LastProof(run, acts1, s1, leader, j, Proof(id, r, m, Some(sign(id)), ts), peers, Signatures(ids[..k], sign), ids[..k]);
    } else {
      var acts1, s1 := StoresProofs(run, acts, s, leader, j, ids, |ids|, r, m, ts, peers, sign);
      assert ids[..|ids|] == ids;
      var p :| (j, ProofTimer(p)) in s1.timers && p.Proof? && p.round == r && p.value == m && p.ts == ts;
      acts', s' := ProofTimeout(run, acts1, s1, leader, j, p, peers, Signatures(ids, sign), ids);
    }
  }

  ghost predicate AllEmpty(s: System, js: seq<string>, r: int32) {
    forall i :: 0 <= i < |js| ==> js[i] in s.nodes && Holds(s.nodes[js[i]].proofs, r, [], [])
  }

  lemma {:induction false} AllStream(run: Trace, acts: seq<Action>, s: System, leader: string, js: seq<string>, ids: seq<string>,
                                     r: int32, m: int64, ts: int, peers: nat, sign: string -> seq<byte>)
    returns (acts': seq<Action>, s': System)
    requires Closed(run, leader) && run(acts, s) && Named(s, js) && Distinct(js) && AllEmpty(s, js, r)
    requires r != 0 && m != 0 && ts != ZERO_TIME && Enough(|ids|, peers) && Distinct(ids)
    requires AllSigned(s.log, ids, r, m, ts, sign)
    ensures run(acts', s') && (forall e :: e in s.log ==> e in s'.log)
    ensures forall i :: 0 <= i < |js| ==> Streamed(js[i], Submission(r, m, ts, Concat(Signatures(ids, sign)))) in s'.log
    decreases |js|
  {
    acts', s' := acts, s;
    if js != [] {
      var j, rest := js[0], js[1..];
      var acts1, s1 := StreamsAggregate(run, acts, s, leader, j, ids, r, m, ts, peers, sign);
      OthersWait(s, s1, js);
      acts', s' := AllStream(run, acts1, s1, leader, rest, ids, r, m, ts, peers, sign);
      assert js == [j] + rest;
    }
  }

  // ---------------------------------------------------------------- the round

  /** The prices offered: the local ones that exist and are not negative. */
  function Offered(ids: seq<string>, local: string -> Option<int64>): seq<int64> {
    if ids == [] then []
    else
      var rest, v := Offered(ids[..|ids| - 1], local), local(ids[|ids| - 1]);
      if v.Some? && v.value >= 0 then rest + [v.value] else rest
  }

  lemma {:induction false} OfferedIsUsable(ids: seq<string>, local: string -> Option<int64>)
    ensures NonNegative(Values(ids, local)) == Offered(ids, local)
  {
    if ids != [] {
      OfferedIsUsable(ids[..|ids| - 1], local);
      var vs := Values(ids, local);
      assert vs[..|vs| - 1] == Values(ids[..|ids| - 1], local);
    }
  }

  /** Node n has nothing of round r yet. */
  predicate NewTo(n: Node, r: int32) {
    !IsLocked(n.triggers, r) && Holds(n.prices, r, [], []) && !IsLocked(n.fixes, r) && Holds(n.proofs, r, [], [])
  }

  ghost predicate NewToAll(s: System, r: int32) {
    forall id :: id in s.nodes ==> s.nodes[id].id == id && NewTo(s.nodes[id], r)
  }

  lemma StartsRound(run: Trace, acts: seq<Action>, s: System, leader: string, ts: int) returns (acts': seq<Action>, s': System)
    requires Closed(run, leader) && run(acts, s) && leader in s.nodes && s.nodes[leader].id == leader
    ensures var r := Wrap32(s.nodes[leader].roundId as int + 1);
            && run(acts', s') && Untouched(s, s') && Published(Trigger(leader, r, ts)) in s'.log
            && forall x :: x in s.nodes ==> s'.nodes[x].triggers == s.nodes[x].triggers
  {
    var a := LeaderTick(leader, ts);
    Step(run, acts, s, a, leader);
    acts', s' := acts + [a], Apply(s, a);
    assert s'.log == s.log + [Published(Trigger(leader, Wrap32(s.nodes[leader].roundId as int + 1), ts))];
  }

  /** Fixes and proofs are as they were. */
  ghost predicate KeepsLate(s: System, s': System) {
    SameProofs(s, s') && forall x :: x in s.nodes ==> s'.nodes[x].fixes == s.nodes[x].fixes
  }

  /** From the trigger to the fix. */
  lemma RunsToFix(run: Trace, s: System, leader: string, ids: seq<string>, ts: int, peers: nat, local: string -> Option<int64>,
                  m: int64, r: int32)
    returns (acts: seq<Action>, s': System)
    requires Closed(run, leader) && run([], s) && leader in s.nodes && Named(s, ids) && Distinct(ids) && NewToAll(s, r)
    requires r == Wrap32(s.nodes[leader].roundId as int + 1) && r != 0 && Enough(|ids|, peers)
    requires MedianInt64(Offered(ids, local)) == Some(m)
    ensures run(acts, s') && KeepsLate(s, s') && Published(PriceFix(leader, r, m, ts)) in s'.log
  {
    OfferedIsUsable(ids, local);
    var acts1, s1 := PricesPublished(run, s, leader, ids, ts, peers, local, r);
    acts, s' := FixesPrice(run, acts1, s1, leader, ids, r, ts, peers, local, m);
    FixKeepsLate(s, s1, s', leader);
  }

  lemma FixKeepsLate(s: System, s1: System, s': System, leader: string)
    requires Untouched(s, s1) && Moves(s1, s', leader) && s'.nodes[leader] == s1.nodes[leader].(prices := s'.nodes[leader].prices)
    ensures KeepsLate(s, s')
  {
    forall x | x in s.nodes ensures s'.nodes[x].proofs == s.nodes[x].proofs && s'.nodes[x].fixes == s.nodes[x].fixes
                                    && s'.nodes[x].id == s.nodes[x].id
    {
      assert x in s1.nodes && SameTables(s.nodes[x], s1.nodes[x]);
    }
  }

  lemma PricesPublished(run: Trace, s: System, leader: string, ids: seq<string>, ts: int, peers: nat,
                        local: string -> Option<int64>, r: int32)
    returns (acts: seq<Action>, s': System)
    requires Closed(run, leader) && run([], s) && leader in s.nodes && Named(s, ids) && Distinct(ids) && NewToAll(s, r)
    requires r == Wrap32(s.nodes[leader].roundId as int + 1) && r != 0
    ensures run(acts, s') && Untouched(s, s')
    ensures AllPriced(s'.log, ids, r, ts, local)
  {
    var acts1, s1 := StartsRound(run, [], s, leader, ts);
    acts, s' := AllAnswer(run, acts1, s1, leader, ids, r, ts, peers, local);
    UntouchedTwice(s, s1, s');
  }

  lemma UntouchedTwice(s: System, s1: System, s2: System)
    requires Untouched(s, s1) && Untouched(s1, s2)
    ensures Untouched(s, s2)
  {
    forall x | x in s.nodes ensures SameTables(s.nodes[x], s2.nodes[x]) && s2.nodes[x].id == s.nodes[x].id {
      assert x in s1.nodes;
    }
  }

  lemma StillUnfixed(s: System, s': System, ids: seq<string>, r: int32)
    requires Named(s, ids) && NewToAll(s, r) && KeepsLate(s, s')
    ensures Named(s', ids) && AllUnfixed(s', ids, r)
  {
  }

  /** From the trigger to the signatures. */
  lemma RunsRound(run: Trace, s: System, leader: string, ids: seq<string>, ts: int, peers: nat, local: string -> Option<int64>,
                  sign: string -> seq<byte>, m: int64, r: int32)
    returns (acts: seq<Action>, s': System)
    requires Closed(run, leader) && run([], s) && leader in s.nodes && Named(s, ids) && Distinct(ids) && NewToAll(s, r)
    requires r == Wrap32(s.nodes[leader].roundId as int + 1) && r != 0 && Enough(|ids|, peers)
    requires MedianInt64(Offered(ids, local)) == Some(m)
    ensures run(acts, s') && SameProofs(s, s') && Published(PriceFix(leader, r, m, ts)) in s'.log
    ensures AllSigned(s'.log, ids, r, m, ts, sign)
  {
    var acts1, s1 := RunsToFix(run, s, leader, ids, ts, peers, local, m, r);
    StillUnfixed(s, s1, ids, r);
    acts, s' := AllSign(run, acts1, s1, leader, ids, r, m, ts, peers, sign);
  }

  /**
   * A round can be completed. In any state in which the leader's next round is new to all
   * nodes, for any participants `ids` - all peers + 1 of them, or a quorum of at least
   * (peers+1)/2 - with any local prices and signatures, there is a run under that leader in
   * which it fixes the round at the median by rank of the prices offered, and every node `js`
   * streams an aggregate of that price and the trigger's time whose proof cuts into the
   * signatures of the participants.
   */
  lemma RoundCompletes(s: System, leader: string, ids: seq<string>, js: seq<string>, ts: int, peers: nat,
                       local: string -> Option<int64>, sign: string -> seq<byte>, m: int64, r: int32)
    returns (acts: seq<Action>, proof: seq<byte>)
    requires leader in s.nodes && Named(s, ids) && Named(s, js) && Distinct(ids) && Distinct(js) && NewToAll(s, r)
    requires r == Wrap32(s.nodes[leader].roundId as int + 1) && r != 0 && Enough(|ids|, peers)
    requires Offered(ids, local) != [] && Middle(Offered(ids, local), m) && m != 0 && ts != ZERO_TIME
    ensures ValidRun(s, acts) && FixedLeader(acts, leader) && CutsInto(proof, Signatures(ids, sign))
    ensures Published(PriceFix(leader, r, m, ts)) in Exec(s, acts).log
    ensures forall i :: 0 <= i < |js| ==> Streamed(js[i], Submission(r, m, ts, proof)) in Exec(s, acts).log
  {
    proof := Concat(Signatures(ids, sign));
    ConcatCuts(Signatures(ids, sign));
    MedianIsMiddle(Offered(ids, local), m);
    TracesAreClosed(s, leader);
    var s';
    acts, s' := CompletesRound(TracesFrom(s, leader), s, leader, ids, js, ts, peers, local, sign, m, r);
  }

  lemma CompletesRound(run: Trace, s: System, leader: string, ids: seq<string>, js: seq<string>, ts: int, peers: nat,
                       local: string -> Option<int64>, sign: string -> seq<byte>, m: int64, r: int32)
    returns (acts: seq<Action>, s': System)
    requires Closed(run, leader) && run([], s) && leader in s.nodes && Named(s, ids) && Named(s, js) && Distinct(ids) && Distinct(js)
    requires NewToAll(s, r) && r == Wrap32(s.nodes[leader].roundId as int + 1) && r != 0 && Enough(|ids|, peers)
    requires MedianInt64(Offered(ids, local)) == Some(m) && m != 0 && ts != ZERO_TIME
    ensures run(acts, s') && Published(PriceFix(leader, r, m, ts)) in s'.log
    ensures forall i :: 0 <= i < |js| ==> Streamed(js[i], Submission(r, m, ts, Concat(Signatures(ids, sign)))) in s'.log
  {
    var acts1, s1 := RunsRound(run, s, leader, ids, ts, peers, local, sign, m, r);
    acts, s' := AllStream(run, acts1, s1, leader, js, ids, r, m, ts, peers, sign);
  }
}
