/**
 * One node of the round protocol (node/pkg/aggregator/aggregator.go): each message handler
 * and each collection timeout as a function of the node's state, and the object whose
 * methods carry them out. What the node cannot decide by itself - who raft says the leader
 * is, its own role, how many peers the topic has, the latest local price, the signature -
 * is a parameter.
 */
module Aggregator {
  import opened GoInt
  import opened Wrappers
  import opened Bytes
  import opened RoundTables
  import opened Median

  /** time.Time{}: the zero timestamp. */
  const ZERO_TIME: int := 0

  datatype Message =
    | Trigger(from: string, round: int32, ts: int)
    | PriceData(from: string, round: int32, value: int64, ts: int)
    | PriceFix(from: string, round: int32, value: int64, ts: int)
    | Proof(from: string, round: int32, value: int64, proof: Option<seq<byte>>, ts: int)

  /** A global aggregate together with the concatenated proofs, as streamed. */
  datatype Submission = Submission(round: int32, value: int64, ts: int, proof: seq<byte>)

  datatype Output = Publish(msg: Message) | Stream(data: Submission)

  /** A collection timeout that the handler starts in the background. */
  datatype Timer = PriceTimer(round: int32, ts: int) | ProofTimer(msg: Message)

  datatype Error = InvalidMessage | NonLeaderMessage | EmptyProof | SigningFailed

  datatype Node = Node(
    id: string,
    roundId: int32,
    triggers: map<int32, bool>,
    prices: Table<int64>,
    fixes: map<int32, bool>,
    proofs: Table<seq<byte>>)
  {
    ghost predicate Sound() {
      prices.Sound() && proofs.Sound()
    }
  }

  /** What a handler leaves: the new state, what it sends, the timer it starts, its error. */
  datatype Reaction = Reaction(node: Node, out: Option<Output>, timer: Option<Timer>, err: Option<Error>)

  function Quiet(n: Node): Reaction {
    Reaction(n, None, None, None)
  }

  function Fails(n: Node, e: Error): Reaction {
    Reaction(n, None, None, Some(e))
  }

  function Sends(n: Node, o: Output): Reaction {
    Reaction(n, Some(o), None, None)
  }

  function NewNode(id: string): Node {
    Node(id, 1, map[], Table(map[], map[], map[]), map[], Table(map[], map[], map[]))
  }

  function OnLeaderJob(n: Node, now: int): Reaction {
    var round := Wrap32(n.roundId as int + 1);
    Sends(n.(roundId := round), Publish(Trigger(n.id, round, now)))
  }

  /** HandleTriggerMessage up to its deferred prune. */
  function OnTrigger(n: Node, from: string, round: int32, ts: int, leader: string, local: Option<int64>): Reaction {
    if round == 0 then Fails(n, InvalidMessage)
    else if from != leader then Fails(n, NonLeaderMessage)
    else
      var n1 := if from != n.id && n.roundId < round then n.(roundId := round) else n;
      if IsLocked(n1.triggers, round) then Quiet(n1)
      else
        Sends(n1.(triggers := n1.triggers[round := true]),
              Publish(PriceData(n.id, round, if local.Some? then local.value else -1, ts)))
  }

  function ProcessPrices(n: Node, round: int32, ts: int, isLeader: bool): Reaction {
    var n1 := n.(prices := n.prices.Lock(round));
    if !isLeader then Quiet(n1)
    else
      var median := MedianInt64(NonNegative(At(n.prices.items, round)));
      if median.None? then Quiet(n1) else Sends(n1, Publish(PriceFix(n.id, round, median.value, ts)))
  }

  function OnPriceData(n: Node, from: string, round: int32, value: int64, ts: int, peers: nat, isLeader: bool): Reaction {
    if round == 0 then Fails(n, InvalidMessage)
    else if IsLocked(n.prices.locked, round) || from in At(n.prices.senders, round) then Quiet(n)
    else
      var n1 := n.(prices := n.prices.Store(round, value, from));
      var collected := |At(n1.prices.items, round)|;
      if collected == peers + 1 then ProcessPrices(n1, round, ts, isLeader)
      else if collected == 1 then Reaction(n1, None, Some(PriceTimer(round, ts)), None)
      else Quiet(n1)
  }

  function OnPriceTimeout(n: Node, round: int32, ts: int, peers: nat, isLeader: bool): Reaction {
    if !IsLocked(n.prices.locked, round) && |At(n.prices.items, round)| >= (peers + 1) / 2
    then ProcessPrices(n, round, ts, isLeader)
    else Quiet(n)
  }

  function OnPriceFix(n: Node, from: string, round: int32, value: int64, ts: int, leader: string,
                      signature: Option<seq<byte>>): Reaction
  {
    if from != leader then Fails(n, NonLeaderMessage)
    else if IsLocked(n.fixes, round) then Quiet(n)
    else
      var n1 := n.(fixes := n.fixes[round := true]);
      if signature.None? then Fails(n1, SigningFailed)
      else Sends(n1, Publish(Proof(n.id, round, value, signature, ts)))
  }

  function ProcessProofs(n: Node, round: int32, value: int64, ts: int): Reaction {
    var n1 := n.(proofs := n.proofs.Lock(round));
    if value == 0 || ts == ZERO_TIME then Quiet(n1)
    else Sends(n1, Stream(Submission(round, value, ts, Concat(At(n.proofs.items, round)))))
  }

  function OnProof(n: Node, m: Message, peers: nat): Reaction
    requires m.Proof?
  {
    if m.round == 0 then Fails(n, InvalidMessage)
    else if m.proof.None? then Fails(n, EmptyProof)
    else if IsLocked(n.proofs.locked, m.round) || m.from in At(n.proofs.senders, m.round) then Quiet(n)
    else
      var n1 := n.(proofs := n.proofs.Store(m.round, m.proof.value, m.from));
      var collected := |At(n1.proofs.items, m.round)|;
      if collected == peers + 1 then ProcessProofs(n1, m.round, m.value, m.ts)
      else if collected == 1 then Reaction(n1, None, Some(ProofTimer(m)), None)
      else Quiet(n1)
  }

  function OnProofTimeout(n: Node, m: Message, peers: nat): Reaction
    requires m.Proof?
  {
    if !IsLocked(n.proofs.locked, m.round) && |At(n.proofs.items, m.round)| >= (peers + 1) / 2
    then ProcessProofs(n, m.round, m.value, m.ts)
    else Quiet(n)
  }

  datatype TableKind = TriggerTable | PriceTable | FixTable | ProofTable

  function PruneTable(n: Node, t: TableKind, round: int32): Node {
    match t
    case TriggerTable => n.(triggers := Retain(n.triggers, round))
    case PriceTable => n.(prices := n.prices.Prune(round))
    case FixTable => n.(fixes := Retain(n.fixes, round))
    case ProofTable => n.(proofs := n.proofs.Prune(round))
  }

  function PruneAll(n: Node, round: int32): Node {
    PruneTable(PruneTable(PruneTable(PruneTable(n, TriggerTable, round), PriceTable, round), FixTable, round), ProofTable, round)
  }

  /** The entries of m for the ten rounds up to `round`, unchanged, and no others. */
  ghost predicate LastTen<V(!new)>(m: map<int32, V>, kept: map<int32, V>, round: int32) {
    && (forall i :: i in kept <==> i in m && round as int - 10 < i <= round && round as int - 10 >= MIN_INT32)
    && (forall i :: i in kept ==> kept[i] == m[i])
  }

  lemma RetainsLastTen<V(!new)>(m: map<int32, V>, round: int32)
    ensures LastTen(m, Retain(m, round), round)
  {
    forall i: int32 | i in m ensures i in Retain(m, round) <==> round as int - 10 < i <= round && round as int - 10 >= MIN_INT32 {
      WindowIsLastTen(i, round);
    }
  }

  /** A prune leaves the last ten rounds in every table, and what it leaves is unchanged. */
  lemma PruneLeavesLastTen(n: Node, round: int32)
    ensures var p := PruneAll(n, round);
            && p.id == n.id && p.roundId == n.roundId
            && LastTen(n.triggers, p.triggers, round) && LastTen(n.fixes, p.fixes, round)
            && LastTen(n.prices.items, p.prices.items, round) && LastTen(n.prices.senders, p.prices.senders, round)
            && LastTen(n.prices.locked, p.prices.locked, round) && LastTen(n.proofs.items, p.proofs.items, round)
            && LastTen(n.proofs.senders, p.proofs.senders, round) && LastTen(n.proofs.locked, p.proofs.locked, round)
  {
    RetainsLastTen(n.triggers, round);
    RetainsLastTen(n.fixes, round);
    RetainsLastTen(n.prices.items, round);
    RetainsLastTen(n.prices.senders, round);
    RetainsLastTen(n.prices.locked, round);
    RetainsLastTen(n.proofs.items, round);
    RetainsLastTen(n.proofs.senders, round);
    RetainsLastTen(n.proofs.locked, round);
  }

  class AggregatorNode {
    const id: string
    var roundId: int32
    const roundTriggers: RoundLocks
    const roundPrices: RoundTable<int64>
    const roundPriceFixes: RoundLocks
    const roundProofs: RoundTable<seq<byte>>

    ghost const Repr: set<object> := {this, roundTriggers, roundPrices, roundPriceFixes, roundProofs}

    ghost predicate Valid()
      reads this, roundTriggers, roundPrices, roundPriceFixes, roundProofs
    {
      && roundTriggers != roundPriceFixes
      && View().Sound()
    }

    ghost function View(): Node
      reads this, roundTriggers, roundPrices, roundPriceFixes, roundProofs
    {
      Node(id, roundId, roundTriggers.locked, roundPrices.View(), roundPriceFixes.locked, roundProofs.View())
    }

    constructor (host: string)
      ensures Valid() && View() == NewNode(host) && fresh(Repr)
    {
      id := host;
      roundId := 1;
      roundTriggers := new RoundLocks();
      roundPrices := new RoundTable<int64>();
      roundPriceFixes := new RoundLocks();
      roundProofs := new RoundTable<seq<byte>>();
    }

    method LeaderJob(now: int) returns (out: Option<Output>)
      requires Valid()
      modifies this
      ensures Valid() && View() == OnLeaderJob(old(View()), now).node && out == OnLeaderJob(old(View()), now).out
    {
      roundId := Wrap32(roundId as int + 1);
      out := Some(Publish(Trigger(id, roundId, now)));
    }

    /** The whole handler run by itself, the deferred prune included: it happens on every path. */
    method HandleTriggerMessage(from: string, round: int32, ts: int, leader: string, local: Option<int64>)
      returns (out: Option<Output>, err: Option<Error>)
      requires Valid()
      modifies Repr
      ensures Valid()
      ensures var r := OnTrigger(old(View()), from, round, ts, leader, local);
              View() == PruneAll(r.node, round) && out == r.out && err == r.err
    {
      out, err := None, None;
      if round == 0 {
        err := Some(InvalidMessage);
      } else if from != leader {
        err := Some(NonLeaderMessage);
      } else {
        if from != id {
          roundId := if roundId < round then round else roundId;
        }
        if !IsLocked(roundTriggers.locked, round) {
          roundTriggers.locked := roundTriggers.locked[round := true];
          out := Some(Publish(PriceData(id, round, if local.Some? then local.value else -1, ts)));
        }
      }
      LeaveOnlyLast10Entries(round);
    }

    method LeaveOnlyLast10Entries(round: int32)
      requires Valid()
      modifies Repr
      ensures Valid() && View() == PruneAll(old(View()), round)
    {
      roundTriggers.LeaveOnlyLast10Entries(round);
      roundPrices.LeaveOnlyLast10Entries(round);
      roundPriceFixes.LeaveOnlyLast10Entries(round);
      roundProofs.LeaveOnlyLast10Entries(round);
    }

    method HandlePriceDataMessage(from: string, round: int32, value: int64, ts: int, peers: nat, isLeader: bool)
      returns (out: Option<Output>, timer: Option<Timer>, err: Option<Error>)
      requires Valid()
      modifies roundPrices
      ensures Valid()
      ensures Reaction(View(), out, timer, err) == OnPriceData(old(View()), from, round, value, ts, peers, isLeader)
    {
      out, timer, err := None, None, None;
      if round == 0 {
        return None, None, Some(InvalidMessage);
      }
      if IsLocked(roundPrices.locked, round) {
        return;
      }
      var replay := roundPrices.IsReplay(round, from);
      if replay {
        return;
      }
      roundPrices.View().StoreIsSound(round, value, from);
      roundPrices.Store(round, value, from);
      if |At(roundPrices.items, round)| == peers + 1 {
        out := ProcessCollectedPrices(round, ts, isLeader);
        return;
      }
      if |At(roundPrices.items, round)| == 1 {
        timer := Some(PriceTimer(round, ts));
      }
    }

    method PriceCollectionTimeout(round: int32, ts: int, peers: nat, isLeader: bool) returns (out: Option<Output>)
      requires Valid()
      modifies roundPrices
      ensures Valid()
      ensures Reaction(View(), out, None, None) == OnPriceTimeout(old(View()), round, ts, peers, isLeader)
    {
      out := None;
      if !IsLocked(roundPrices.locked, round) && |At(roundPrices.items, round)| >= (peers + 1) / 2 {
        out := ProcessCollectedPrices(round, ts, isLeader);
      }
    }

    method ProcessCollectedPrices(round: int32, ts: int, isLeader: bool) returns (out: Option<Output>)
      requires Valid()
      modifies roundPrices
      ensures Valid()
      ensures Reaction(View(), out, None, None) == ProcessPrices(old(View()), round, ts, isLeader)
    {
      roundPrices.locked := roundPrices.locked[round := true];
      if !isLeader {
        return None;
      }
      var filtered := FilterNegative(At(roundPrices.items, round));
      if |filtered| == 0 {
        return None;
      }
      var median := MedianInt64(filtered);
      out := Some(Publish(PriceFix(id, round, median.value, ts)));
    }

    method HandlePriceFixMessage(from: string, round: int32, value: int64, ts: int, leader: string,
                                 signature: Option<seq<byte>>)
      returns (out: Option<Output>, err: Option<Error>)
      requires Valid()
      modifies roundPriceFixes
      ensures Valid()
      ensures Reaction(View(), out, None, err) == OnPriceFix(old(View()), from, round, value, ts, leader, signature)
    {
      if from != leader {
        return None, Some(NonLeaderMessage);
      }
      if IsLocked(roundPriceFixes.locked, round) {
        return None, None;
      }
      roundPriceFixes.locked := roundPriceFixes.locked[round := true];
      if signature.None? {
        return None, Some(SigningFailed);
      }
      return Some(Publish(Proof(id, round, value, signature, ts))), None;
    }

    method HandleProofMessage(m: Message, peers: nat)
      returns (out: Option<Output>, timer: Option<Timer>, err: Option<Error>)
      requires Valid() && m.Proof?
      modifies roundProofs
      ensures Valid()
      ensures Reaction(View(), out, timer, err) == OnProof(old(View()), m, peers)
    {
      out, timer, err := None, None, None;
      if m.round == 0 {
        return None, None, Some(InvalidMessage);
      }
      if m.proof.None? {
        return None, None, Some(EmptyProof);
      }
      if IsLocked(roundProofs.locked, m.round) {
        return;
      }
      var replay := roundProofs.IsReplay(m.round, m.from);
      if replay {
        return;
      }
      roundProofs.View().StoreIsSound(m.round, m.proof.value, m.from);
      roundProofs.Store(m.round, m.proof.value, m.from);
      if |At(roundProofs.items, m.round)| == peers + 1 {
        out := ProcessCollectedProofs(m);
        return;
      }
      if |At(roundProofs.items, m.round)| == 1 {
        timer := Some(ProofTimer(m));
      }
    }

    method ProofCollectionTimeout(m: Message, peers: nat) returns (out: Option<Output>)
      requires Valid() && m.Proof?
      modifies roundProofs
      ensures Valid()
      ensures Reaction(View(), out, None, None) == OnProofTimeout(old(View()), m, peers)
    {
      out := None;
      if !IsLocked(roundProofs.locked, m.round) && |At(roundProofs.items, m.round)| >= (peers + 1) / 2 {
        out := ProcessCollectedProofs(m);
      }
    }

    method ProcessCollectedProofs(m: Message) returns (out: Option<Output>)
      requires Valid() && m.Proof?
      modifies roundProofs
      ensures Valid()
      ensures Reaction(View(), out, None, None) == ProcessProofs(old(View()), m.round, m.value, m.ts)
    {
      roundProofs.locked := roundProofs.locked[m.round := true];
      if m.value == 0 || m.ts == ZERO_TIME {
        return None;
      }
      return Some(Stream(Submission(m.round, m.value, m.ts, Concat(At(roundProofs.items, m.round)))));
    }
  }
}
