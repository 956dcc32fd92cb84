/**
 * The round protocol among all nodes. A run is any sequence of actions: leader ticks,
 * deliveries of published messages in any order and any number of times, collection
 * timeouts, and prunes. Each handled trigger prunes the four tables once, one after the other,
 * at its round; each prune may come at any later time, because the tables' mutexes are taken
 * one by one after the handler's.
 */
module RoundProtocol {
  import opened GoInt
  import opened Wrappers
  import opened RoundTables
  import opened Aggregator

  /** What raft, the pubsub topic, the fetcher and the signer answer during one action. */
  datatype Env = Env(leader: string, isLeader: bool, peers: nat, local: Option<int64>, signature: Option<seq<byte>>)

  datatype Action =
    | LeaderTick(node: string, now: int)
    | Deliver(node: string, msg: Message, env: Env)
    | Timeout(node: string, timer: Timer, env: Env)
    | Prune(node: string, table: TableKind, round: int32)

  datatype Event =
    | Published(msg: Message)
    | Streamed(node: string, data: Submission)
    | Pruned(node: string, table: TableKind, round: int32)

  /** The acting node right after an event, and the peer count it saw. */
  datatype Snapshot = Snapshot(node: Node, peers: nat)

  /** A prune that a handled trigger has yet to do. */
  datatype DuePrune = DuePrune(node: string, table: TableKind, round: int32)

  datatype System = System(
    nodes: map<string, Node>,
    timers: multiset<(string, Timer)>,
    prunes: multiset<DuePrune>,
    log: seq<Event>,
    snaps: seq<Snapshot>)

  ghost predicate Initial(s: System) {
    && s.timers == multiset{} && s.prunes == multiset{} && s.log == [] && s.snaps == []
    && (forall id :: id in s.nodes ==> s.nodes[id] == NewNode(id).(roundId := s.nodes[id].roundId))
  }

  predicate Enabled(s: System, a: Action) {
    && a.node in s.nodes
    && match a
       case LeaderTick(_, _) => true
       case Deliver(_, msg, _) => Published(msg) in s.log
       case Timeout(id, timer, _) => (id, timer) in s.timers
       case Prune(id, table, round) => DuePrune(id, table, round) in s.prunes
  }

  function PeersOf(a: Action): nat {
    if a.Deliver? || a.Timeout? then a.env.peers else 0
  }

  function React(n: Node, a: Action): Reaction {
    match a
    case LeaderTick(_, now) => OnLeaderJob(n, now)
    case Deliver(_, Trigger(from, round, ts), env) => OnTrigger(n, from, round, ts, env.leader, env.local)
    case Deliver(_, PriceData(from, round, value, ts), env) =>
      OnPriceData(n, from, round, value, ts, env.peers, env.isLeader)
    case Deliver(_, PriceFix(from, round, value, ts), env) =>
      OnPriceFix(n, from, round, value, ts, env.leader, env.signature)
    case Deliver(_, Proof(_, _, _, _, _), env) => OnProof(n, a.msg, env.peers)
    case Timeout(_, PriceTimer(round, ts), env) => OnPriceTimeout(n, round, ts, env.peers, env.isLeader)
    case Timeout(_, ProofTimer(msg), env) => if msg.Proof? then OnProofTimeout(n, msg, env.peers) else Quiet(n)
    case Prune(_, table, round) => Quiet(PruneTable(n, table, round))
  }

  /** The prune an action leaves to be done: a trigger's first, and after each the next. */
  function Due(a: Action): Option<DuePrune> {
    if a.Deliver? && a.msg.Trigger? then Some(DuePrune(a.node, TriggerTable, a.msg.round))
    else if !a.Prune? then None
    else match a.table
      case TriggerTable => Some(DuePrune(a.node, PriceTable, a.round))
      case PriceTable => Some(DuePrune(a.node, FixTable, a.round))
      case FixTable => Some(DuePrune(a.node, ProofTable, a.round))
      case ProofTable => None
  }

  function PrunesAfter(prunes: multiset<DuePrune>, a: Action): multiset<DuePrune> {
    (if a.Prune? then prunes - multiset{DuePrune(a.node, a.table, a.round)} else prunes)
      + (if Due(a).Some? then multiset{Due(a).value} else multiset{})
  }

  /** The event an action leaves in the log, if any. */
  function EventOf(a: Action, r: Reaction): Option<Event> {
    if a.Prune? then Some(Pruned(a.node, a.table, a.round))
    else match r.out
      case None => None
      case Some(Publish(m)) => Some(Published(m))
      case Some(Stream(d)) => Some(Streamed(a.node, d))
  }

  function Apply(s: System, a: Action): System
    requires Enabled(s, a)
  {
    var r := React(s.nodes[a.node], a);
    var e := EventOf(a, r);
    System(
      s.nodes[a.node := r.node],
      (if a.Timeout? then s.timers - multiset{(a.node, a.timer)} else s.timers)
        + (if r.timer.Some? then multiset{(a.node, r.timer.value)} else multiset{}),
      PrunesAfter(s.prunes, a),
      if e.Some? then s.log + [e.value] else s.log,
      if e.Some? then s.snaps + [Snapshot(r.node, PeersOf(a))] else s.snaps)
  }

  predicate ValidRun(s: System, acts: seq<Action>)
    decreases |acts|, 0
  {
    acts == [] || (ValidRun(s, acts[..|acts| - 1]) && Enabled(Exec(s, acts[..|acts| - 1]), acts[|acts| - 1]))
  }

  function Exec(s: System, acts: seq<Action>): System
    requires ValidRun(s, acts)
    decreases |acts|, 1
  {
    if acts == [] then s else Apply(Exec(s, acts[..|acts| - 1]), acts[|acts| - 1])
  }

  lemma OneMore(s: System, acts: seq<Action>, a: Action)
    requires ValidRun(s, acts) && Enabled(Exec(s, acts), a)
    ensures ValidRun(s, acts + [a]) && Exec(s, acts + [a]) == Apply(Exec(s, acts), a)
  {
    assert (acts + [a])[..|acts|] == acts;
  }

  lemma LogGrows(s: System, a: Action)
    requires Enabled(s, a)
    ensures forall e :: e in s.log ==> e in Apply(s, a).log
    ensures |s.log| <= |Apply(s, a).log| <= |s.log| + 1 && Apply(s, a).log[..|s.log|] == s.log
  {
  }

  lemma {:induction false} NodesStay(s: System, acts: seq<Action>)
    requires ValidRun(s, acts)
    ensures Exec(s, acts).nodes.Keys == s.nodes.Keys
  {
    if acts != [] { NodesStay(s, acts[..|acts| - 1]); }
  }

  /** Throughout the run every node takes `leader` for the leader, and only it acts as one. */
  ghost predicate FixedLeader(acts: seq<Action>, leader: string) {
    forall i :: 0 <= i < |acts| && (acts[i].Deliver? || acts[i].Timeout?) ==>
      acts[i].env.leader == leader && (acts[i].env.isLeader <==> acts[i].node == leader)
  }
}
