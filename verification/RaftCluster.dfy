/**
 * The cluster: any order and any repetition of deliveries, election timeouts at any time in
 * any role, and heartbeats from every running leader loop. A vote reply carries no term and
 * the threshold is (peers+1)/2, so one leader per term is not kept (module RaftTwoLeaders);
 * what is kept is one vote per term, and heartbeats settle which of several leaders stays.
 */
module RaftCluster {
  import opened Wrappers
  import opened Raft

  datatype Action =
    | Deliver(node: string, msg: Message, peers: nat)
    | ElectionTimeout(node: string, coolingDown: bool)
    | HeartbeatTick(node: string)

  datatype Event =
    | Sent(msg: Message)
    | Voted(node: string, term: int, candidate: string)
    | Elected(node: string, term: int)
    | Closed(node: string, channel: nat)

  /** `loops` holds the nodes with a running leader loop. */
  datatype Cluster = Cluster(nodes: map<string, Node>, loops: set<string>, log: seq<Event>)

  ghost predicate Initial(c: Cluster) {
    && c.loops == {} && c.log == []
    && (forall id :: id in c.nodes ==> id != "" && c.nodes[id] == NewNode(id))
  }

  /** A tick needs a running loop, and the loop's tick branches need the resign channel open. */
  predicate Enabled(c: Cluster, a: Action) {
    && a.node in c.nodes
    && (a.Deliver? ==> Sent(a.msg) in c.log)
    && (a.HeartbeatTick? ==> a.node in c.loops && c.nodes[a.node].resign.Some?)
  }

  function React(n: Node, a: Action): Reaction {
    match a
    case Deliver(_, Heartbeat(from, leaderId, term), _) => OnHeartbeat(n, from, leaderId, term)
    case Deliver(_, RequestVote(from, term), _) => OnRequestVote(n, from, term)
    case Deliver(_, ReplyVote(_, granted, leaderId), peers) => OnReplyVote(n, granted, leaderId, peers)
    case ElectionTimeout(_, coolingDown) => OnElectionTimeout(n, coolingDown)
    case HeartbeatTick(_) => Reaction(n, Some(HeartbeatOf(n)), None, None)
  }

  /** A granted reply is a vote in the node's current term, and so is a candidacy for itself. */
  function VoteIn(r: Reaction): Option<Event> {
    match r.out
    case Some(ReplyVote(_, true, to)) => Some(Voted(r.node.id, r.node.term, to))
    case Some(RequestVote(from, term)) => Some(Voted(r.node.id, term, from))
    case _ => None
  }

  predicate WinsIn(n: Node, r: Reaction) {
    n.role != Leader && r.node.role == Leader
  }

  function Opt(e: Option<Event>): seq<Event> {
    if e.Some? then [e.value] else []
  }

  function EventsOf(n: Node, r: Reaction): seq<Event> {
    Opt(VoteIn(r))
    + Opt(if WinsIn(n, r) then Some(Elected(n.id, r.node.term)) else None)
    + Opt(if r.closed.Some? then Some(Closed(n.id, r.closed.value)) else None)
    + Opt(if r.out.Some? then Some(Sent(r.out.value)) else None)
  }

  function Apply(c: Cluster, a: Action): Cluster
    requires Enabled(c, a)
  {
    var n := c.nodes[a.node];
    var r := React(n, a);
    Cluster(
      c.nodes[a.node := r.node],
      if WinsIn(n, r) then c.loops + {a.node} else if r.closed.Some? then c.loops - {a.node} else c.loops,
      c.log + EventsOf(n, r))
  }

  predicate ValidRun(c: Cluster, acts: seq<Action>)
    decreases |acts|, 0
  {
    acts == [] || (ValidRun(c, acts[..|acts| - 1]) && Enabled(Exec(c, acts[..|acts| - 1]), acts[|acts| - 1]))
  }

  function Exec(c: Cluster, acts: seq<Action>): Cluster
    requires ValidRun(c, acts)
    decreases |acts|, 1
  {
    if acts == [] then c else Apply(Exec(c, acts[..|acts| - 1]), acts[|acts| - 1])
  }

  predicate IsLeader(c: Cluster, id: string) {
    id in c.nodes && c.nodes[id].role == Leader
  }

  ghost predicate Reaches(c0: Cluster, acts: seq<Action>, c: Cluster) {
    ValidRun(c0, acts) && Exec(c0, acts) == c
  }

  lemma Extend(c0: Cluster, acts: seq<Action>, c: Cluster, a: Action)
    requires Reaches(c0, acts, c) && Enabled(c, a)
    ensures Reaches(c0, acts + [a], Apply(c, a))
  {
    assert (acts + [a])[..|acts + [a]| - 1] == acts;
  }

  /** The node counts `peers` peers; a negative number stands for any count. */
  predicate Counts(a: Action, peers: int) {
    a.Deliver? ==> peers < 0 || a.peers == peers
  }

  ghost predicate AllCount(acts: seq<Action>, peers: int) {
    forall i :: 0 <= i < |acts| ==> Counts(acts[i], peers)
  }

  /** Which actions lead to which cluster. */
  type Trace = (seq<Action>, Cluster) -> bool

  ghost predicate Continues(run: Trace, peers: int) {
    forall acts: seq<Action>, c: Cluster, a: Action {:trigger acts + [a], Apply(c, a), Counts(a, peers)} ::
      run(acts, c) && Enabled(c, a) && Counts(a, peers) ==> run(acts + [a], Apply(c, a))
  }

  ghost predicate RunsTo(c0: Cluster, acts: seq<Action>, c: Cluster, peers: int) {
    Reaches(c0, acts, c) && AllCount(acts, peers)
  }

  ghost function TracesFrom(c0: Cluster, peers: int): Trace {
    (acts: seq<Action>, c: Cluster) => RunsTo(c0, acts, c, peers)
  }

  lemma TracesAreClosed(c0: Cluster, peers: int)
    ensures Continues(TracesFrom(c0, peers), peers) && TracesFrom(c0, peers)([], c0)
  {
    assert RunsTo(c0, [], c0, peers);
    forall acts: seq<Action>, c: Cluster, a: Action | TracesFrom(c0, peers)(acts, c) && Enabled(c, a) && Counts(a, peers)
      ensures TracesFrom(c0, peers)(acts + [a], Apply(c, a))
    {
      Extend(c0, acts, c, a);
    }
  }

  lemma Step(run: Trace, acts: seq<Action>, c: Cluster, a: Action, peers: int)
    requires Continues(run, peers) && run(acts, c) && Enabled(c, a) && Counts(a, peers)
    ensures run(acts + [a], Apply(c, a))
  {
  }
}
