/**
 * When votes are given, what they are worth and when nodes ask for them: over every reachable
 * state a request, a heartbeat and a timeout do exactly what is stated here.
 */
module RaftVotes {
  import opened Wrappers
  import opened Raft
  import opened RaftCluster
  import opened RaftSafety

  // ---------------------------------------------------------------- granting

  function Max(a: int, b: int): int { if a < b then b else a }

  /** A node may vote for `from` in `term`: a later term than its own, or its own and no other vote given. */
  predicate MayVote(n: Node, from: string, term: int) {
    term > n.term || (term == n.term && (n.votedFor == "" || n.votedFor == from))
  }

  /** What a request leaves: the reply in the log, and the node's term, vote and role. */
  ghost predicate Answers(c: Cluster, c': Cluster, id: string, from: string, term: int)
    requires id in c.nodes && id in c'.nodes
  {
    var n, n' := c.nodes[id], c'.nodes[id];
    if n.role == Leader then n' == n && c'.log == c.log
    else
      && n' == n.(term := Max(n.term, term), votedFor := n'.votedFor, role := n'.role)
      && (if MayVote(n, from, term)
          then n'.votedFor == from && c'.log == c.log + [Voted(id, term, from), Sent(ReplyVote(id, true, from))]
          else n'.votedFor == n.votedFor && c'.log == c.log + [Sent(ReplyVote(id, false, from))])
      && n'.role == if term > n.term || (term == n.term && from != id) then Follower else n.role
  }

  lemma RequestAnswered(n: Node, from: string, term: int)
    requires NodeInv(n) && n.role != Leader
    ensures var r := OnRequestVote(n, from, term);
            && r.node == n.(term := Max(n.term, term), votedFor := r.node.votedFor, role := r.node.role)
            && r.out == Some(ReplyVote(n.id, MayVote(n, from, term), from)) && r.closed.None?
            && r.node.votedFor == (if MayVote(n, from, term) then from else n.votedFor)
            && r.node.role == if term > n.term || (term == n.term && from != n.id) then Follower else n.role
  {
  }

  /**
   * In every reachable state: a node that leads ignores a request; any other grants it if and
   * only if the request's term is above its own, or equal and it has voted for nobody or for
   * that sender. A granted vote is in the log, a refused one leaves the earlier vote. The node
   * takes over a later term, and a request of another for its own term ends its candidacy.
   */
  lemma GrantsExactly(c: Cluster, acts: seq<Action>, id: string, from: string, term: int, peers: nat)
    requires Initial(c) && ValidRun(c, acts) && Enabled(Exec(c, acts), Deliver(id, RequestVote(from, term), peers))
    ensures var d := Exec(c, acts); Answers(d, Apply(d, Deliver(id, RequestVote(from, term), peers)), id, from, term)
  {
    RunKeepsInv(c, acts);
    StepAnswers(Exec(c, acts), id, from, term, peers);
  }

  lemma StepAnswers(c: Cluster, id: string, from: string, term: int, peers: nat)
    requires Inv(c) && Enabled(c, Deliver(id, RequestVote(from, term), peers))
    ensures Answers(c, Apply(c, Deliver(id, RequestVote(from, term), peers)), id, from, term)
  {
    var n := c.nodes[id];
    assert NodeInv(n);
    if n.role != Leader {
      RequestAnswered(n, from, term);
      ReplyEvents(n, OnRequestVote(n, from, term), MayVote(n, from, term), from, Max(n.term, term));
    }
  }

  lemma ReplyEvents(n: Node, r: Reaction, granted: bool, to: string, term: int)
    requires r.node.id == n.id && r.node.term == term && r.node.role != Leader && r.closed.None?
    requires r.out == Some(ReplyVote(n.id, granted, to))
    ensures EventsOf(n, r) == if granted then [Voted(n.id, term, to), Sent(ReplyVote(n.id, true, to))]
                              else [Sent(ReplyVote(n.id, false, to))]
  {
  }

  // ---------------------------------------------------------------- heartbeats

  /** What a heartbeat of another node leaves. */
  ghost predicate Follows(n: Node, n': Node, from: string, term: int) {
    && n'.missed == 0 && n'.term == Max(n.term, term) && n'.votedFor == n.votedFor && n'.votes == n.votes
    && n'.channels == n.channels
    && (term > n.term ==> n'.role == Follower && n'.leaderId == from)
    && (term == n.term && n.role != Leader ==> n'.role == n.role && n'.leaderId == from)
    && (term == n.term && n.role == Leader ==>
          if Less(n.id, from) then n'.role == Follower && n'.leaderId == from else n'.role == Leader && n'.leaderId == n.id)
    && (term < n.term ==> n'.role == n.role && n'.leaderId == n.leaderId)
    && n'.resign == if n.role == Leader && n'.role != Leader then None else n.resign
  }

  lemma HeartbeatFollowed(n: Node, from: string, term: int)
    requires NodeInv(n) && from != n.id
    ensures var r := OnHeartbeat(n, from, from, term); Follows(n, r.node, from, term) && r.err.None? && r.out.None?
  {
  }

  /** Every heartbeat sent names its sender. */
  ghost predicate Honest(log: seq<Event>) {
    forall m :: Sent(m) in log && m.Heartbeat? ==> m.leaderId == m.from
  }

  lemma {:induction false} HeartbeatsAreHonest(c: Cluster, acts: seq<Action>)
    requires Initial(c) && ValidRun(c, acts)
    ensures Honest(Exec(c, acts).log)
  {
    if acts != [] {
      var d, a := Exec(c, acts[..|acts| - 1]), acts[|acts| - 1];
      HeartbeatsAreHonest(c, acts[..|acts| - 1]);
      StepIsHonest(d, a);
    }
  }

  lemma StepIsHonest(c: Cluster, a: Action)
    requires Enabled(c, a) && Honest(c.log)
    ensures Honest(Apply(c, a).log)
  {
    var n := c.nodes[a.node];
    var r := React(n, a);
    ReactIsHonest(n, a);
    forall m | Sent(m) in Apply(c, a).log && m.Heartbeat? ensures m.leaderId == m.from {
      if Sent(m) !in c.log { InEvents(n, r, Sent(m)); }
    }
  }

  lemma ReactIsHonest(n: Node, a: Action)
    ensures var out := React(n, a).out; out.Some? && out.value.Heartbeat? ==> out.value.leaderId == out.value.from
  {
  }

  /**
   * In every reachable state a heartbeat of another node is never refused, resets the count of
   * missed ones and raises the term to the sender's; a node whose term is not above the
   * sender's names it as leader, except a leader of that term with a greater id.
   */
  lemma HeartbeatFollows(c: Cluster, acts: seq<Action>, id: string, m: Message, peers: nat)
    requires Initial(c) && ValidRun(c, acts) && Enabled(Exec(c, acts), Deliver(id, m, peers)) && m.Heartbeat? && m.from != id
    ensures m.leaderId == m.from && React(Exec(c, acts).nodes[id], Deliver(id, m, peers)).err.None?
    ensures var d := Exec(c, acts); Follows(d.nodes[id], Apply(d, Deliver(id, m, peers)).nodes[id], m.from, m.term)
  {
    RunKeepsInv(c, acts);
    HeartbeatsAreHonest(c, acts);
    var d := Exec(c, acts);
    assert NodeInv(d.nodes[id]) && m == Heartbeat(m.from, m.from, m.term);
    HeartbeatFollowed(d.nodes[id], m.from, m.term);
  }

  // ---------------------------------------------------------------- standing for election

  predicate Waits(a: Action, id: string) { a.ElectionTimeout? && a.node == id }

  predicate Hears(a: Action, id: string) { a.Deliver? && a.node == id && a.msg.Heartbeat? && a.msg.from != id }

  /** From i on, no heartbeat of another node is delivered to id. */
  ghost predicate Silent(acts: seq<Action>, i: nat, id: string) {
    forall k :: i <= k < |acts| ==> !Hears(acts[k], id)
  }

  ghost predicate MissedOne(acts: seq<Action>, i: nat, id: string) {
    i < |acts| && Waits(acts[i], id) && Silent(acts, i, id)
  }

  ghost predicate MissedTwo(acts: seq<Action>, i: nat, j: nat, id: string) {
    i < j < |acts| && Waits(acts[i], id) && Waits(acts[j], id) && Silent(acts, i, id)
  }

  ghost predicate MissedOk(acts: seq<Action>, n: Node, id: string) {
    && n.missed <= MAX_MISSED_HEARTBEATS
    && (n.missed >= 1 ==> exists i: nat :: MissedOne(acts, i, id))
    && (n.missed >= 2 ==> exists i: nat, j: nat :: MissedTwo(acts, i, j, id))
  }

  lemma LastAction(acts: seq<Action>)
    requires acts != []
    ensures acts == acts[..|acts| - 1] + [acts[|acts| - 1]]
  {
  }

  lemma ReactMisses(n: Node, a: Action, id: string)
    requires NodeInv(n) && n.id == id == a.node && (Hears(a, id) ==> a.msg.leaderId == a.msg.from)
    ensures var m := React(n, a).node.missed;
            if Hears(a, id) then m == 0
            else if Waits(a, id) && n.missed < MAX_MISSED_HEARTBEATS then m == n.missed + 1
            else m == n.missed || m == 0
    ensures var out := React(n, a).out; out.Some? && out.value.RequestVote? ==>
              Waits(a, id) && !a.coolingDown && n.missed >= MAX_MISSED_HEARTBEATS && React(n, a).node.missed == 0 && out.value.from == id
  {
  }

  lemma MissedMore(acts: seq<Action>, a: Action, n: Node, n': Node, id: string)
    requires MissedOk(acts, n, id)
    requires if a.node == id && Hears(a, id) then n'.missed == 0
             else if Waits(a, id) && n.missed < MAX_MISSED_HEARTBEATS then n'.missed == n.missed + 1
             else n'.missed == n.missed || n'.missed == 0
    ensures MissedOk(acts + [a], n', id)
  {
    var acts' := acts + [a];
    if !Hears(a, id) {
      forall i: nat | MissedOne(acts, i, id) ensures MissedOne(acts', i, id) {}
      forall i: nat, j: nat | MissedTwo(acts, i, j, id) ensures MissedTwo(acts', i, j, id) {}
      if Waits(a, id) {
        assert acts'[|acts|] == a && MissedOne(acts', |acts|, id);
        forall i: nat | MissedOne(acts, i, id) ensures MissedTwo(acts', i, |acts|, id) {}
      }
    }
  }

  lemma {:induction false} RunMisses(c: Cluster, acts: seq<Action>, id: string)
    requires Initial(c) && ValidRun(c, acts) && id in c.nodes
    ensures id in Exec(c, acts).nodes && MissedOk(acts, Exec(c, acts).nodes[id], id)
  {
    if acts != [] {
      var front, a := acts[..|acts| - 1], acts[|acts| - 1];
      LastAction(acts);
      RunKeepsInv(c, front);
      HeartbeatsAreHonest(c, front);
      RunMisses(c, front, id);
      StepMisses(Exec(c, front), front, a, acts, id);
    }
  }

  lemma StepMisses(c: Cluster, acts: seq<Action>, a: Action, acts': seq<Action>, id: string)
    requires Inv(c) && Honest(c.log) && Enabled(c, a) && id in c.nodes && MissedOk(acts, c.nodes[id], id) && acts' == acts + [a]
    ensures id in Apply(c, a).nodes && MissedOk(acts', Apply(c, a).nodes[id], id)
  {
    assert NodeInv(c.nodes[id]);
    if a.node == id { ReactMisses(c.nodes[id], a, id); }
    MissedMore(acts, a, c.nodes[id], Apply(c, a).nodes[id], id);
  }

  /**
   * A node asks for votes only on a timeout outside its cooldown, and only after two earlier
   * timeouts since which it has heard no heartbeat of another node.
   */
  lemma ElectionNeedsSilence(c: Cluster, acts: seq<Action>, a: Action) returns (i: nat, j: nat)
    requires Initial(c) && ValidRun(c, acts) && Enabled(Exec(c, acts), a)
    requires var out := React(Exec(c, acts).nodes[a.node], a).out; out.Some? && out.value.RequestVote?
    ensures Waits(a, a.node) && !a.coolingDown && MissedTwo(acts, i, j, a.node)
  {
    RunKeepsInv(c, acts);
    HeartbeatsAreHonest(c, acts);
    RunMisses(c, acts, a.node);
    var d := Exec(c, acts);
    assert NodeInv(d.nodes[a.node]);
    ReactMisses(d.nodes[a.node], a, a.node);
    i, j :| MissedTwo(acts, i, j, a.node);
  }

  predicate Asks(e: Event, id: string) { e.Sent? && e.msg.RequestVote? && e.msg.from == id }

  function Candidacies(log: seq<Event>, id: string): nat {
    if log == [] then 0 else Candidacies(log[..|log| - 1], id) + if Asks(log[|log| - 1], id) then 1 else 0
  }

  function Timeouts(acts: seq<Action>, id: string): nat {
    if acts == [] then 0 else Timeouts(acts[..|acts| - 1], id) + if Waits(acts[|acts| - 1], id) then 1 else 0
  }

  lemma {:induction false} CandidaciesAdd(log: seq<Event>, more: seq<Event>, id: string)
    ensures Candidacies(log + more, id) == Candidacies(log, id) + Candidacies(more, id)
  {
    if more == [] {
      assert log + more == log;
    } else {
      CandidaciesAdd(log, more[..|more| - 1], id);
      assert (log + more)[..|log + more| - 1] == log + more[..|more| - 1];
    }
  }

  lemma {:induction false} NoneAsks(more: seq<Event>, id: string)
    requires forall e :: e in more ==> !Asks(e, id)
    ensures Candidacies(more, id) == 0
  {
    if more != [] { NoneAsks(more[..|more| - 1], id); }
  }

  lemma EventsAsk(n: Node, r: Reaction, id: string)
    requires r.out.Some? ==> r.out.value.from == n.id
    ensures Candidacies(EventsOf(n, r), id) == if n.id == id && r.out.Some? && r.out.value.RequestVote? then 1 else 0
  {
    var es := EventsOf(n, r);
    if r.out.Some? {
      var front := es[..|es| - 1];
      assert es[|es| - 1] == Sent(r.out.value);
      forall e | e in front ensures !Asks(e, id) {}
      NoneAsks(front, id);
    } else {
      NoneAsks(es, id);
    }
  }

  /** A node stands for election at most once in three of its timeouts. */
  lemma {:induction false} OncePerThreeTimeouts(c: Cluster, acts: seq<Action>, id: string)
    requires Initial(c) && ValidRun(c, acts) && id in c.nodes
    ensures id in Exec(c, acts).nodes
    ensures 3 * Candidacies(Exec(c, acts).log, id) + Exec(c, acts).nodes[id].missed <= Timeouts(acts, id)
  {
    RunKeepsInv(c, acts);
    if acts != [] {
      var front, a := acts[..|acts| - 1], acts[|acts| - 1];
      RunKeepsInv(c, front);
      OncePerThreeTimeouts(c, front, id);
      HeartbeatsAreHonest(c, front);
      StepCounts(Exec(c, front), a, id, Timeouts(front, id));
    }
  }

  lemma StepCounts(c: Cluster, a: Action, id: string, timeouts: nat)
    requires Inv(c) && Honest(c.log) && Enabled(c, a) && id in c.nodes
    requires 3 * Candidacies(c.log, id) + c.nodes[id].missed <= timeouts
    ensures 3 * Candidacies(Apply(c, a).log, id) + Apply(c, a).nodes[id].missed <= timeouts + if Waits(a, id) then 1 else 0
  {
    StepAsks(c, a, id);
    if a.node == id { ReactMisses(c.nodes[id], a, id); }
  }

  lemma StepAsks(c: Cluster, a: Action, id: string)
    requires Inv(c) && Enabled(c, a)
    ensures var out := React(c.nodes[a.node], a).out;
            Candidacies(Apply(c, a).log, id)
            == Candidacies(c.log, id) + if a.node == id && out.Some? && out.value.RequestVote? then 1 else 0
  {
    var n := c.nodes[a.node];
    SenderIsNode(c, a);
    ReactKeepsNode(n, a);
    EventsAsk(n, React(n, a), id);
    CandidaciesAdd(c.log, EventsOf(n, React(n, a)), id);
  }

  // ---------------------------------------------------------------- what the lead takes

  predicate Grants(a: Action, id: string) { a.Deliver? && a.node == id && a.msg.ReplyVote? && a.msg.granted && a.msg.leaderId == id }

  /** How many granted replies to id are delivered to it. */
  function VotesHeard(acts: seq<Action>, id: string): nat {
    if acts == [] then 0 else VotesHeard(acts[..|acts| - 1], id) + if Grants(acts[|acts| - 1], id) then 1 else 0
  }

  /** Since its timeout at i, id has heard at least k votes for itself. */
  ghost predicate HeardSince(acts: seq<Action>, i: nat, id: string, k: int) {
    i < |acts| && Waits(acts[i], id) && k <= VotesHeard(acts[i..], id)
  }

  lemma HeardMore(acts: seq<Action>, a: Action, i: nat, id: string, k: int)
    requires HeardSince(acts, i, id, k)
    ensures HeardSince(acts + [a], i, id, if Grants(a, id) then k + 1 else k)
  {
    assert (acts + [a])[i..] == acts[i..] + [a];
    assert (acts[i..] + [a])[..|acts[i..]|] == acts[i..];
  }

  /** How a node comes by its candidacy and its votes. */
  lemma ReactVotes(n: Node, a: Action)
    requires n.id == a.node
    ensures var n' := React(n, a).node;
            && (n'.role == Candidate && !(Waits(a, a.node) && n'.votes == 0) ==>
                  n.role == Candidate && n'.votes <= n.votes + if Grants(a, n.id) then 1 else 0)
            && (WinsIn(n, React(n, a)) ==>
                  n.role == Candidate && Grants(a, n.id) && n.votes + 1 >= (a.peers + 1) / 2)
  {
  }

  lemma {:induction false} CandidateHasVotes(c: Cluster, acts: seq<Action>, id: string)
    requires Initial(c) && ValidRun(c, acts) && id in c.nodes
    ensures id in Exec(c, acts).nodes
    ensures Exec(c, acts).nodes[id].role == Candidate ==>
              exists i: nat :: HeardSince(acts, i, id, Exec(c, acts).nodes[id].votes)
  {
    RunKeepsInv(c, acts);
    if acts != [] {
      var front, a := acts[..|acts| - 1], acts[|acts| - 1];
      RunKeepsInv(c, front);
      LastAction(acts);
      CandidateHasVotes(c, front, id);
      StepHasVotes(Exec(c, front), front, a, acts, id);
    }
  }

  lemma StepHasVotes(c: Cluster, acts: seq<Action>, a: Action, acts': seq<Action>, id: string)
    requires Inv(c) && Enabled(c, a) && id in c.nodes && acts' == acts + [a]
    requires c.nodes[id].role == Candidate ==> exists i: nat :: HeardSince(acts, i, id, c.nodes[id].votes)
    ensures id in Apply(c, a).nodes
    ensures Apply(c, a).nodes[id].role == Candidate ==>
              exists i: nat :: HeardSince(acts', i, id, Apply(c, a).nodes[id].votes)
  {
    var n, votes := c.nodes[id], Apply(c, a).nodes[id].votes;
    if a.node == id { ReactVotes(n, a); }
    if Apply(c, a).nodes[id].role != Candidate {
    } else if Waits(a, id) && votes == 0 {
      assert acts'[|acts|] == a && HeardSince(acts', |acts|, id, 0);
    } else {
      var i: nat :| HeardSince(acts, i, id, n.votes);
      HeardMore(acts, a, i, id, n.votes);
      assert HeardSince(acts', i, id, votes);
    }
  }

  /**
   * A node gains the lead only on a granted reply to itself, and only when it has heard at
   * least (peers+1)/2 of them since a timeout of its own.
   */
  lemma LeadNeedsVotes(c: Cluster, acts: seq<Action>, a: Action) returns (i: nat)
    requires Initial(c) && ValidRun(c, acts) && Enabled(Exec(c, acts), a)
    requires WinsIn(Exec(c, acts).nodes[a.node], React(Exec(c, acts).nodes[a.node], a))
    ensures Grants(a, a.node) && HeardSince(acts + [a], i, a.node, Max(1, (a.peers + 1) / 2))
  {
    RunKeepsInv(c, acts);
    var n := Exec(c, acts).nodes[a.node];
    ReactVotes(n, a);
    CandidateHasVotes(c, acts, a.node);
    i :| HeardSince(acts, i, a.node, n.votes);
    HeardMore(acts, a, i, a.node, n.votes);
  }
}
