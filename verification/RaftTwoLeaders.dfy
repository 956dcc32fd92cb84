/**
 * Two leaders in one term: a vote reply carries no term, is counted whoever sent it, and the
 * threshold is (peers+1)/2, so any node elects itself on its own reply, delivered often
 * enough. A cluster can have two leaders of one term exactly when it has two nodes.
 */
module RaftTwoLeaders {
  import opened Raft
  import opened RaftCluster
  import opened RaftSafety

  /** A step at one node leaves the others alone. */
  ghost predicate OnlyAt(c: Cluster, c': Cluster, id: string) {
    c'.nodes.Keys == c.nodes.Keys && forall x :: x in c.nodes && x != id ==> c'.nodes[x] == c.nodes[x]
  }

  lemma TimesOut(run: Trace, acts: seq<Action>, c: Cluster, id: string, peers: int)
    returns (acts': seq<Action>, c': Cluster)
    requires Continues(run, peers) && run(acts, c) && id in c.nodes && c.nodes[id].id == id
    ensures run(acts', c') && OnlyAt(c, c', id)
    ensures c'.nodes[id] == OnElectionTimeout(c.nodes[id], false).node
    ensures c.nodes[id].missed >= MAX_MISSED_HEARTBEATS ==> Sent(RequestVote(id, c.nodes[id].term + 1)) in c'.log
  {
    var a := ElectionTimeout(id, false);
    Step(run, acts, c, a, peers);
    acts', c' := acts + [a], Apply(c, a);
    if c.nodes[id].missed >= MAX_MISSED_HEARTBEATS {
      assert c'.log[|c'.log| - 1] == Sent(RequestVote(id, c.nodes[id].term + 1));
    }
  }

  function Standing(id: string, votes: nat): Node {
    NewNode(id).(role := Candidate, term := 1, votedFor := id, votes := votes)
  }

  lemma StandsForElection(run: Trace, acts: seq<Action>, c: Cluster, id: string, peers: int)
    returns (acts': seq<Action>, c': Cluster)
    requires Continues(run, peers) && run(acts, c) && id in c.nodes && c.nodes[id] == NewNode(id)
    ensures run(acts', c') && OnlyAt(c, c', id)
    ensures c'.nodes[id] == Standing(id, 0) && Sent(RequestVote(id, 1)) in c'.log
  {
    acts', c' := TimesOut(run, acts, c, id, peers);
    acts', c' := TimesOut(run, acts', c', id, peers);
    acts', c' := TimesOut(run, acts', c', id, peers);
  }

  /** A candidate grants its own request. */
  lemma VotesForItself(run: Trace, acts: seq<Action>, c: Cluster, id: string, peers: nat)
    returns (acts': seq<Action>, c': Cluster)
    requires Continues(run, peers) && run(acts, c) && id in c.nodes && Sent(RequestVote(id, 1)) in c.log && c.nodes[id] == Standing(id, 0)
    ensures run(acts', c') && OnlyAt(c, c', id) && c'.nodes[id] == c.nodes[id]
    ensures Sent(ReplyVote(id, true, id)) in c'.log
  {
    var a := Deliver(id, RequestVote(id, 1), peers);
    Step(run, acts, c, a, peers);
    acts', c' := acts + [a], Apply(c, a);
    assert c'.log[|c'.log| - 1] == Sent(ReplyVote(id, true, id));
  }

  /** One delivery of the reply: a vote more, or the lead. */
  lemma CountsOne(run: Trace, acts: seq<Action>, c: Cluster, id: string, peers: nat, votes: nat)
    returns (acts': seq<Action>, c': Cluster)
    requires Continues(run, peers) && run(acts, c) && id in c.nodes && Sent(ReplyVote(id, true, id)) in c.log
    requires c.nodes[id] == Standing(id, votes)
    ensures run(acts', c') && OnlyAt(c, c', id) && Sent(ReplyVote(id, true, id)) in c'.log
    ensures if votes + 1 >= (peers + 1) / 2 then c'.nodes[id].role == Leader && c'.nodes[id].term == 2
            else c'.nodes[id] == Standing(id, votes + 1)
  {
    var a := Deliver(id, ReplyVote(id, true, id), peers);
    Step(run, acts, c, a, peers);
    acts', c' := acts + [a], Apply(c, a);
  }

  /** The same reply delivered again and again reaches any threshold. */
  lemma {:induction false} CountsItsVotes(run: Trace, acts: seq<Action>, c: Cluster, id: string, peers: nat, votes: nat)
    returns (acts': seq<Action>, c': Cluster)
    requires Continues(run, peers) && run(acts, c) && id in c.nodes && Sent(ReplyVote(id, true, id)) in c.log
    requires c.nodes[id] == Standing(id, votes)
    ensures run(acts', c') && OnlyAt(c, c', id) && c'.nodes[id].role == Leader && c'.nodes[id].term == 2
    decreases peers - votes
  {
    acts', c' := CountsOne(run, acts, c, id, peers, votes);
    if votes + 1 < (peers + 1) / 2 {
      acts', c' := CountsItsVotes(run, acts', c', id, peers, votes + 1);
    }
  }

  /** A new node elects itself, hearing only itself, with any number of peers. */
  lemma ElectsItself(run: Trace, acts: seq<Action>, c: Cluster, id: string, peers: nat)
    returns (acts': seq<Action>, c': Cluster)
    requires Continues(run, peers) && run(acts, c) && id in c.nodes && c.nodes[id] == NewNode(id)
    ensures run(acts', c') && OnlyAt(c, c', id)
    ensures c'.nodes[id].role == Leader && c'.nodes[id].term == 2
  {
    acts', c' := StandsForElection(run, acts, c, id, peers);
    acts', c' := VotesForItself(run, acts', c', id, peers);
    acts', c' := CountsItsVotes(run, acts', c', id, peers, 0);
  }

  ghost predicate LeadTogether(c: Cluster, x: string, y: string) {
    x != y && IsLeader(c, x) && IsLeader(c, y) && c.nodes[x].term == c.nodes[y].term
  }

  /** The run starts at c, every node counts all others as peers, and two leaders share a term at its end. */
  ghost predicate ElectsTwo(c: Cluster, acts: seq<Action>) {
    ValidRun(c, acts) && AllCount(acts, |c.nodes.Keys| - 1) && exists x, y :: LeadTogether(Exec(c, acts), x, y)
  }

  lemma ElectBoth(run: Trace, c: Cluster, x: string, y: string, peers: nat) returns (acts: seq<Action>, c': Cluster)
    requires Continues(run, peers) && run([], c) && Initial(c) && x in c.nodes && y in c.nodes && x != y
    ensures run(acts, c') && LeadTogether(c', x, y)
  {
    var acts1, c1 := ElectsItself(run, [], c, x, peers);
    acts, c' := ElectsItself(run, acts1, c1, y, peers);
  }

  /** Any two nodes of any cluster can become leaders of one term. */
  lemma AnyTwoCanLead(c: Cluster, x: string, y: string) returns (acts: seq<Action>)
    requires Initial(c) && x in c.nodes && y in c.nodes && x != y
    ensures ElectsTwo(c, acts) && LeadTogether(Exec(c, acts), x, y)
  {
    assert c.nodes.Keys != {};
    var peers: nat := |c.nodes.Keys| - 1;
    TracesAreClosed(c, peers);
    var c';
    acts, c' := ElectBoth(TracesFrom(c, peers), c, x, y, peers);
  }

  lemma TwoElements(s: set<string>, x: string, y: string)
    requires x in s && y in s && x != y
    ensures |s| >= 2
  {
    assert |s| == |s - {x}| + 1 && |s - {x}| == |s - {x} - {y}| + 1;
  }

  /**
   * A cluster can come to two leaders of one term if and only if it has at least two nodes,
   * with every node counting all others as its peers.
   */
  lemma TwoLeadersOneTerm(c: Cluster)
    requires Initial(c)
    ensures (exists acts :: ElectsTwo(c, acts)) <==> |c.nodes.Keys| >= 2
  {
    if acts :| ElectsTwo(c, acts) {
      RunKeepsInv(c, acts);
      var x, y :| LeadTogether(Exec(c, acts), x, y);
      TwoElements(c.nodes.Keys, x, y);
    }
    if |c.nodes.Keys| >= 2 {
      var x :| x in c.nodes.Keys;
      assert |c.nodes.Keys - {x}| == |c.nodes.Keys| - 1;
      var y :| y in c.nodes.Keys - {x};
      var acts := AnyTwoCanLead(c, x, y);
    }
  }
}
