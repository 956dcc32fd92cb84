/**
 * Elections succeed: from every reachable state without a leader, a node of the greatest term
 * comes to lead on the votes of half the cluster's other nodes, each counted once.
 */
module RaftElection {
  import opened Raft
  import opened RaftCluster
  import opened RaftSafety
  import opened RaftVotes
  import opened RaftTwoLeaders

  /** Who sent the vote replies that are delivered, in order. */
  function Replies(acts: seq<Action>): seq<string> {
    if acts == [] then []
    else
      var a := acts[|acts| - 1];
      Replies(acts[..|acts| - 1]) + if a.Deliver? && a.msg.ReplyVote? then [a.msg.from] else []
  }

  lemma RepliesMore(acts: seq<Action>, a: Action)
    ensures Replies(acts + [a]) == Replies(acts) + if a.Deliver? && a.msg.ReplyVote? then [a.msg.from] else []
  {
    assert (acts + [a])[..|acts|] == acts;
  }

  /** x stands in `term` with `votes` votes and has asked for more. */
  ghost predicate Stands(c: Cluster, x: string, term: int, votes: nat) {
    && x in c.nodes && c.nodes[x].id == x && c.nodes[x].role == Candidate && c.nodes[x].term == term && c.nodes[x].votes == votes
    && Sent(RequestVote(x, term)) in c.log
  }

  /** y will vote for a candidate of `term`. */
  ghost predicate Open(c: Cluster, y: string, term: int) {
    y in c.nodes && c.nodes[y].id == y && c.nodes[y].role != Leader && c.nodes[y].term < term
  }

  /** Timeouts until x stands. */
  lemma {:induction false} ComesToStand(run: Trace, acts: seq<Action>, c: Cluster, x: string, peers: nat)
    returns (acts': seq<Action>, c': Cluster)
    requires Continues(run, peers) && run(acts, c) && x in c.nodes && c.nodes[x].id == x && c.nodes[x].missed <= MAX_MISSED_HEARTBEATS
    ensures run(acts', c') && OnlyAt(c, c', x) && Stands(c', x, c.nodes[x].term + 1, 0) && Replies(acts') == Replies(acts)
    decreases MAX_MISSED_HEARTBEATS - c.nodes[x].missed
  {
    var a := ElectionTimeout(x, false);
    Step(run, acts, c, a, peers);
    RepliesMore(acts, a);
    acts', c' := acts + [a], Apply(c, a);
    if c.nodes[x].missed < MAX_MISSED_HEARTBEATS {
      acts', c' := ComesToStand(run, acts', c', x, peers);
    } else {
      assert c'.log[|c'.log| - 1] == Sent(RequestVote(x, c.nodes[x].term + 1));
    }
  }

  /** y gets the request and grants it. */
  lemma GetsVote(run: Trace, acts: seq<Action>, c: Cluster, x: string, y: string, term: int, peers: nat)
    returns (acts': seq<Action>, c': Cluster)
    requires Continues(run, peers) && run(acts, c) && y != x && Open(c, y, term) && Sent(RequestVote(x, term)) in c.log
    ensures run(acts', c') && OnlyAt(c, c', y) && Replies(acts') == Replies(acts) && c.log <= c'.log
    ensures Sent(ReplyVote(y, true, x)) in c'.log && Voted(y, term, x) in c'.log
  {
    var a := Deliver(y, RequestVote(x, term), peers);
    Step(run, acts, c, a, peers);
    RepliesMore(acts, a);
    VoteEffect(c, x, y, term, peers);
    acts', c' := acts + [a], Apply(c, a);
    assert c'.log[|c.log|] == Voted(y, term, x) && c'.log[|c.log| + 1] == Sent(ReplyVote(y, true, x));
  }

  lemma VoteEffect(c: Cluster, x: string, y: string, term: int, peers: nat)
    requires Open(c, y, term) && Sent(RequestVote(x, term)) in c.log
    ensures var c' := Apply(c, Deliver(y, RequestVote(x, term), peers));
            OnlyAt(c, c', y) && c'.log == c.log + [Voted(y, term, x), Sent(ReplyVote(y, true, x))]
  {
    var n := c.nodes[y];
    ReplyEvents(n, OnRequestVote(n, x, term), true, x, term);
  }

  /** The reply is delivered: a vote more, or the lead. */
  lemma CountsVote(run: Trace, acts: seq<Action>, c: Cluster, x: string, y: string, term: int, votes: nat, peers: nat)
    returns (acts': seq<Action>, c': Cluster)
    requires Continues(run, peers) && run(acts, c) && Stands(c, x, term, votes) && Sent(ReplyVote(y, true, x)) in c.log
    ensures run(acts', c') && OnlyAt(c, c', x) && Replies(acts') == Replies(acts) + [y] && c.log <= c'.log
    ensures if votes + 1 >= (peers + 1) / 2 then IsLeader(c', x) else Stands(c', x, term, votes + 1)
  {
    var a := Deliver(x, ReplyVote(y, true, x), peers);
    Step(run, acts, c, a, peers);
    RepliesMore(acts, a);
    acts', c' := acts + [a], Apply(c, a);
  }

  ghost predicate Distinct(ys: seq<string>) {
    forall i, j :: 0 <= i < j < |ys| ==> ys[i] != ys[j]
  }

  ghost predicate AllOpen(c: Cluster, ys: seq<string>, x: string, term: int) {
    forall i :: 0 <= i < |ys| ==> ys[i] != x && Open(c, ys[i], term)
  }

  /** The first of ys votes and is counted. */
  lemma OneVoteMore(run: Trace, acts: seq<Action>, c: Cluster, x: string, ys: seq<string>, term: int, votes: nat, peers: nat)
    returns (acts': seq<Action>, c': Cluster)
    requires Continues(run, peers) && run(acts, c) && Stands(c, x, term, votes) && ys != [] && Distinct(ys) && AllOpen(c, ys, x, term)
    ensures run(acts', c') && c'.nodes.Keys == c.nodes.Keys && Replies(acts') == Replies(acts) + [ys[0]]
    ensures c.log <= c'.log && Voted(ys[0], term, x) in c'.log && AllOpen(c', ys[1..], x, term)
    ensures if votes + 1 >= (peers + 1) / 2 then IsLeader(c', x) else Stands(c', x, term, votes + 1)
  {
    var acts1, c1 := GetsVote(run, acts, c, x, ys[0], term, peers);
    acts', c' := CountsVote(run, acts1, c1, x, ys[0], term, votes, peers);
    forall i | 0 <= i < |ys[1..]| ensures ys[1..][i] != x && Open(c', ys[1..][i], term) {
      assert ys[1..][i] == ys[i + 1] && ys[i + 1] != ys[0] && Open(c, ys[i + 1], term);
    }
  }

  lemma {:induction false} CollectsVotes(run: Trace, acts: seq<Action>, c: Cluster, x: string, ys: seq<string>, term: int,
                                         votes: nat, peers: nat)
    returns (acts': seq<Action>, c': Cluster)
    requires Continues(run, peers) && run(acts, c) && Stands(c, x, term, votes) && Distinct(ys) && AllOpen(c, ys, x, term)
    requires |ys| >= 1 && votes + |ys| == (peers + 1) / 2
    ensures run(acts', c') && IsLeader(c', x) && Replies(acts') == Replies(acts) + ys && c.log <= c'.log
    ensures forall y :: y in ys ==> Voted(y, term, x) in c'.log
    decreases |ys|
  {
    var acts1, c1 := OneVoteMore(run, acts, c, x, ys, term, votes, peers);
    acts', c' := acts1, c1;
    assert ys == [ys[0]] + ys[1..];
    if |ys| > 1 {
      acts', c' := CollectsVotes(run, acts1, c1, x, ys[1..], term, votes + 1, peers);
      assert c'.log[..|c1.log|] == c1.log;
    }
  }

  lemma Elects(run: Trace, c: Cluster, x: string, ys: seq<string>, peers: nat) returns (acts: seq<Action>, c': Cluster)
    requires Continues(run, peers) && run([], c) && x in c.nodes && c.nodes[x].id == x && c.nodes[x].missed <= MAX_MISSED_HEARTBEATS
    requires Distinct(ys) && AllOpen(c, ys, x, c.nodes[x].term + 1) && 1 <= |ys| == (peers + 1) / 2
    ensures run(acts, c') && IsLeader(c', x) && Replies(acts) == ys
    ensures forall y :: y in ys ==> Voted(y, c.nodes[x].term + 1, x) in c'.log
  {
    var acts1, c1 := ComesToStand(run, [], c, x, peers);
    forall i | 0 <= i < |ys| ensures ys[i] != x && Open(c1, ys[i], c.nodes[x].term + 1) {
      assert Open(c, ys[i], c.nodes[x].term + 1);
    }
    acts, c' := CollectsVotes(run, acts1, c1, x, ys, c.nodes[x].term + 1, 0, peers);
  }

  /** No node leads, and none has a greater term than x. */
  ghost predicate Foremost(c: Cluster, x: string) {
    x in c.nodes && forall y :: y in c.nodes ==> c.nodes[y].role != Leader && c.nodes[y].term <= c.nodes[x].term
  }

  /** The run goes on to x in the lead, with the votes of ys for its next term and only their replies delivered. */
  ghost predicate ElectedOn(d: Cluster, more: seq<Action>, x: string, ys: seq<string>) {
    && ValidRun(d, more) && AllCount(more, |d.nodes.Keys| - 1) && Replies(more) == ys && IsLeader(Exec(d, more), x)
    && x in d.nodes && forall y :: y in ys ==> Voted(y, d.nodes[x].term + 1, x) in Exec(d, more).log
  }

  /**
   * From every reachable state without a leader, a node of the greatest term comes to lead on
   * the votes of any half (rounded down) of the cluster's nodes, itself not among them: each
   * votes for it in its next term, and each reply is counted once. Every node counts all
   * others as peers.
   */
  lemma ElectedByOthers(c: Cluster, acts: seq<Action>, x: string, ys: seq<string>) returns (more: seq<Action>)
    requires Initial(c) && ValidRun(c, acts) && Foremost(Exec(c, acts), x)
    requires Distinct(ys) && x !in ys && (forall y :: y in ys ==> y in c.nodes) && 1 <= |ys| == |c.nodes.Keys| / 2
    ensures ElectedOn(Exec(c, acts), more, x, ys)
  {
    RunKeepsInv(c, acts);
    RunMisses(c, acts, x);
    more := ForemostElected(Exec(c, acts), x, ys);
  }

  lemma ForemostElected(d: Cluster, x: string, ys: seq<string>) returns (more: seq<Action>)
    requires Inv(d) && Foremost(d, x) && d.nodes[x].missed <= MAX_MISSED_HEARTBEATS
    requires Distinct(ys) && x !in ys && (forall y :: y in ys ==> y in d.nodes) && 1 <= |ys| == |d.nodes.Keys| / 2
    ensures ElectedOn(d, more, x, ys)
  {
    var peers := |d.nodes.Keys| - 1;
    TracesAreClosed(d, peers);
    OthersAreOpen(d, x, ys);
    var d';
    more, d' := Elects(TracesFrom(d, peers), d, x, ys, peers);
  }

  lemma OthersAreOpen(d: Cluster, x: string, ys: seq<string>)
    requires Inv(d) && Foremost(d, x) && x !in ys && forall y :: y in ys ==> y in d.nodes
    ensures AllOpen(d, ys, x, d.nodes[x].term + 1)
  {
    forall i | 0 <= i < |ys| ensures ys[i] != x && Open(d, ys[i], d.nodes[x].term + 1) {
      assert ys[i] in ys;
    }
  }

  lemma {:induction false} SomeForemost(c: Cluster, ids: set<string>) returns (x: string)
    requires ids != {} && ids <= c.nodes.Keys
    ensures x in ids && forall y :: y in ids ==> c.nodes[y].term <= c.nodes[x].term
    decreases ids
  {
    x :| x in ids;
    if ids != {x} {
      var z := SomeForemost(c, ids - {x});
      if c.nodes[x].term < c.nodes[z].term { x := z; }
    }
  }

  lemma {:induction false} SomeOthers(ids: set<string>, n: nat) returns (ys: seq<string>)
    requires n <= |ids|
    ensures |ys| == n && Distinct(ys) && forall y :: y in ys ==> y in ids
    decreases n
  {
    ys := [];
    if n > 0 {
      var x :| x in ids;
      assert |ids - {x}| == |ids| - 1;
      var rest := SomeOthers(ids - {x}, n - 1);
      ys := [x] + rest;
    }
  }

  /** A cluster of at least two nodes is never stuck: every run without a leader goes on to one. */
  lemma EveryRunCanElect(c: Cluster, acts: seq<Action>) returns (more: seq<Action>, x: string)
    requires Initial(c) && ValidRun(c, acts) && |c.nodes.Keys| >= 2
    requires forall y :: y in Exec(c, acts).nodes ==> Exec(c, acts).nodes[y].role != Leader
    ensures ValidRun(Exec(c, acts), more) && AllCount(more, |c.nodes.Keys| - 1) && IsLeader(Exec(Exec(c, acts), more), x)
  {
    RunKeepsInv(c, acts);
    x := SomeForemost(Exec(c, acts), c.nodes.Keys);
    assert |c.nodes.Keys - {x}| == |c.nodes.Keys| - 1;
    var ys := SomeOthers(c.nodes.Keys - {x}, |c.nodes.Keys| / 2);
    more := ElectedByOthers(c, acts, x, ys);
  }
}
