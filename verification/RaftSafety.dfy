/** What every run of the cluster keeps: one vote per term, consistent roles, terms that never fall. */
module RaftSafety {
  import opened Wrappers
  import opened Raft
  import opened RaftCluster

  ghost predicate NodeInv(n: Node) {
    && n.id != ""
    && (n.role == Leader ==> n.leaderId == n.id && n.resign.Some?)
    && (n.role == Candidate ==> n.votedFor == n.id)
    && (n.resign.Some? ==> n.resign.value < n.channels)
  }

  /** What an event says about a node never outruns the node's state. */
  ghost predicate Told(c: Cluster, e: Event) {
    match e
    case Voted(id, t, x) =>
      id in c.nodes && x != "" && t <= c.nodes[id].term && (t == c.nodes[id].term ==> x == c.nodes[id].votedFor)
    case Elected(id, t) => id in c.nodes && t <= c.nodes[id].term
    case Closed(id, ch) => id in c.nodes && ch < c.nodes[id].channels && c.nodes[id].resign != Some(ch)
    case Sent(m) => m.from in c.nodes
  }

  ghost predicate HistoryInv(c: Cluster) {
    forall e :: e in c.log ==> Told(c, e)
  }

  /** No node votes for two candidates in one term. */
  ghost predicate OneVote(log: seq<Event>) {
    forall id, t, x, y :: Voted(id, t, x) in log && Voted(id, t, y) in log ==> x == y
  }

  /** The events at i and j are not the same election or the same close. */
  ghost predicate NoRepeat(log: seq<Event>) {
    forall i, j :: 0 <= i < j < |log| && (log[i].Elected? || log[i].Closed?) ==> log[i] != log[j]
  }

  ghost predicate Inv(c: Cluster) {
    && (forall id :: id in c.nodes ==> c.nodes[id].id == id && NodeInv(c.nodes[id]))
    && (forall id :: IsLeader(c, id) ==> id in c.loops)
    && HistoryInv(c) && OneVote(c.log) && NoRepeat(c.log)
  }

  /** One reaction, seen from the node alone. */
  lemma ReactKeepsNode(n: Node, a: Action)
    requires NodeInv(n) && (a.Deliver? ==> a.msg.from != "")
    ensures var r := React(n, a);
            && NodeInv(r.node) && r.node.id == n.id && n.term <= r.node.term && n.channels <= r.node.channels
            && (r.node.term == n.term && n.votedFor != "" ==> r.node.votedFor == n.votedFor)
            && (WinsIn(n, r) ==> n.term < r.node.term)
            && (r.closed.Some? ==> r.closed == n.resign && r.node.resign.None? && r.node.role != Leader)
            && (r.node.resign.Some? ==> r.node.resign == n.resign || r.node.resign == Some(n.channels))
            && (r.node.resign == Some(n.channels) ==> r.node.channels == n.channels + 1)
            && (VoteIn(r).Some? ==>
                  VoteIn(r).value == Voted(n.id, r.node.term, r.node.votedFor) && r.node.votedFor != "")
            && (r.out.Some? ==> r.out.value.from == n.id)
            && (WinsIn(n, r) || r.closed.Some? ==> r.out.None?) && !(WinsIn(n, r) && r.closed.Some?)
  {
  }

  lemma InEvents(n: Node, r: Reaction, e: Event)
    requires e in EventsOf(n, r)
    ensures e.Voted? ==> VoteIn(r) == Some(e)
    ensures e.Elected? ==> WinsIn(n, r) && e == Elected(n.id, r.node.term)
    ensures e.Closed? ==> r.closed == Some(e.channel) && e.node == n.id
    ensures e.Sent? ==> r.out == Some(e.msg)
  {
  }

  /** Every event a step adds tells the state the step leads to. */
  lemma AddedEvents(c: Cluster, a: Action, e: Event)
    requires Inv(c) && Enabled(c, a) && e in Apply(c, a).log && e !in c.log
    ensures Told(Apply(c, a), e)
    ensures e.Voted? ==> e.node == a.node && e.term == Apply(c, a).nodes[a.node].term
  {
    var n := c.nodes[a.node];
    SenderIsNode(c, a);
    ReactKeepsNode(n, a);
    InEvents(n, React(n, a), e);
  }

  lemma SenderIsNode(c: Cluster, a: Action)
    requires Inv(c) && Enabled(c, a)
    ensures a.Deliver? ==> a.msg.from != ""
  {
    if a.Deliver? {
      assert Told(c, Sent(a.msg));
      assert NodeInv(c.nodes[a.msg.from]);
    }
  }

  lemma StepKeepsTold(c: Cluster, a: Action, e: Event)
    requires Inv(c) && Enabled(c, a) && e in c.log
    ensures Told(Apply(c, a), e)
  {
    assert Told(c, e);
    SenderIsNode(c, a);
    ReactKeepsNode(c.nodes[a.node], a);
  }

  lemma StepKeepsHistory(c: Cluster, a: Action)
    requires Inv(c) && Enabled(c, a)
    ensures HistoryInv(Apply(c, a))
  {
    forall e | e in Apply(c, a).log ensures Told(Apply(c, a), e) {
      if e in c.log { StepKeepsTold(c, a, e); } else { AddedEvents(c, a, e); }
    }
  }

  lemma StepKeepsOneVote(c: Cluster, a: Action)
    requires Inv(c) && Enabled(c, a) && HistoryInv(Apply(c, a))
    ensures OneVote(Apply(c, a).log)
  {
    var c' := Apply(c, a);
    forall id, t, x, y | Voted(id, t, x) in c'.log && Voted(id, t, y) in c'.log ensures x == y {
      assert Told(c', Voted(id, t, x)) && Told(c', Voted(id, t, y));
      if Voted(id, t, x) !in c.log {
        AddedEvents(c, a, Voted(id, t, x));
      } else if Voted(id, t, y) !in c.log {
        AddedEvents(c, a, Voted(id, t, y));
      }
    }
  }

  lemma StepKeepsNoRepeat(c: Cluster, a: Action)
    requires Inv(c) && Enabled(c, a)
    ensures NoRepeat(Apply(c, a).log)
  {
    var n := c.nodes[a.node];
    var r := React(n, a);
    var added := EventsOf(n, r);
    SenderIsNode(c, a);
    ReactKeepsNode(n, a);
    forall e | e in added && (e.Elected? || e.Closed?) ensures e !in c.log {
      InEvents(n, r, e);
      assert e in c.log ==> Told(c, e);
    }
    assert WinsIn(n, r) || r.closed.Some? ==> |added| == 1;
    forall i, j | 0 <= i < j < |c.log + added| && ((c.log + added)[i].Elected? || (c.log + added)[i].Closed?)
      ensures (c.log + added)[i] != (c.log + added)[j]
    {
      if i >= |c.log| {
        InEvents(n, r, (c.log + added)[i]);
      } else if j >= |c.log| {
        assert (c.log + added)[i] in c.log && (c.log + added)[j] in added;
      }
    }
  }

  lemma StepKeepsInv(c: Cluster, a: Action)
    requires Inv(c) && Enabled(c, a)
    ensures Inv(Apply(c, a)) && Apply(c, a).nodes.Keys == c.nodes.Keys
  {
    StepKeepsHistory(c, a);
    StepKeepsOneVote(c, a);
    StepKeepsNoRepeat(c, a);
    SenderIsNode(c, a);
    ReactKeepsNode(c.nodes[a.node], a);
  }

  lemma {:induction false} RunKeepsInv(c: Cluster, acts: seq<Action>)
    requires Initial(c) && ValidRun(c, acts)
    ensures Inv(Exec(c, acts)) && Exec(c, acts).nodes.Keys == c.nodes.Keys
  {
    if acts != [] {
      RunKeepsInv(c, acts[..|acts| - 1]);
      StepKeepsInv(Exec(c, acts[..|acts| - 1]), acts[|acts| - 1]);
    }
  }

  /** One vote per term, over every run. */
  lemma OneVotePerTerm(c: Cluster, acts: seq<Action>, id: string, t: int, x: string, y: string)
    requires Initial(c) && ValidRun(c, acts)
    requires Voted(id, t, x) in Exec(c, acts).log && Voted(id, t, y) in Exec(c, acts).log
    ensures x == y
  {
    RunKeepsInv(c, acts);
  }

  /**
   * In every reachable state a leader names itself, has an open resign channel and a running
   * leader loop, and a candidate has voted for itself.
   */
  lemma RolesAreConsistent(c: Cluster, acts: seq<Action>, id: string)
    requires Initial(c) && ValidRun(c, acts) && id in Exec(c, acts).nodes
    ensures var n := Exec(c, acts).nodes[id];
            && (n.role == Leader ==> n.leaderId == id && n.resign.Some? && Closed(id, n.resign.value) !in Exec(c, acts).log
                                     && id in Exec(c, acts).loops)
            && (n.role == Candidate ==> n.votedFor == id)
  {
    RunKeepsInv(c, acts);
    var d := Exec(c, acts);
    assert NodeInv(d.nodes[id]);
    assert d.nodes[id].resign.Some? && Closed(id, d.nodes[id].resign.value) in d.log ==> Told(d, Closed(id, d.nodes[id].resign.value));
  }

  /** Over every run no resign channel is closed twice and no node is elected twice in a term. */
  lemma NeverTwice(c: Cluster, acts: seq<Action>, i: nat, j: nat)
    requires Initial(c) && ValidRun(c, acts) && i < j < |Exec(c, acts).log|
    requires Exec(c, acts).log[i].Elected? || Exec(c, acts).log[i].Closed?
    ensures Exec(c, acts).log[i] != Exec(c, acts).log[j]
  {
    RunKeepsInv(c, acts);
  }

  lemma StepKeepsTerms(c: Cluster, a: Action, id: string)
    requires Inv(c) && Enabled(c, a) && id in c.nodes
    ensures c.nodes[id].term <= Apply(c, a).nodes[id].term
  {
    SenderIsNode(c, a);
    ReactKeepsNode(c.nodes[a.node], a);
  }

  /** Terms never fall, from any reachable state on. */
  lemma {:induction false} TermsNeverFall(c: Cluster, acts: seq<Action>, k: nat, id: string)
    requires Initial(c) && ValidRun(c, acts) && k <= |acts| && id in c.nodes
    ensures ValidRun(c, acts[..k]) && id in Exec(c, acts[..k]).nodes && id in Exec(c, acts).nodes
    ensures Exec(c, acts[..k]).nodes[id].term <= Exec(c, acts).nodes[id].term
  {
    RunKeepsInv(c, acts);
    if k == |acts| {
      assert acts[..k] == acts;
    } else {
      var front, last := acts[..|acts| - 1], acts[|acts| - 1];
      assert front[..k] == acts[..k];
      TermsNeverFall(c, front, k, id);
      RunKeepsInv(c, front);
      StepKeepsTerms(Exec(c, front), last, id);
    }
  }
}
