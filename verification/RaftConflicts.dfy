/**
 * Conflicting leaders: heartbeats of current leaders, ordered by term and then host id,
 * leave the greatest leader alone; and from every reachable state with a leader the cluster
 * can settle on one.
 */
module RaftConflicts {
  import opened Raft
  import opened RaftCluster
  import opened RaftSafety

  lemma {:induction false} LessTotal(a: string, b: string)
    ensures a == b || Less(a, b) || Less(b, a)
    ensures !(Less(a, b) && Less(b, a)) && !Less(a, a)
  {
    if a != [] && b != [] {
      LessTotal(a[1..], b[1..]);
      LessTotal(a[1..], a[1..]);
      assert a == [a[0]] + a[1..] && b == [b[0]] + b[1..];
    } else if a != [] {
      LessTotal(a[1..], a[1..]);
    }
  }

  /** Leaders are ordered by term, then by host id. */
  predicate Below(n: Node, m: Node) {
    n.term < m.term || (n.term == m.term && Less(n.id, m.id))
  }

  ghost predicate WellFormed(c: Cluster) {
    forall id :: id in c.nodes ==> c.nodes[id].id == id && NodeInv(c.nodes[id])
  }

  /** `id` receives the heartbeat `from` would publish now. */
  function Hears(c: Cluster, id: string, from: string): Cluster
    requires id in c.nodes && from in c.nodes
  {
    var n := c.nodes[from];
    c.(nodes := c.nodes[id := OnHeartbeat(c.nodes[id], from, n.id, n.term).node])
  }

  ghost predicate Greatest(c: Cluster, g: string) {
    IsLeader(c, g) && forall id :: IsLeader(c, id) && id != g ==> Below(c.nodes[id], c.nodes[g])
  }

  /**
   * A leader that hears another current leader stays one exactly when the other is below it;
   * nobody else's role, term or name changes, and no heartbeat makes a leader.
   */
  lemma HeartbeatSettles(c: Cluster, id: string, from: string)
    requires WellFormed(c) && id in c.nodes && IsLeader(c, from)
    ensures WellFormed(Hears(c, id, from))
    ensures IsLeader(c, id) && id != from ==> (IsLeader(Hears(c, id, from), id) <==> Below(c.nodes[from], c.nodes[id]))
    ensures forall x :: IsLeader(Hears(c, id, from), x) ==> IsLeader(c, x) && Hears(c, id, from).nodes[x].term == c.nodes[x].term
    ensures forall x :: x in c.nodes && (x != id || id == from) ==> Hears(c, id, from).nodes[x] == c.nodes[x]
  {
    LessTotal(id, from);
  }

  /** A sequence of heartbeats, each from a node that leads at that moment, and its outcome. */
  ghost predicate Heard(c: Cluster, hs: seq<(string, string)>, c': Cluster)
    decreases |hs|
  {
    if hs == [] then c' == c
    else
      && hs[0].0 in c.nodes && IsLeader(c, hs[0].1)
      && Heard(Hears(c, hs[0].0, hs[0].1), hs[1..], c')
  }

  lemma GreatestHears(c: Cluster, id: string, from: string, g: string)
    requires WellFormed(c) && Greatest(c, g) && id in c.nodes && IsLeader(c, from)
    ensures WellFormed(Hears(c, id, from)) && Greatest(Hears(c, id, from), g)
    ensures from == g && id != g ==> !IsLeader(Hears(c, id, from), id)
  {
    HeartbeatSettles(c, id, from);
    LessTotal(id, from);
    if id == g && from != g {
      assert Below(c.nodes[from], c.nodes[g]);
    }
  }

  /**
   * Conflict resolution. However many leaders there are and in whatever order they hear each
   * other's heartbeats, the greatest one stays leader and nobody becomes one; a node that
   * has heard the greatest at least once is no leader any more. So once every other leader
   * has heard it, exactly one leader is left.
   */
  lemma {:induction false} GreatestLeaderPrevails(c: Cluster, hs: seq<(string, string)>, c': Cluster, g: string)
    requires WellFormed(c) && Greatest(c, g) && Heard(c, hs, c')
    ensures WellFormed(c') && Greatest(c', g) && c'.nodes.Keys == c.nodes.Keys
    ensures forall id :: IsLeader(c', id) ==> IsLeader(c, id)
    ensures forall id :: id != g && (id, g) in hs ==> !IsLeader(c', id)
    ensures (forall id :: IsLeader(c, id) && id != g ==> (id, g) in hs) ==> forall id :: IsLeader(c', id) <==> id == g
    decreases |hs|
  {
    if hs != [] {
      var d := Hears(c, hs[0].0, hs[0].1);
      GreatestHears(c, hs[0].0, hs[0].1, g);
      HeartbeatSettles(c, hs[0].0, hs[0].1);
      GreatestLeaderPrevails(d, hs[1..], c', g);
      forall id | id != g && (id, g) in hs ensures !IsLeader(c', id) {
        assert (id, g) == hs[0] || (id, g) in hs[1..];
      }
    }
  }

  /** g's heartbeat delivered to each node of `to` in turn. */
  function Broadcast(c: Cluster, g: string, to: seq<string>): Cluster
    requires g in c.nodes && forall i :: 0 <= i < |to| ==> to[i] in c.nodes && to[i] != g
    decreases |to|
  {
    if to == [] then c else Broadcast(Hears(c, to[0], g), g, to[1..])
  }

  /** What g's heartbeat leaves as a node's LeaderID. */
  function NamedAfter(n: Node, g: Node): string {
    if n.term <= g.term then g.id else n.leaderId
  }

  lemma HearsNames(c: Cluster, id: string, g: string)
    requires WellFormed(c) && Greatest(c, g) && id in c.nodes && id != g
    ensures var c' := Hears(c, id, g);
            && c'.nodes[id].leaderId == NamedAfter(c.nodes[id], c.nodes[g])
            && NamedAfter(c'.nodes[id], c'.nodes[g]) == c'.nodes[id].leaderId
  {
    LessTotal(id, g);
    if c.nodes[id].role == Leader { assert Below(c.nodes[id], c.nodes[g]); }
  }

  lemma {:induction false} BroadcastNames(c: Cluster, g: string, to: seq<string>, id: string)
    requires WellFormed(c) && Greatest(c, g) && id in c.nodes && id != g
    requires forall i :: 0 <= i < |to| ==> to[i] in c.nodes && to[i] != g
    ensures var c' := Broadcast(c, g, to);
            && c'.nodes.Keys == c.nodes.Keys && c'.nodes[g] == c.nodes[g] && Greatest(c', g)
            && NamedAfter(c'.nodes[id], c.nodes[g]) == NamedAfter(c.nodes[id], c.nodes[g])
            && (id in to ==> c'.nodes[id].leaderId == NamedAfter(c.nodes[id], c.nodes[g]) && !IsLeader(c', id))
            && (IsLeader(c', id) ==> IsLeader(c, id))
    decreases |to|
  {
    if to != [] {
      var d := Hears(c, to[0], g);
      GreatestHears(c, to[0], g, g);
      HeartbeatSettles(c, to[0], g);
      HearsNames(c, to[0], g);
      BroadcastNames(d, g, to[1..], id);
      if id == to[0] {
        StaysNamed(d, g, to[1..], id);
      } else {
        assert id in to ==> id in to[1..];
      }
    }
  }

  /** Hearing g again does not change the name any more. */
  lemma {:induction false} StaysNamed(c: Cluster, g: string, to: seq<string>, id: string)
    requires WellFormed(c) && Greatest(c, g) && id in c.nodes && id != g
    requires forall i :: 0 <= i < |to| ==> to[i] in c.nodes && to[i] != g
    requires NamedAfter(c.nodes[id], c.nodes[g]) == c.nodes[id].leaderId && !IsLeader(c, id)
    ensures Broadcast(c, g, to).nodes.Keys == c.nodes.Keys
    ensures Broadcast(c, g, to).nodes[id].leaderId == c.nodes[id].leaderId && !IsLeader(Broadcast(c, g, to), id)
    decreases |to|
  {
    if to != [] {
      GreatestHears(c, to[0], g, g);
      HeartbeatSettles(c, to[0], g);
      HearsNames(c, to[0], g);
      StaysNamed(Hears(c, to[0], g), g, to[1..], id);
    }
  }

  /**
   * The greatest leader's heartbeat, delivered to every other node in any order and with any
   * repetition, leaves exactly one leader; and then all nodes name it as LeaderID exactly
   * when no node of a higher term named somebody else before.
   */
  lemma BroadcastElects(c: Cluster, g: string, to: seq<string>)
    requires WellFormed(c) && Greatest(c, g)
    requires forall i :: 0 <= i < |to| ==> to[i] in c.nodes && to[i] != g
    requires forall id :: id in c.nodes && id != g ==> id in to
    ensures Broadcast(c, g, to).nodes.Keys == c.nodes.Keys
    ensures forall id :: IsLeader(Broadcast(c, g, to), id) <==> id == g
    ensures (forall id :: id in c.nodes ==> Broadcast(c, g, to).nodes[id].leaderId == g)
            <==> (forall id :: id in c.nodes && c.nodes[id].term > c.nodes[g].term ==> c.nodes[id].leaderId == g)
  {
    var c' := Broadcast(c, g, to);
    forall id | id in c.nodes && id != g
      ensures c'.nodes.Keys == c.nodes.Keys && !IsLeader(c', id)
      ensures c'.nodes[id].leaderId == NamedAfter(c.nodes[id], c.nodes[g])
    {
      BroadcastNames(c, g, to, id);
    }
    BroadcastKeepsGreatest(c, g, to);
  }

  lemma {:induction false} BroadcastKeepsGreatest(c: Cluster, g: string, to: seq<string>)
    requires WellFormed(c) && Greatest(c, g)
    requires forall i :: 0 <= i < |to| ==> to[i] in c.nodes && to[i] != g
    ensures var c' := Broadcast(c, g, to); c'.nodes.Keys == c.nodes.Keys && Greatest(c', g) && c'.nodes[g] == c.nodes[g]
    decreases |to|
  {
    if to != [] {
      GreatestHears(c, to[0], g, g);
      HeartbeatSettles(c, to[0], g);
      BroadcastKeepsGreatest(Hears(c, to[0], g), g, to[1..]);
    }
  }

  // ---------------------------------------------------------------- settling a running cluster

  lemma {:induction false} LessTransitive(a: string, b: string, c: string)
    requires Less(a, b) && Less(b, c)
    ensures Less(a, c)
  {
    if a != [] && a[0] == b[0] == c[0] { LessTransitive(a[1..], b[1..], c[1..]); }
  }

  lemma BelowTransitive(n: Node, m: Node, k: Node)
    requires Below(n, m) && Below(m, k)
    ensures Below(n, k)
  {
    if n.term == m.term == k.term { LessTransitive(n.id, m.id, k.id); }
  }

  /** Among any nodes with a leader, one leader is greatest. */
  lemma {:induction false} GreatestOf(c: Cluster, ids: set<string>, some: string) returns (g: string)
    requires WellFormed(c) && some in ids && IsLeader(c, some)
    ensures g in ids && IsLeader(c, g)
    ensures forall id :: id in ids && IsLeader(c, id) && id != g ==> Below(c.nodes[id], c.nodes[g])
    decreases |ids|
  {
    var rest := ids - {some};
    if next :| next in rest && IsLeader(c, next) {
      var h := GreatestOf(c, rest, next);
      LessTotal(some, h);
      g := if Below(c.nodes[some], c.nodes[h]) then h else some;
      forall id | id in ids && IsLeader(c, id) && id != g ensures Below(c.nodes[id], c.nodes[g]) {
        if id != some && id != h && g == some { BelowTransitive(c.nodes[id], c.nodes[h], c.nodes[some]); }
      }
    } else {
      g := some;
    }
  }

  /** Broadcasting reads and changes the nodes only. */
  lemma {:induction false} BroadcastNodes(c: Cluster, d: Cluster, g: string, to: seq<string>)
    requires c.nodes == d.nodes && g in c.nodes && forall i :: 0 <= i < |to| ==> to[i] in c.nodes && to[i] != g
    ensures Broadcast(c, g, to).nodes == Broadcast(d, g, to).nodes
    decreases |to|
  {
    if to != [] { BroadcastNodes(Hears(c, to[0], g), Hears(d, to[0], g), g, to[1..]); }
  }

  /** A tick of a leader's loop publishes its heartbeat and changes nothing. */
  lemma Ticks(run: Trace, acts: seq<Action>, c: Cluster, from: string)
    returns (acts': seq<Action>, c': Cluster)
    requires Continues(run, -1) && run(acts, c) && Inv(c) && IsLeader(c, from)
    ensures run(acts', c') && acts <= acts' && Inv(c') && c'.nodes == c.nodes && Sent(HeartbeatOf(c.nodes[from])) in c'.log
  {
    var a := HeartbeatTick(from);
    assert NodeInv(c.nodes[from]);
    Step(run, acts, c, a, -1);
    StepKeepsInv(c, a);
    acts', c' := acts + [a], Apply(c, a);
    assert c'.log[|c'.log| - 1] == Sent(HeartbeatOf(c.nodes[from]));
  }

  /** A tick of a leader's loop and the delivery of what it published make a node hear it. */
  lemma TickAndDeliver(run: Trace, acts: seq<Action>, c: Cluster, id: string, from: string)
    returns (acts': seq<Action>, c': Cluster)
    requires Continues(run, -1) && run(acts, c) && Inv(c) && id in c.nodes && IsLeader(c, from)
    ensures run(acts', c') && acts <= acts' && Inv(c') && c'.nodes == Hears(c, id, from).nodes
  {
    var acts1, c1 := Ticks(run, acts, c, from);
    var a := Deliver(id, HeartbeatOf(c.nodes[from]), 0);
    Step(run, acts1, c1, a, -1);
    StepKeepsInv(c1, a);
    acts', c' := acts1 + [a], Apply(c1, a);
  }

  lemma {:induction false} BroadcastIsARun(run: Trace, acts: seq<Action>, c: Cluster, g: string, to: seq<string>)
    returns (acts': seq<Action>, c': Cluster)
    requires Continues(run, -1) && run(acts, c) && Inv(c) && Greatest(c, g)
    requires forall i :: 0 <= i < |to| ==> to[i] in c.nodes && to[i] != g
    ensures run(acts', c') && acts <= acts' && c'.nodes == Broadcast(c, g, to).nodes
    decreases |to|
  {
    acts', c' := acts, c;
    if to != [] {
      var acts1, c1 := TickAndDeliver(run, acts, c, to[0], g);
      GreatestHears(c, to[0], g, g);
      acts', c' := BroadcastIsARun(run, acts1, c1, g, to[1..]);
      BroadcastNodes(c1, Hears(c, to[0], g), g, to[1..]);
    }
  }

  lemma {:induction false} Listing(s: set<string>) returns (l: seq<string>)
    ensures forall x :: x in l <==> x in s
  {
    l := [];
    if x :| x in s {
      var rest := Listing(s - {x});
      l := [x] + rest;
    }
  }

  lemma SettleFrom(run: Trace, acts: seq<Action>, c: Cluster, g: string)
    returns (acts': seq<Action>, c': Cluster)
    requires Continues(run, -1) && run(acts, c) && Inv(c) && Greatest(c, g)
    ensures run(acts', c') && acts <= acts' && forall id :: IsLeader(c', id) <==> id == g
  {
    var to := Listing(c.nodes.Keys - {g});
    forall i | 0 <= i < |to| ensures to[i] in c.nodes && to[i] != g {
      assert to[i] in to;
    }
    BroadcastElects(c, g, to);
    acts', c' := BroadcastIsARun(run, acts, c, g, to);
    forall id ensures IsLeader(c', id) <==> id == g {
      assert IsLeader(Broadcast(c, g, to), id) <==> id == g;
    }
  }

  /**
   * From every reachable state with at least one leader the cluster can settle: some
   * continuation of the run ends with exactly one leader, the greatest of those it had.
   */
  lemma ClusterCanSettle(c0: Cluster, acts: seq<Action>, some: string)
    returns (acts': seq<Action>, c': Cluster, g: string)
    requires Initial(c0) && ValidRun(c0, acts) && IsLeader(Exec(c0, acts), some)
    ensures Reaches(c0, acts', c') && acts <= acts' && Greatest(Exec(c0, acts), g)
    ensures forall id :: IsLeader(c', id) <==> id == g
  {
    RunKeepsInv(c0, acts);
    var c := Exec(c0, acts);
    g := GreatestOf(c, c.nodes.Keys, some);
    TracesAreClosed(c0, -1);
    acts', c' := SettleFrom(TracesFrom(c0, -1), acts, c, g);
  }
}
