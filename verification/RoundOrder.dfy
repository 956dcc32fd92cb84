/**
 * Rounds only go forward. Whoever leads, a node never triggers a round it triggered or took
 * part in before: accepting a trigger raises its round counter, and leading continues from
 * there. The counter is an int32; the wrap-around after 2^31 rounds is the exception.
 */
module RoundOrder {
  import opened GoInt
  import opened Wrappers
  import opened Aggregator
  import opened RoundProtocol
  import opened RoundLocking

  /** The event shows node `id` in round r: its trigger, or its price for somebody's trigger. */
  predicate Shows(e: Event, id: string, r: int32) {
    match e
    case Published(Trigger(from, round, _)) => from == id && round == r
    case Published(PriceData(from, round, _, _)) => from == id && round == r
    case _ => false
  }

  predicate Triggers(e: Event, id: string, r: int32) {
    e.Published? && e.msg.Trigger? && Shows(e, id, r)
  }

  predicate Shown(e: Event, id: string) {
    e.Published? && (e.msg.Trigger? || e.msg.PriceData?) && e.msg.from == id
  }

  /** The node triggers no round MIN_INT32 after it was seen in a round. */
  ghost predicate NeverWraps(log: seq<Event>, id: string) {
    forall i, j :: 0 <= i < j < |log| && Shown(log[i], id) ==> !Triggers(log[j], id, MIN_INT32)
  }

  /** The round counter is at least every round the node was seen in. */
  ghost predicate Ahead(s: System, id: string) {
    id in s.nodes && forall i, r: int32 :: 0 <= i < |s.log| && Shows(s.log[i], id, r) ==> r <= s.nodes[id].roundId
  }

  ghost predicate Forward(log: seq<Event>, id: string) {
    forall i, j, r: int32, r': int32 :: 0 <= i < j < |log| && Shows(log[i], id, r) && Triggers(log[j], id, r') ==> r < r'
  }

  /** What one action does to the counter, and which rounds its event shows. */
  lemma ReactRounds(n: Node, a: Action, r: int32)
    requires n.id == a.node
    ensures var x := React(n, a);
            var e := EventOf(a, x);
            && (n.roundId <= x.node.roundId || e == Some(Published(Trigger(n.id, MIN_INT32, if a.LeaderTick? then a.now else 0))))
            && (e.Some? && Triggers(e.value, a.node, r) ==> r == x.node.roundId && (r == MIN_INT32 || n.roundId < r))
            && (e.Some? && Shows(e.value, a.node, r) && !Triggers(e.value, a.node, r) ==>
                  a.Deliver? && a.msg.Trigger? && a.msg.round == r && (a.msg.from != a.node ==> r <= x.node.roundId))
            && (forall other :: e.Some? && Shows(e.value, other, r) ==> other == a.node)
  {
  }

  lemma FallMeansWrap(s: System, a: Action, id: string, i: nat)
    requires NodesNamed(s) && Enabled(s, a) && id in s.nodes && Apply(s, a).nodes[id].roundId < s.nodes[id].roundId
    requires i < |s.log| && Shown(s.log[i], id)
    ensures !NeverWraps(Apply(s, a).log, id)
  {
    ReactRounds(s.nodes[a.node], a, MIN_INT32);
    assert Shown(Apply(s, a).log[i], id) && Triggers(Apply(s, a).log[|s.log|], id, MIN_INT32);
  }

  lemma StepKeepsAhead(s: System, a: Action, id: string)
    requires NodesNamed(s) && Enabled(s, a) && Ahead(s, id) && NeverWraps(Apply(s, a).log, id)
    ensures Ahead(Apply(s, a), id)
  {
    var n, s' := s.nodes[a.node], Apply(s, a);
    var e := EventOf(a, React(n, a));
    forall i, r: int32 | 0 <= i < |s'.log| && Shows(s'.log[i], id, r) ensures r <= s'.nodes[id].roundId {
      ReactRounds(n, a, r);
      if i < |s.log| {
        assert s'.log[i] == s.log[i];
        if s'.nodes[id].roundId < s.nodes[id].roundId { FallMeansWrap(s, a, id, i); }
      } else if a.Deliver? && a.msg.Trigger? && a.msg.from == a.node {
        var k :| 0 <= k < |s.log| && s.log[k] == Published(a.msg);
        assert Shows(s.log[k], id, a.msg.round);
      }
    }
  }

  lemma StepKeepsForward(s: System, a: Action, id: string)
    requires NodesNamed(s) && Enabled(s, a) && Ahead(s, id) && Forward(s.log, id) && NeverWraps(Apply(s, a).log, id)
    ensures Forward(Apply(s, a).log, id)
  {
    var n, s' := s.nodes[a.node], Apply(s, a);
    forall i, j, r: int32, r': int32 | 0 <= i < j < |s'.log| && Shows(s'.log[i], id, r) && Triggers(s'.log[j], id, r') ensures r < r' {
      assert s'.log[i] == s.log[i];
      if j < |s.log| {
        assert s'.log[j] == s.log[j];
      } else {
        ReactRounds(n, a, r');
      }
    }
  }

  /** So long as the counter has not wrapped around, the node is ahead and its rounds go forward. */
  ghost predicate OnTrack(s: System, id: string) {
    NeverWraps(s.log, id) ==> Ahead(s, id) && Forward(s.log, id)
  }

  lemma StepStaysOnTrack(s: System, a: Action, id: string)
    requires NodesNamed(s) && Enabled(s, a) && OnTrack(s, id)
    ensures OnTrack(Apply(s, a), id)
  {
    LogGrows(s, a);
    if NeverWraps(Apply(s, a).log, id) {
      assert forall i :: 0 <= i < |s.log| ==> Apply(s, a).log[i] == s.log[i];
      StepKeepsAhead(s, a, id);
      StepKeepsForward(s, a, id);
    }
  }

  lemma {:induction false} RunGoesForward(s: System, acts: seq<Action>, id: string)
    requires Initial(s) && ValidRun(s, acts) && id in s.nodes
    ensures OnTrack(Exec(s, acts), id)
  {
    if acts != [] {
      var front, last := acts[..|acts| - 1], acts[|acts| - 1];
      RunGoesForward(s, front, id);
      RunIsGuarded(s, front);
      StepStaysOnTrack(Exec(s, front), last, id);
    }
  }

  /**
   * In every run, across all leader changes: every round a node triggers is greater than every
   * round it triggered or took part in before, if and only if its counter did not wrap around
   * after it was first seen in a round.
   */
  lemma RoundsGoForward(s: System, acts: seq<Action>, id: string)
    requires Initial(s) && ValidRun(s, acts) && id in s.nodes
    ensures Forward(Exec(s, acts).log, id) <==> NeverWraps(Exec(s, acts).log, id)
  {
    RunGoesForward(s, acts, id);
    var log := Exec(s, acts).log;
    if Forward(log, id) {
      forall i, j | 0 <= i < j < |log| && Shown(log[i], id) ensures !Triggers(log[j], id, MIN_INT32) {
        assert Shows(log[i], id, log[i].msg.round);
      }
    }
  }

  ghost predicate Reaches(s0: System, acts: seq<Action>, s: System) {
    ValidRun(s0, acts) && Exec(s0, acts) == s
  }

  lemma TickEffect(s: System, id: string, now: int)
    requires id in s.nodes && s.nodes[id].id == id
    ensures var s' := Apply(s, LeaderTick(id, now));
            && id in s'.nodes && s'.nodes[id].id == id && s'.nodes[id].roundId == Wrap32(s.nodes[id].roundId as int + 1)
            && s'.log == s.log + [Published(Trigger(id, s'.nodes[id].roundId, now))]
  {
  }

  lemma Tick(s0: System, acts: seq<Action>, s: System, id: string, now: int)
    returns (acts': seq<Action>, s': System)
    requires Reaches(s0, acts, s) && id in s.nodes && s.nodes[id].id == id
    ensures Reaches(s0, acts', s') && id in s'.nodes && s'.nodes[id].id == id
    ensures s'.nodes[id].roundId == Wrap32(s.nodes[id].roundId as int + 1)
    ensures s'.log == s.log + [Published(Trigger(id, s'.nodes[id].roundId, now))]
  {
    var a := LeaderTick(id, now);
    OneMore(s0, acts, a);
    TickEffect(s, id, now);
    acts', s' := acts + [a], Apply(s, a);
  }

  /** The exception is real: two ticks from the last round but one. */
  lemma CounterWraps(id: string) returns (s0: System, acts: seq<Action>, s: System)
    ensures Initial(s0) && Reaches(s0, acts, s) && |s.log| == 2
    ensures Triggers(s.log[0], id, MAX_INT32) && Triggers(s.log[1], id, MIN_INT32)
  {
    s0 := System(map[id := NewNode(id).(roundId := MAX_INT32 - 1)], multiset{}, multiset{}, [], []);
    acts, s := Tick(s0, [], s0, id, 0);
    acts, s := Tick(s0, acts, s, id, 0);
  }
}
