/** Runs of the round protocol under one leader, step by step. */
module RoundTraces {
  import opened RoundProtocol

  predicate Led(a: Action, leader: string) {
    a.Deliver? || a.Timeout? ==> a.env.leader == leader && (a.env.isLeader <==> a.node == leader)
  }

  /** Which actions under the one leader lead to which system. */
  type Trace = (seq<Action>, System) -> bool

  ghost predicate Closed(run: Trace, leader: string) {
    forall acts: seq<Action>, s: System, a: Action {:trigger acts + [a], Apply(s, a), Led(a, leader)} ::
      run(acts, s) && Enabled(s, a) && Led(a, leader) ==> run(acts + [a], Apply(s, a))
  }

  ghost predicate Reaches(s0: System, acts: seq<Action>, s: System, leader: string) {
    ValidRun(s0, acts) && Exec(s0, acts) == s && FixedLeader(acts, leader)
  }

  ghost function TracesFrom(s0: System, leader: string): Trace {
    (acts: seq<Action>, s: System) => Reaches(s0, acts, s, leader)
  }

  lemma TracesAreClosed(s0: System, leader: string)
    ensures Closed(TracesFrom(s0, leader), leader) && TracesFrom(s0, leader)([], s0)
  {
    assert Reaches(s0, [], s0, leader);
    forall acts: seq<Action>, s: System, a: Action | TracesFrom(s0, leader)(acts, s) && Enabled(s, a) && Led(a, leader)
      ensures TracesFrom(s0, leader)(acts + [a], Apply(s, a))
    {
      Extend(s0, acts, s, a, leader);
    }
  }

  lemma Extend(s0: System, acts: seq<Action>, s: System, a: Action, leader: string)
    requires Reaches(s0, acts, s, leader) && Enabled(s, a) && Led(a, leader)
    ensures Reaches(s0, acts + [a], Apply(s, a), leader)
  {
    OneMore(s0, acts, a);
    LedMore(acts, a, leader);
  }

  lemma LedMore(acts: seq<Action>, a: Action, leader: string)
    requires FixedLeader(acts, leader) && Led(a, leader)
    ensures FixedLeader(acts + [a], leader)
  {
  }

  lemma Step(run: Trace, acts: seq<Action>, s: System, a: Action, leader: string)
    requires Closed(run, leader) && run(acts, s) && Enabled(s, a) && Led(a, leader)
    ensures run(acts + [a], Apply(s, a))
  {
  }
}
