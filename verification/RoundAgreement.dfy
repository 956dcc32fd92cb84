/** Under one fixed leader all nodes agree on the value and the time of a round. */
module RoundAgreement {
  import opened GoInt
  import opened Wrappers
  import opened RoundTables
  import opened Aggregator
  import opened RoundProtocol
  import opened RoundLocking
  import opened RoundQuorum

  /** Fixes come from the leader; proofs and aggregates repeat the value and time of a fix. */
  ghost predicate Derived(s: System, leader: string) {
    && (forall m :: Published(m) in s.log && m.PriceFix? ==> m.from == leader)
    && (forall m :: Published(m) in s.log && m.Proof? ==>
          Published(PriceFix(leader, m.round, m.value, m.ts)) in s.log)
    && (forall id, d :: Streamed(id, d) in s.log ==>
          Published(PriceFix(leader, d.round, d.value, d.ts)) in s.log)
  }

  lemma StepKeepsDerived(s: System, a: Action, leader: string)
    requires NodesNamed(s) && Enabled(s, a) && TimersBacked(s) && Derived(s, leader)
    requires a.Deliver? || a.Timeout? ==> a.env.leader == leader && (a.env.isLeader <==> a.node == leader)
    ensures Derived(Apply(s, a), leader)
  {
    var r := React(s.nodes[a.node], a);
    var s' := Apply(s, a);
    LogGrows(s, a);
    ReactOutputs(s.nodes[a.node], a);
    var e := EventOf(a, r);
    assert forall x :: x in s'.log ==> x in s.log || (e.Some? && x == e.value);
  }

  lemma {:induction false} RunIsDerived(s: System, acts: seq<Action>, leader: string)
    requires Initial(s) && ValidRun(s, acts) && FixedLeader(acts, leader)
    ensures Derived(Exec(s, acts), leader)
  {
    if acts != [] {
      var front, last := acts[..|acts| - 1], acts[|acts| - 1];
      assert last == acts[|acts| - 1];
      RunIsDerived(s, front, leader);
      RunIsBacked(s, front);
      RunIsGuarded(s, front);
      StepKeepsDerived(Exec(s, front), last, leader);
    }
  }

  /** The leader never pruned round r out of its price table after fixing its price. */
  ghost predicate KeptAfterFix(log: seq<Event>, leader: string, r: int32) {
    forall i, k :: 0 <= i < k < |log| && Emits(log[i], leader, PriceTable, r) ==> !Drops(log[k], leader, PriceTable, r)
  }

  lemma SecondFixMeansDrop(s: System, leader: string, r: int32, i: nat, j: nat)
    requires Separated(s) && i < j < |s.log|
    requires Emits(s.log[i], leader, PriceTable, r) && Emits(s.log[j], leader, PriceTable, r)
    ensures !KeptAfterFix(s.log, leader, r)
  {
    assert DropBetween(s.log, i, j, leader, PriceTable, r);
  }

  lemma OneFix(s: System, leader: string, r: int32, v1: int64, t1: int, v2: int64, t2: int)
    requires Separated(s) && KeptAfterFix(s.log, leader, r)
    requires Published(PriceFix(leader, r, v1, t1)) in s.log && Published(PriceFix(leader, r, v2, t2)) in s.log
    ensures v1 == v2 && t1 == t2
  {
    var i :| 0 <= i < |s.log| && s.log[i] == Published(PriceFix(leader, r, v1, t1));
    var j :| 0 <= j < |s.log| && s.log[j] == Published(PriceFix(leader, r, v2, t2));
    assert Emits(s.log[i], leader, PriceTable, r) && Emits(s.log[j], leader, PriceTable, r);
    if i < j {
      SecondFixMeansDrop(s, leader, r, i, j);
    } else if j < i {
      SecondFixMeansDrop(s, leader, r, j, i);
    }
  }

  ghost predicate Carries(e: Event, r: int32, value: int64, ts: int) {
    match e
    case Published(PriceFix(_, round, v, t)) => round == r ==> v == value && t == ts
    case Published(Proof(_, round, v, _, t)) => round == r ==> v == value && t == ts
    case Streamed(_, d) => d.round == r ==> d.value == value && d.ts == ts
    case _ => true
  }

  ghost predicate AllCarry(log: seq<Event>, r: int32, value: int64, ts: int) {
    forall e :: e in log ==> Carries(e, r, value, ts)
  }

  lemma OneFixForAll(s: System, leader: string, r: int32)
    requires Separated(s) && Derived(s, leader) && KeptAfterFix(s.log, leader, r)
    ensures exists value, ts :: AllCarry(s.log, r, value, ts)
  {
    if v, t :| Published(PriceFix(leader, r, v, t)) in s.log {
      forall e | e in s.log ensures Carries(e, r, v, t) {
        match e
        case Published(PriceFix(_, round, v2, t2)) => if round == r { OneFix(s, leader, r, v, t, v2, t2); }
        case Published(Proof(_, round, v2, _, t2)) => if round == r { OneFix(s, leader, r, v, t, v2, t2); }
        case Streamed(_, d) => if d.round == r { OneFix(s, leader, r, v, t, d.value, d.ts); }
        case _ =>
      }
      assert AllCarry(s.log, r, v, t);
    } else {
      assert AllCarry(s.log, r, 0, 0);
    }
  }

  /**
   * Round agreement. In every run with one fixed leader, for every round the leader did not
   * prune away after fixing it, there is one value and one timestamp that every fix, every
   * signed proof and every aggregate streamed by any node for that round carries. What the
   * other nodes pruned does not matter.
   */
  lemma RoundAgreement(s: System, acts: seq<Action>, leader: string, r: int32)
    requires Initial(s) && ValidRun(s, acts) && FixedLeader(acts, leader)
    requires KeptAfterFix(Exec(s, acts).log, leader, r)
    ensures exists value, ts :: AllCarry(Exec(s, acts).log, r, value, ts)
  {
    RunIsGuarded(s, acts);
    RunIsDerived(s, acts, leader);
    OneFixForAll(Exec(s, acts), leader, r);
  }

  /**
   * Under the same conditions every proof inside a streamed aggregate was published by its
   * sender as a signature of exactly the value and timestamp that are streamed.
   */
  lemma StreamedProofsSignTheAggregate(s: System, acts: seq<Action>, leader: string, i: nat, k: nat)
    requires Initial(s) && ValidRun(s, acts) && FixedLeader(acts, leader)
    requires i < |Exec(s, acts).log| && Exec(s, acts).log[i].Streamed?
    requires KeptAfterFix(Exec(s, acts).log, leader, Exec(s, acts).log[i].data.round)
    ensures var end := Exec(s, acts);
            i < |end.snaps| &&
            var d, n := end.log[i].data, end.snaps[i].node;
            |At(n.proofs.senders, d.round)| == |At(n.proofs.items, d.round)| &&
            (k < |At(n.proofs.items, d.round)| ==>
               Published(Proof(At(n.proofs.senders, d.round)[k], d.round, d.value,
                               Some(At(n.proofs.items, d.round)[k]), d.ts)) in end.log)
  {
    EveryAggregateRestsOnQuorum(s, acts, i);
    RunIsGuarded(s, acts);
    RunIsDerived(s, acts, leader);
    var end := Exec(s, acts);
    var d, n := end.log[i].data, end.snaps[i].node;
    if k < |At(n.proofs.items, d.round)| {
      var from, proof := At(n.proofs.senders, d.round)[k], At(n.proofs.items, d.round)[k];
      assert ProofHeard(end.log, from, d.round, proof);
      var v, t :| Published(Proof(from, d.round, v, Some(proof), t)) in end.log;
      assert Streamed(end.log[i].node, d) in end.log;
      OneFix(end, leader, d.round, v, t, d.value, d.ts);
    }
  }
}
