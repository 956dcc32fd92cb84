/** The per-round locks: over every run no node says two things about one round, prunes aside. */
module RoundLocking {
  import opened GoInt
  import opened Wrappers
  import opened RoundTables
  import opened Aggregator
  import opened RoundProtocol

  predicate Locked(n: Node, t: TableKind, r: int32) {
    match t
    case TriggerTable => IsLocked(n.triggers, r)
    case PriceTable => IsLocked(n.prices.locked, r)
    case FixTable => IsLocked(n.fixes, r)
    case ProofTable => IsLocked(n.proofs.locked, r)
  }

  /**
   * The four things a node publishes once per round, each with the table whose lock guards
   * it: its price datum, the fixed price, its signed proof, the streamed aggregate.
   */
  predicate Emits(e: Event, id: string, t: TableKind, r: int32) {
    match e
    case Published(PriceData(from, round, _, _)) => from == id && t == TriggerTable && round == r
    case Published(PriceFix(from, round, _, _)) => from == id && t == PriceTable && round == r
    case Published(Proof(from, round, _, _, _)) => from == id && t == FixTable && round == r
    case Streamed(node, data) => node == id && t == ProofTable && data.round == r
    case _ => false
  }

  /** The event is a prune of that table which leaves round r out. */
  predicate Drops(e: Event, id: string, t: TableKind, r: int32) {
    e.Pruned? && e.node == id && e.table == t && !InWindow(r, e.round)
  }

  ghost predicate DropBetween(log: seq<Event>, i: int, j: int, id: string, t: TableKind, r: int32)
    requires 0 <= i && j <= |log|
  {
    exists k :: i < k < j && Drops(log[k], id, t, r)
  }

  /** Whatever was emitted and not dropped since is still locked. */
  ghost predicate Guarded(s: System) {
    forall i, id, t, r :: 0 <= i < |s.log| && Emits(s.log[i], id, t, r) ==>
      (id in s.nodes && Locked(s.nodes[id], t, r)) || DropBetween(s.log, i, |s.log|, id, t, r)
  }

  /** Two emissions of the same kind, node and round have a dropping prune between them. */
  ghost predicate Separated(s: System) {
    forall i, j, id, t, r :: 0 <= i < j < |s.log| && Emits(s.log[i], id, t, r) && Emits(s.log[j], id, t, r) ==>
      DropBetween(s.log, i, j, id, t, r)
  }

  /** A reaction releases no lock, and what it emits was unlocked before and is locked after. */
  ghost predicate TakesLock(n: Node, r: Reaction) {
    && r.node.id == n.id
    && (forall t, rd :: Locked(n, t, rd) ==> Locked(r.node, t, rd))
    && (r.out.Some? && r.out.value.Publish? ==>
          r.out.value.msg.from == n.id &&
          forall id, t, rd :: Emits(Published(r.out.value.msg), id, t, rd) ==> !Locked(n, t, rd) && Locked(r.node, t, rd))
    && (r.out.Some? && r.out.value.Stream? ==>
          !Locked(n, ProofTable, r.out.value.data.round) && Locked(r.node, ProofTable, r.out.value.data.round))
  }

  lemma ProcessPricesTakesLock(n: Node, round: int32, ts: int, isLeader: bool)
    requires !Locked(n, PriceTable, round)
    ensures TakesLock(n, ProcessPrices(n, round, ts, isLeader))
  {
  }

  lemma OnPriceDataTakesLock(n: Node, from: string, round: int32, value: int64, ts: int, peers: nat, isLeader: bool)
    ensures TakesLock(n, OnPriceData(n, from, round, value, ts, peers, isLeader))
  {
    if !Locked(n, PriceTable, round) {
      ProcessPricesTakesLock(n.(prices := n.prices.Store(round, value, from)), round, ts, isLeader);
    }
  }

  lemma ProcessProofsTakesLock(n: Node, round: int32, value: int64, ts: int)
    requires !Locked(n, ProofTable, round)
    ensures TakesLock(n, ProcessProofs(n, round, value, ts))
  {
  }

  lemma OnProofTakesLock(n: Node, m: Message, peers: nat)
    requires m.Proof?
    ensures TakesLock(n, OnProof(n, m, peers))
  {
    if m.proof.Some? && !Locked(n, ProofTable, m.round) {
      var n1 := n.(proofs := n.proofs.Store(m.round, m.proof.value, m.from));
      ProcessProofsTakesLock(n1, m.round, m.value, m.ts);
      StoredTakesLock(n, n1, ProcessProofs(n1, m.round, m.value, m.ts));
      StoredTakesLock(n, n1, Quiet(n1));
      StoredTakesLock(n, n1, Reaction(n1, None, Some(ProofTimer(m)), None));
    }
  }

  /** Storing an item changes no lock, so what holds of the reaction after it holds from before. */
  lemma StoredTakesLock(n: Node, n1: Node, r: Reaction)
    requires n1.id == n.id && (forall t, rd :: Locked(n1, t, rd) <==> Locked(n, t, rd)) && TakesLock(n1, r)
    ensures TakesLock(n, r)
  {
  }

  lemma DeliverTakesLock(n: Node, a: Action)
    requires a.Deliver? && !a.msg.PriceData? && !a.msg.Proof?
    ensures TakesLock(n, React(n, a))
  {
  }

  lemma TimeoutTakesLock(n: Node, a: Action)
    requires a.Timeout?
    ensures TakesLock(n, React(n, a))
  {
    if a.timer.PriceTimer? && !Locked(n, PriceTable, a.timer.round) {
      ProcessPricesTakesLock(n, a.timer.round, a.timer.ts, a.env.isLeader);
    }
  }

  lemma ReactTakesLock(n: Node, a: Action)
    requires !a.Prune?
    ensures TakesLock(n, React(n, a))
  {
    match a
    case Deliver(_, PriceData(from, round, value, ts), env) =>
      OnPriceDataTakesLock(n, from, round, value, ts, env.peers, env.isLeader);
    case Deliver(_, Proof(_, _, _, _, _), env) => OnProofTakesLock(n, a.msg, env.peers);
    case Deliver(_, _, _) => DeliverTakesLock(n, a);
    case Timeout(_, _, _) => TimeoutTakesLock(n, a);
    case LeaderTick(_, _) =>
  }

  lemma ReactRespectsLocks(n: Node, a: Action)
    requires !a.Prune? && n.id == a.node
    ensures forall t, r :: Locked(n, t, r) ==> Locked(React(n, a).node, t, r)
    ensures var e := EventOf(a, React(n, a));
            forall id, t, r :: e.Some? && Emits(e.value, id, t, r) ==>
              id == a.node && !Locked(n, t, r) && Locked(React(n, a).node, t, r)
  {
    ReactTakesLock(n, a);
  }

  lemma PruneRespectsLocks(n: Node, t: TableKind, round: int32)
    ensures forall u, r :: Locked(n, u, r) && (u != t || InWindow(r, round)) ==> Locked(PruneTable(n, t, round), u, r)
  {
  }

  lemma DropPersists(log: seq<Event>, e: Event, i: int, j: int, id: string, t: TableKind, r: int32)
    requires 0 <= i && j <= |log| && DropBetween(log, i, j, id, t, r)
    ensures DropBetween(log + [e], i, j, id, t, r) && DropBetween(log + [e], i, |log| + 1, id, t, r)
  {
    var k :| i < k < j && Drops(log[k], id, t, r);
    assert (log + [e])[k] == log[k];
  }

  ghost predicate NodesNamed(s: System) {
    forall id :: id in s.nodes ==> s.nodes[id].id == id
  }

  lemma StepKeepsNames(s: System, a: Action)
    requires NodesNamed(s) && Enabled(s, a)
    ensures NodesNamed(Apply(s, a))
  {
    if !a.Prune? { ReactTakesLock(s.nodes[a.node], a); }
  }

  lemma StepKeepsGuarded(s: System, a: Action)
    requires NodesNamed(s) && Enabled(s, a) && Guarded(s)
    ensures Guarded(Apply(s, a))
  {
    var n := s.nodes[a.node];
    var s' := Apply(s, a);
    if a.Prune? { PruneRespectsLocks(n, a.table, a.round); } else { ReactRespectsLocks(n, a); }
    forall i, id, t, r | 0 <= i < |s'.log| && Emits(s'.log[i], id, t, r)
      ensures (id in s'.nodes && Locked(s'.nodes[id], t, r)) || DropBetween(s'.log, i, |s'.log|, id, t, r)
    {
      if i < |s.log| {
        assert s'.log[i] == s.log[i];
        if DropBetween(s.log, i, |s.log|, id, t, r) {
          if |s'.log| > |s.log| { DropPersists(s.log, s'.log[|s.log|], i, |s.log|, id, t, r); }
        } else if a.Prune? && id == a.node && t == a.table && !InWindow(r, a.round) {
          assert Drops(s'.log[|s.log|], id, t, r);
        }
      }
    }
  }

  lemma StepKeepsSeparated(s: System, a: Action)
    requires NodesNamed(s) && Enabled(s, a) && Guarded(s) && Separated(s)
    ensures Separated(Apply(s, a))
  {
    var s' := Apply(s, a);
    if !a.Prune? { ReactRespectsLocks(s.nodes[a.node], a); }
    forall i, j, id, t, r | 0 <= i < j < |s'.log| && Emits(s'.log[i], id, t, r) && Emits(s'.log[j], id, t, r)
      ensures DropBetween(s'.log, i, j, id, t, r)
    {
      assert s'.log[i] == s.log[i];
      if j < |s.log| {
        assert s'.log[j] == s.log[j];
      } else {
        assert DropBetween(s.log, i, |s.log|, id, t, r);
      }
      if |s'.log| > |s.log| {
        DropPersists(s.log, s'.log[|s.log|], i, if j < |s.log| then j else |s.log|, id, t, r);
      }
    }
  }

  lemma {:induction false} RunIsGuarded(s: System, acts: seq<Action>)
    requires Initial(s) && ValidRun(s, acts)
    ensures var e := Exec(s, acts); NodesNamed(e) && Guarded(e) && Separated(e)
  {
    if acts != [] {
      var front, last := acts[..|acts| - 1], acts[|acts| - 1];
      RunIsGuarded(s, front);
      StepKeepsNames(Exec(s, front), last);
      StepKeepsGuarded(Exec(s, front), last);
      StepKeepsSeparated(Exec(s, front), last);
    }
  }

  /**
   * No equivocation. In every run, with any leader changes, delivery order, replays and
   * timer firings: if a node publishes the price datum, the fix, the proof or the aggregate
   * of a round twice, then in between it pruned that round out of the table that guards it.
   */
  lemma NoEquivocation(s: System, acts: seq<Action>, i: nat, j: nat, id: string, t: TableKind, r: int32)
    requires Initial(s) && ValidRun(s, acts)
    requires i < j < |Exec(s, acts).log|
    requires Emits(Exec(s, acts).log[i], id, t, r) && Emits(Exec(s, acts).log[j], id, t, r)
    ensures exists k :: i < k < j && Drops(Exec(s, acts).log[k], id, t, r)
  {
    RunIsGuarded(s, acts);
    assert DropBetween(Exec(s, acts).log, i, j, id, t, r);
  }
}
