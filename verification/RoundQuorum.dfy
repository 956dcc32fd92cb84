/** What the collected prices and proofs are worth: whose they are, and the quorum behind each result. */
module RoundQuorum {
  import opened GoInt
  import opened Wrappers
  import opened Bytes
  import opened RoundTables
  import opened Median
  import opened Aggregator
  import opened RoundProtocol

  ghost predicate PriceHeard(log: seq<Event>, from: string, r: int32, value: int64) {
    exists ts :: Published(PriceData(from, r, value, ts)) in log
  }

  ghost predicate ProofHeard(log: seq<Event>, from: string, r: int32, proof: seq<byte>) {
    exists value, ts :: Published(Proof(from, r, value, Some(proof), ts)) in log
  }

  /** Every collected price and proof was published by the sender it is booked under. */
  ghost predicate Backed(n: Node, log: seq<Event>)
    requires n.Sound()
  {
    && (forall r, i :: r in n.prices.items && 0 <= i < |n.prices.items[r]| ==>
          PriceHeard(log, n.prices.senders[r][i], r, n.prices.items[r][i]))
    && (forall r, i :: r in n.proofs.items && 0 <= i < |n.proofs.items[r]| ==>
          ProofHeard(log, n.proofs.senders[r][i], r, n.proofs.items[r][i]))
  }

  ghost predicate TimersBacked(s: System) {
    forall id, timer :: (id, timer) in s.timers && timer.ProofTimer? ==>
      timer.msg.Proof? && Published(timer.msg) in s.log
  }

  ghost predicate NodesBacked(s: System) {
    forall id :: id in s.nodes ==> s.nodes[id].Sound() && Backed(s.nodes[id], s.log)
  }

  lemma BackedByMore(n: Node, log: seq<Event>, log': seq<Event>)
    requires n.Sound() && Backed(n, log)
    requires forall e :: e in log ==> e in log'
    ensures Backed(n, log')
  {
    forall from, r, v | PriceHeard(log, from, r, v) ensures PriceHeard(log', from, r, v) {
      var ts :| Published(PriceData(from, r, v, ts)) in log;
      assert Published(PriceData(from, r, v, ts)) in log';
    }
    forall from, r, p | ProofHeard(log, from, r, p) ensures ProofHeard(log', from, r, p) {
      var v, ts :| Published(Proof(from, r, v, Some(p), ts)) in log;
      assert Published(Proof(from, r, v, Some(p), ts)) in log';
    }
  }

  lemma StoredPriceIsBacked(n: Node, log: seq<Event>, from: string, round: int32, value: int64, ts: int)
    requires n.Sound() && Backed(n, log) && from !in At(n.prices.senders, round)
    requires Published(PriceData(from, round, value, ts)) in log
    ensures var n1 := n.(prices := n.prices.Store(round, value, from)); n1.Sound() && Backed(n1, log)
  {
    n.prices.StoreIsSound(round, value, from);
    assert PriceHeard(log, from, round, value);
  }

  lemma StoredProofIsBacked(n: Node, log: seq<Event>, m: Message)
    requires n.Sound() && Backed(n, log) && m.Proof? && m.proof.Some? && m.from !in At(n.proofs.senders, m.round)
    requires Published(m) in log
    ensures var n1 := n.(proofs := n.proofs.Store(m.round, m.proof.value, m.from)); n1.Sound() && Backed(n1, log)
  {
    n.proofs.StoreIsSound(m.round, m.proof.value, m.from);
    assert Published(Proof(m.from, m.round, m.value, Some(m.proof.value), m.ts)) in log;
    assert ProofHeard(log, m.from, m.round, m.proof.value);
  }

  lemma SameTablesBacked(n: Node, n': Node, log: seq<Event>)
    requires n.Sound() && Backed(n, log)
    requires n'.prices.items == n.prices.items && n'.prices.senders == n.prices.senders
    requires n'.proofs.items == n.proofs.items && n'.proofs.senders == n.proofs.senders
    ensures n'.Sound() && Backed(n', log)
  {
  }

  lemma PrunedIsBacked(n: Node, log: seq<Event>, t: TableKind, round: int32)
    requires n.Sound() && Backed(n, log)
    ensures PruneTable(n, t, round).Sound() && Backed(PruneTable(n, t, round), log)
  {
  }

  predicate SameCollected(n: Node, n': Node) {
    && n'.prices.items == n.prices.items && n'.prices.senders == n.prices.senders
    && n'.proofs.items == n.proofs.items && n'.proofs.senders == n.proofs.senders
  }

  predicate StoresPrice(n: Node, a: Action, n': Node) {
    && a.Deliver? && a.msg.PriceData? && a.msg.from !in At(n.prices.senders, a.msg.round)
    && SameCollected(n.(prices := n.prices.Store(a.msg.round, a.msg.value, a.msg.from)), n')
  }

  predicate StoresProof(n: Node, a: Action, n': Node) {
    && a.Deliver? && a.msg.Proof? && a.msg.proof.Some? && a.msg.from !in At(n.proofs.senders, a.msg.round)
    && SameCollected(n.(proofs := n.proofs.Store(a.msg.round, a.msg.proof.value, a.msg.from)), n')
  }

  lemma ReactCollects(n: Node, a: Action)
    requires !a.Prune?
    ensures var n' := React(n, a).node; SameCollected(n, n') || StoresPrice(n, a, n') || StoresProof(n, a, n')
  {
    match a
    case LeaderTick(_, _) =>
    case Deliver(_, m, env) =>
      match m {
        case Trigger(_, _, _) =>
        case PriceData(from, round, value, ts) => PriceDataCollects(n, from, round, value, ts, env.peers, env.isLeader);
        case PriceFix(_, _, _, _) =>
        case Proof(_, _, _, _, _) => ProofCollects(n, m, env.peers);
      }
    case Timeout(_, PriceTimer(round, ts), env) => ProcessingCollectsNothing(n, round, 0, ts, env.isLeader);
    case Timeout(_, ProofTimer(m), env) => if m.Proof? { ProcessingCollectsNothing(n, m.round, m.value, m.ts, false); }
  }

  lemma PriceDataCollects(n: Node, from: string, round: int32, value: int64, ts: int, peers: nat, isLeader: bool)
    ensures var n' := OnPriceData(n, from, round, value, ts, peers, isLeader).node;
            SameCollected(n, n') || (from !in At(n.prices.senders, round)
                                     && SameCollected(n.(prices := n.prices.Store(round, value, from)), n'))
  {
    ProcessingCollectsNothing(n.(prices := n.prices.Store(round, value, from)), round, 0, ts, isLeader);
  }

  lemma ProofCollects(n: Node, m: Message, peers: nat)
    requires m.Proof?
    ensures var n' := OnProof(n, m, peers).node;
            SameCollected(n, n') || (m.proof.Some? && m.from !in At(n.proofs.senders, m.round)
                                     && SameCollected(n.(proofs := n.proofs.Store(m.round, m.proof.value, m.from)), n'))
  {
    if m.proof.Some? {
      ProcessingCollectsNothing(n.(proofs := n.proofs.Store(m.round, m.proof.value, m.from)), m.round, m.value, m.ts, false);
    }
  }

  lemma ProcessingCollectsNothing(n: Node, round: int32, value: int64, ts: int, isLeader: bool)
    ensures SameCollected(n, ProcessPrices(n, round, ts, isLeader).node)
    ensures SameCollected(n, ProcessProofs(n, round, value, ts).node)
  {
  }

  lemma ReactIsBacked(s: System, a: Action)
    requires Enabled(s, a) && NodesBacked(s)
    ensures var n' := React(s.nodes[a.node], a).node; n'.Sound() && Backed(n', s.log)
  {
    var n := s.nodes[a.node];
    var n' := React(n, a).node;
    if a.Prune? {
      PrunedIsBacked(n, s.log, a.table, a.round);
    } else {
      ReactCollects(n, a);
      if StoresPrice(n, a, n') {
        StoredPriceIsBacked(n, s.log, a.msg.from, a.msg.round, a.msg.value, a.msg.ts);
        SameTablesBacked(n.(prices := n.prices.Store(a.msg.round, a.msg.value, a.msg.from)), n', s.log);
      } else if StoresProof(n, a, n') {
        StoredProofIsBacked(n, s.log, a.msg);
        SameTablesBacked(n.(proofs := n.proofs.Store(a.msg.round, a.msg.proof.value, a.msg.from)), n', s.log);
      } else {
        SameTablesBacked(n, n', s.log);
      }
    }
  }

  lemma StepKeepsNodesBacked(s: System, a: Action)
    requires Enabled(s, a) && NodesBacked(s)
    ensures NodesBacked(Apply(s, a))
  {
    var n' := React(s.nodes[a.node], a).node;
    var s' := Apply(s, a);
    LogGrows(s, a);
    ReactIsBacked(s, a);
    forall id | id in s'.nodes ensures s'.nodes[id].Sound() && Backed(s'.nodes[id], s'.log) {
      var n := if id == a.node then n' else s.nodes[id];
      assert s'.nodes[id] == n;
      BackedByMore(n, s.log, s'.log);
    }
  }

  /** What a reaction can start and send, and from what. */
  lemma ReactOutputs(n: Node, a: Action)
    ensures var r := React(n, a);
            && (r.timer.Some? && r.timer.value.ProofTimer? ==> a.Deliver? && a.msg.Proof? && r.timer.value.msg == a.msg)
            && (r.out.Some? && r.out.value.Publish? && r.out.value.msg.PriceFix? ==>
                  (a.Deliver? || a.Timeout?) && a.env.isLeader && r.out.value.msg.from == n.id)
            && (r.out.Some? && r.out.value.Publish? && r.out.value.msg.Proof? ==>
                  var m := r.out.value.msg;
                  a.Deliver? && a.msg == PriceFix(a.env.leader, m.round, m.value, m.ts))
            && (r.out.Some? && r.out.value.Stream? ==>
                  var d := r.out.value.data;
                  var m := if a.Deliver? then a.msg else if a.Timeout? && a.timer.ProofTimer? then a.timer.msg else Trigger("", 0, 0);
                  m.Proof? && m.round == d.round && m.value == d.value && m.ts == d.ts)
  {
  }

  /**
   * The errors: which message meets which one, and that none of them sends anything, starts a
   * timer or changes the node - a failed signature aside, which has used up the round's lock.
   */
  lemma ErrorsAreExact(n: Node, a: Action)
    ensures var r := React(n, a);
            && (r.err == Some(InvalidMessage) <==> a.Deliver? && !a.msg.PriceFix? && a.msg.round == 0)
            && (r.err == Some(NonLeaderMessage) <==>
                  a.Deliver? && (a.msg.PriceFix? || (a.msg.Trigger? && a.msg.round != 0)) && a.msg.from != a.env.leader)
            && (r.err == Some(EmptyProof) <==> a.Deliver? && a.msg.Proof? && a.msg.round != 0 && a.msg.proof.None?)
            && (r.err == Some(SigningFailed) <==>
                  a.Deliver? && a.msg.PriceFix? && a.msg.from == a.env.leader && !IsLocked(n.fixes, a.msg.round) && a.env.signature.None?)
            && (r.err.Some? ==> r.out.None? && r.timer.None?
                                && r.node == if r.err == Some(SigningFailed) then n.(fixes := n.fixes[a.msg.round := true]) else n)
  {
    match a
    case Deliver(_, PriceData(from, round, value, ts), env) => PriceDataNeverFails(n, from, round, value, ts, env.peers, env.isLeader);
    case Deliver(_, Proof(_, _, _, _, _), env) =>
    case Deliver(_, _, _) =>
    case Timeout(_, PriceTimer(round, ts), env) =>
    case Timeout(_, ProofTimer(m), env) =>
    case _ =>
  }

  lemma PriceDataNeverFails(n: Node, from: string, round: int32, value: int64, ts: int, peers: nat, isLeader: bool)
    ensures var r := OnPriceData(n, from, round, value, ts, peers, isLeader);
            if round == 0 then r == Fails(n, InvalidMessage) else r.err.None?
  {
  }

  lemma StepKeepsTimersBacked(s: System, a: Action)
    requires Enabled(s, a) && TimersBacked(s)
    ensures TimersBacked(Apply(s, a))
  {
    var r := React(s.nodes[a.node], a);
    var s' := Apply(s, a);
    LogGrows(s, a);
    ReactOutputs(s.nodes[a.node], a);
    forall id, timer | (id, timer) in s'.timers && timer.ProofTimer?
      ensures timer.msg.Proof? && Published(timer.msg) in s'.log
    {
      assert (id, timer) in s.timers || (r.timer.Some? && timer == r.timer.value);
    }
  }

  // ---------------------------------------------------------------- quorum

  /**
   * What a fix or an aggregate rests on, read off the acting node right after it: at least
   * (peers+1)/2 entries from pairwise distinct senders, each published by its sender for
   * that round; the fix is the median of the non-negative ones, the aggregate's proof the
   * concatenation of the collected ones.
   */
  ghost predicate Justified(e: Event, snap: Snapshot, log: seq<Event>) {
    var n := snap.node;
    && n.Sound() && Backed(n, log)
    && (e.Published? && e.msg.PriceFix? ==>
          && |At(n.prices.senders, e.msg.round)| >= (snap.peers + 1) / 2
          && Some(e.msg.value) == MedianInt64(NonNegative(At(n.prices.items, e.msg.round))))
    && (e.Streamed? ==>
          && |At(n.proofs.senders, e.data.round)| >= (snap.peers + 1) / 2
          && e.data.proof == Concat(At(n.proofs.items, e.data.round))
          && e.data.value != 0 && e.data.ts != ZERO_TIME)
  }

  ghost predicate AllJustified(s: System) {
    |s.snaps| == |s.log| && forall i :: 0 <= i < |s.log| ==> Justified(s.log[i], s.snaps[i], s.log)
  }

  predicate QuorumBehind(r: Reaction, peers: nat) {
    match r.out
    case Some(Publish(PriceFix(_, round, value, _))) =>
      && |At(r.node.prices.items, round)| >= (peers + 1) / 2
      && Some(value) == MedianInt64(NonNegative(At(r.node.prices.items, round)))
    case Some(Stream(d)) =>
      && |At(r.node.proofs.items, d.round)| >= (peers + 1) / 2
      && d.proof == Concat(At(r.node.proofs.items, d.round)) && d.value != 0 && d.ts != ZERO_TIME
    case _ => true
  }

  lemma PriceDataQuorum(n: Node, from: string, round: int32, value: int64, ts: int, peers: nat, isLeader: bool)
    ensures QuorumBehind(OnPriceData(n, from, round, value, ts, peers, isLeader), peers)
    ensures QuorumBehind(OnPriceTimeout(n, round, ts, peers, isLeader), peers)
  {
  }

  lemma ProofQuorum(n: Node, m: Message, peers: nat)
    requires m.Proof?
    ensures QuorumBehind(OnProof(n, m, peers), peers)
    ensures QuorumBehind(OnProofTimeout(n, m, peers), peers)
  {
  }

  lemma ReactQuorum(n: Node, a: Action)
    ensures QuorumBehind(React(n, a), PeersOf(a))
  {
    match a
    case Deliver(_, m, env) =>
      match m {
        case Trigger(_, _, _) =>
        case PriceData(from, round, value, ts) => PriceDataQuorum(n, from, round, value, ts, env.peers, env.isLeader);
        case PriceFix(_, _, _, _) =>
        case Proof(_, _, _, _, _) => ProofQuorum(n, m, env.peers);
      }
    case Timeout(_, PriceTimer(round, ts), env) => PriceDataQuorum(n, "", round, 0, ts, env.peers, env.isLeader);
    case Timeout(_, ProofTimer(m), env) => if m.Proof? { ProofQuorum(n, m, env.peers); }
    case _ =>
  }

  lemma EventIsJustified(s: System, a: Action)
    requires Enabled(s, a) && NodesBacked(s)
    requires EventOf(a, React(s.nodes[a.node], a)).Some?
    ensures var r := React(s.nodes[a.node], a);
            Justified(EventOf(a, r).value, Snapshot(r.node, PeersOf(a)), s.log)
  {
    ReactIsBacked(s, a);
    ReactQuorum(s.nodes[a.node], a);
  }

  lemma StepKeepsJustified(s: System, a: Action)
    requires Enabled(s, a) && NodesBacked(s) && AllJustified(s)
    ensures AllJustified(Apply(s, a))
  {
    var s' := Apply(s, a);
    LogGrows(s, a);
    if EventOf(a, React(s.nodes[a.node], a)).Some? { EventIsJustified(s, a); }
    forall i | 0 <= i < |s'.log| ensures Justified(s'.log[i], s'.snaps[i], s'.log) {
      if i < |s.log| { assert s'.log[i] == s.log[i] && s'.snaps[i] == s.snaps[i]; }
      BackedByMore(s'.snaps[i].node, s.log, s'.log);
    }
  }

  lemma {:induction false} RunIsBacked(s: System, acts: seq<Action>)
    requires Initial(s) && ValidRun(s, acts)
    ensures var e := Exec(s, acts); NodesBacked(e) && TimersBacked(e) && AllJustified(e)
  {
    if acts != [] {
      var front, last := acts[..|acts| - 1], acts[|acts| - 1];
      RunIsBacked(s, front);
      StepKeepsNodesBacked(Exec(s, front), last);
      StepKeepsTimersBacked(Exec(s, front), last);
      StepKeepsJustified(Exec(s, front), last);
    }
  }

  /**
   * Round tables stay sound in every run: at every node prices and senders, and proofs and
   * senders, cover the same rounds with the same lengths and no sender twice, and every
   * entry was published by the sender it is booked under.
   */
  lemma TablesStaySound(s: System, acts: seq<Action>, id: string)
    requires Initial(s) && ValidRun(s, acts) && id in s.nodes
    ensures var e := Exec(s, acts); id in e.nodes && e.nodes[id].Sound() && Backed(e.nodes[id], e.log)
  {
    RunIsBacked(s, acts);
    NodesStay(s, acts);
  }

  /**
   * Every fix in every run rests on a quorum, is the median by rank of the non-negative prices
   * collected, and lies between the least and the greatest of them exactly when the two middle
   * ones add up within int64.
   */
  lemma EveryFixRestsOnQuorum(s: System, acts: seq<Action>, i: nat)
    requires Initial(s) && ValidRun(s, acts) && i < |Exec(s, acts).log|
    requires Exec(s, acts).log[i].Published? && Exec(s, acts).log[i].msg.PriceFix?
    ensures var e := Exec(s, acts); i < |e.snaps| && Justified(e.log[i], e.snaps[i], e.log)
    ensures var e := Exec(s, acts);
            var usable := NonNegative(At(e.snaps[i].node.prices.items, e.log[i].msg.round));
            usable != [] && Middle(usable, e.log[i].msg.value) && (Between(usable, e.log[i].msg.value) <==> MiddleSum(usable) <= MAX_INT64)
  {
    RunIsBacked(s, acts);
    var e := Exec(s, acts);
    assert Justified(e.log[i], e.snaps[i], e.log);
    var prices := At(e.snaps[i].node.prices.items, e.log[i].msg.round);
    var usable := NonNegative(prices);
    forall k | 0 <= k < |usable| ensures 0 <= usable[k] {
      NonNegativeIsTheFilter(prices, usable[k]);
      assert usable[k] in multiset(usable);
    }
    MedianInRange(usable);
    MedianIsMiddle(usable, e.log[i].msg.value);
  }

  lemma JustifiedAggregate(e: Event, snap: Snapshot, log: seq<Event>)
    requires Justified(e, snap, log) && e.Streamed?
    ensures snap.node.Sound() && Backed(snap.node, log)
    ensures var d, n := e.data, snap.node;
            && CutsInto(d.proof, At(n.proofs.items, d.round)) && d.value != 0 && d.ts != ZERO_TIME
            && |At(n.proofs.senders, d.round)| == |At(n.proofs.items, d.round)| >= (snap.peers + 1) / 2
            && Distinct(At(n.proofs.senders, d.round))
            && (forall k :: 0 <= k < |At(n.proofs.items, d.round)| ==>
                  ProofHeard(log, At(n.proofs.senders, d.round)[k], d.round, At(n.proofs.items, d.round)[k]))
  {
    ConcatCuts(At(snap.node.proofs.items, e.data.round));
  }

  /**
   * Every aggregate streamed in every run, whoever leads, carries the proofs of at least
   * (peers+1)/2 distinct senders, each published for that round by its sender: the streamed
   * bytes, cut at the lengths of the collected proofs, are exactly those proofs in order. No
   * aggregate has the value 0 or the zero time.
   */
  lemma EveryAggregateRestsOnQuorum(s: System, acts: seq<Action>, i: nat)
    requires Initial(s) && ValidRun(s, acts) && i < |Exec(s, acts).log| && Exec(s, acts).log[i].Streamed?
    ensures var e := Exec(s, acts);
            && i < |e.snaps| && e.snaps[i].node.Sound() && Backed(e.snaps[i].node, e.log)
            && var d, n := e.log[i].data, e.snaps[i].node;
               && CutsInto(d.proof, At(n.proofs.items, d.round)) && d.value != 0 && d.ts != ZERO_TIME
               && |At(n.proofs.senders, d.round)| == |At(n.proofs.items, d.round)| >= (e.snaps[i].peers + 1) / 2
               && Distinct(At(n.proofs.senders, d.round))
               && (forall k :: 0 <= k < |At(n.proofs.items, d.round)| ==>
                     ProofHeard(e.log, At(n.proofs.senders, d.round)[k], d.round, At(n.proofs.items, d.round)[k]))
  {
    RunIsBacked(s, acts);
    JustifiedAggregate(Exec(s, acts).log[i], Exec(s, acts).snaps[i], Exec(s, acts).log);
  }
}
