/**
 * The exact conditions of round agreement. The prune of a trigger keeps only the ten rounds up
 * to that trigger's own, so a trigger handled late - each message has its own goroutine -
 * drops the locks of newer rounds; and every handled trigger, replays included, prunes. The
 * leader keeps a fixed round until a trigger it handles leaves that round out. Since a
 * published trigger may arrive again at any time, the round is safe exactly while none
 * published leaves it out: any other lets the leader fix it again at any price.
 */
module LateTrigger {
  import opened GoInt
  import opened Wrappers
  import opened RoundTables
  import opened Median
  import opened Aggregator
  import opened RoundProtocol
  import opened RoundTraces
  import opened RoundLocking
  import opened RoundQuorum
  import opened RoundAgreement

  // ---------------------------------------------------------------- what a fix goes back to

  /** Somebody has published a trigger of round r. */
  ghost predicate Triggered(log: seq<Event>, r: int32) {
    exists from, ts :: Published(Trigger(from, r, ts)) in log
  }

  /** Prices answer a trigger of the leader, and prunes, done or due, a trigger of anybody. */
  ghost predicate Answered(s: System, leader: string) {
    && (forall from, r: int32, v: int64, ts :: Published(PriceData(from, r, v, ts)) in s.log ==>
          r != 0 && Published(Trigger(leader, r, ts)) in s.log)
    && (forall p :: p in s.prunes ==> Triggered(s.log, p.round))
    && (forall id, t, r: int32 :: Pruned(id, t, r) in s.log ==> Triggered(s.log, r))
  }

  lemma ReactPrices(n: Node, a: Action)
    ensures var out := React(n, a).out;
            out.Some? && out.value.Publish? && out.value.msg.PriceData? ==>
              var m := out.value.msg; m.round != 0 && a.Deliver? && a.msg == Trigger(a.env.leader, m.round, m.ts)
  {
  }

  lemma StepKeepsAnswered(s: System, a: Action, leader: string)
    requires Enabled(s, a) && Answered(s, leader) && Led(a, leader)
    ensures Answered(Apply(s, a), leader)
  {
    var s' := Apply(s, a);
    var e := EventOf(a, React(s.nodes[a.node], a));
    LogGrows(s, a);
    ReactPrices(s.nodes[a.node], a);
    assert forall x :: x in s'.log ==> x in s.log || (e.Some? && x == e.value);
    forall r: int32 | Triggered(s.log, r) ensures Triggered(s'.log, r) {
      var from, ts :| Published(Trigger(from, r, ts)) in s.log;
      assert Published(Trigger(from, r, ts)) in s'.log;
    }
    DueIsAnswered(s, a, leader);
  }

  lemma DueIsAnswered(s: System, a: Action, leader: string)
    requires Enabled(s, a) && Answered(s, leader)
    ensures forall p :: p in PrunesAfter(s.prunes, a) ==> Triggered(s.log, p.round)
    ensures a.Prune? ==> Triggered(s.log, a.round)
  {
    if a.Prune? {
      assert DuePrune(a.node, a.table, a.round) in s.prunes;
    } else if a.Deliver? && a.msg.Trigger? {
      assert a.msg == Trigger(a.msg.from, a.msg.round, a.msg.ts);
    }
  }

  lemma {:induction false} RunIsAnswered(s: System, acts: seq<Action>, leader: string)
    requires Initial(s) && ValidRun(s, acts) && FixedLeader(acts, leader)
    ensures Answered(Exec(s, acts), leader)
  {
    if acts != [] {
      var front, last := acts[..|acts| - 1], acts[|acts| - 1];
      assert last == acts[|acts| - 1];
      RunIsAnswered(s, front, leader);
      StepKeepsAnswered(Exec(s, front), last, leader);
    }
  }

  /** Somebody has published a fix of round r. */
  ghost predicate Fixed(log: seq<Event>, leader: string, r: int32) {
    exists i :: 0 <= i < |log| && Emits(log[i], leader, PriceTable, r)
  }

  /** A fixed round has a trigger of the leader. */
  lemma FixHasTrigger(s: System, acts: seq<Action>, leader: string, r: int32) returns (ts: int)
    requires Initial(s) && ValidRun(s, acts) && FixedLeader(acts, leader) && Fixed(Exec(s, acts).log, leader, r)
    ensures r != 0 && Published(Trigger(leader, r, ts)) in Exec(s, acts).log
  {
    var e := Exec(s, acts);
    var i :| 0 <= i < |e.log| && Emits(e.log[i], leader, PriceTable, r);
    EveryFixRestsOnQuorum(s, acts, i);
    RunIsAnswered(s, acts, leader);
    var n := e.snaps[i].node;
    CollectedPrice(n, r);
    assert PriceHeard(e.log, n.prices.senders[r][0], r, n.prices.items[r][0]);
    ts :| Published(PriceData(n.prices.senders[r][0], r, n.prices.items[r][0], ts)) in e.log;
  }

  lemma CollectedPrice(n: Node, r: int32)
    requires n.Sound() && NonNegative(At(n.prices.items, r)) != []
    ensures r in n.prices.items && n.prices.items[r] != [] && r in n.prices.senders
            && |n.prices.senders[r]| == |n.prices.items[r]|
  {
  }

  // ---------------------------------------------------------------- fixing a pruned round again

  /** With one peer, a local price or none, and no signature. */
  function Seen(leader: string, price: Option<int64>): Env {
    Env(leader, true, 1, price, None)
  }

  /** One event was added to the log, and it is no trigger; the leader keeps its name. */
  ghost predicate Adds(s: System, e: Event, s': System, leader: string) {
    && leader in s'.nodes && s'.nodes[leader].id == leader && s'.log == s.log + [e] && Grows(s.log, s'.log) && e in s'.log
  }

  predicate IsTrigger(e: Event) {
    e.Published? && e.msg.Trigger?
  }

  /** The log goes on without a new trigger. */
  ghost predicate Grows(log: seq<Event>, log': seq<Event>) {
    (forall x :: x in log ==> x in log') && (forall x :: x in log' && IsTrigger(x) ==> x in log)
  }

  /** A trigger delivered to the leader is handled, and its prune of the trigger table falls due. */
  lemma HandlesTrigger(run: Trace, acts: seq<Action>, s: System, leader: string, from: string, r0: int32, ts: int)
    returns (acts': seq<Action>, s': System)
    requires Closed(run, leader) && run(acts, s) && NodesNamed(s) && leader in s.nodes
    requires Published(Trigger(from, r0, ts)) in s.log
    ensures run(acts', s') && acts <= acts' && Grows(s.log, s'.log) && DuePrune(leader, TriggerTable, r0) in s'.prunes
    ensures leader in s'.nodes && s'.nodes[leader].id == leader
  {
    var a := Deliver(leader, Trigger(from, r0, ts), Seen(leader, None));
    Step(run, acts, s, a, leader);
    LogGrows(s, a);
    StepKeepsNames(s, a);
    acts', s' := acts + [a], Apply(s, a);
    assert s'.log[..|s.log|] == s.log;
  }

  /** A prune that is due is done; after the trigger table's, the price table's falls due. */
  lemma Prunes(run: Trace, acts: seq<Action>, s: System, leader: string, t: TableKind, r0: int32)
    returns (acts': seq<Action>, s': System)
    requires Closed(run, leader) && run(acts, s) && leader in s.nodes && s.nodes[leader].id == leader
    requires DuePrune(leader, t, r0) in s.prunes
    ensures run(acts', s') && acts' == acts + [Prune(leader, t, r0)] && Adds(s, Pruned(leader, t, r0), s', leader)
    ensures s'.nodes[leader] == PruneTable(s.nodes[leader], t, r0)
    ensures t == TriggerTable ==> DuePrune(leader, PriceTable, r0) in s'.prunes
  {
    Step(run, acts, s, Prune(leader, t, r0), leader);
    acts', s' := acts + [Prune(leader, t, r0)], Apply(s, Prune(leader, t, r0));
  }

  lemma HearsTrigger(run: Trace, acts: seq<Action>, s: System, leader: string, r: int32, ts: int, w: int64)
    returns (acts': seq<Action>, s': System)
    requires Closed(run, leader) && run(acts, s) && leader in s.nodes && s.nodes[leader].id == leader
    requires Published(Trigger(leader, r, ts)) in s.log && r != 0 && !IsLocked(s.nodes[leader].triggers, r)
    ensures run(acts', s') && acts' == acts + [Deliver(leader, Trigger(leader, r, ts), Seen(leader, Some(w)))]
    ensures Adds(s, Published(PriceData(leader, r, w, ts)), s', leader)
    ensures s'.nodes[leader] == s.nodes[leader].(triggers := s.nodes[leader].triggers[r := true])
  {
    var a := Deliver(leader, Trigger(leader, r, ts), Seen(leader, Some(w)));
    Step(run, acts, s, a, leader);
    acts', s' := acts + [a], Apply(s, a);
  }

  /** The first price of a round is collected and starts the timer. */
  lemma HearsPrice(run: Trace, acts: seq<Action>, s: System, leader: string, r: int32, ts: int, w: int64)
    returns (acts': seq<Action>, s': System)
    requires Closed(run, leader) && run(acts, s) && leader in s.nodes && s.nodes[leader].id == leader
    requires Published(PriceData(leader, r, w, ts)) in s.log && r != 0
    requires var p := s.nodes[leader].prices; r !in p.items && r !in p.senders && !IsLocked(p.locked, r)
    ensures run(acts', s') && acts' == acts + [Deliver(leader, PriceData(leader, r, w, ts), Seen(leader, None))]
    ensures leader in s'.nodes && s'.nodes[leader].id == leader && s'.log == s.log
    ensures At(s'.nodes[leader].prices.items, r) == [w] && !IsLocked(s'.nodes[leader].prices.locked, r)
    ensures (leader, PriceTimer(r, ts)) in s'.timers && s'.nodes[leader].triggers == s.nodes[leader].triggers
  {
    var a := Deliver(leader, PriceData(leader, r, w, ts), Seen(leader, None));
    Step(run, acts, s, a, leader);
    acts', s' := acts + [a], Apply(s, a);
    assert At(s'.nodes[leader].prices.items, r) == [w];
  }

  /** The timer fixes the one price collected. */
  lemma TimesOut(run: Trace, acts: seq<Action>, s: System, leader: string, r: int32, ts: int, w: int64)
    returns (acts': seq<Action>, s': System)
    requires Closed(run, leader) && run(acts, s) && leader in s.nodes && s.nodes[leader].id == leader && w >= 0
    requires (leader, PriceTimer(r, ts)) in s.timers
    requires At(s.nodes[leader].prices.items, r) == [w] && !IsLocked(s.nodes[leader].prices.locked, r)
    ensures run(acts', s') && acts' == acts + [Timeout(leader, PriceTimer(r, ts), Seen(leader, None))]
    ensures Adds(s, Published(PriceFix(leader, r, w, ts)), s', leader)
    ensures s'.nodes[leader].triggers == s.nodes[leader].triggers
  {
    var a := Timeout(leader, PriceTimer(r, ts), Seen(leader, None));
    Step(run, acts, s, a, leader);
    acts', s' := acts + [a], Apply(s, a);
    assert NonNegative([w]) == [w];
  }

  /** A round the leader holds nothing about is fixed at the leader's own price. */
  lemma FixesAlone(run: Trace, acts: seq<Action>, s: System, leader: string, r: int32, ts: int, w: int64)
    returns (acts': seq<Action>, s': System)
    requires Closed(run, leader) && run(acts, s) && leader in s.nodes && s.nodes[leader].id == leader && w >= 0
    requires Published(Trigger(leader, r, ts)) in s.log && r != 0 && !IsLocked(s.nodes[leader].triggers, r)
    requires var p := s.nodes[leader].prices; r !in p.items && r !in p.senders && !IsLocked(p.locked, r)
    ensures run(acts', s') && acts <= acts' && Grows(s.log, s'.log) && Published(PriceFix(leader, r, w, ts)) in s'.log
  {
    var acts1, s1 := HearsTrigger(run, acts, s, leader, r, ts, w);
    var acts2, s2 := HearsPrice(run, acts1, s1, leader, r, ts, w);
    acts', s' := TimesOut(run, acts2, s2, leader, r, ts, w);
  }

  /** A published trigger that leaves r out lets the leader forget round r and fix it at any price. */
  lemma FixesAgain(run: Trace, acts: seq<Action>, s: System, leader: string, r: int32, ts: int, w: int64,
                   from: string, r0: int32, ts0: int)
    returns (acts': seq<Action>, s': System)
    requires Closed(run, leader) && run(acts, s) && NodesNamed(s) && leader in s.nodes && w >= 0
    requires Published(Trigger(leader, r, ts)) in s.log && r != 0
    requires Published(Trigger(from, r0, ts0)) in s.log && !InWindow(r, r0)
    ensures run(acts', s') && acts <= acts' && Grows(s.log, s'.log) && Published(PriceFix(leader, r, w, ts)) in s'.log
  {
    var acts1, s1 := HandlesTrigger(run, acts, s, leader, from, r0, ts0);
    var acts2, s2 := Prunes(run, acts1, s1, leader, TriggerTable, r0);
    var acts3, s3 := Prunes(run, acts2, s2, leader, PriceTable, r0);
    acts', s' := FixesAlone(run, acts3, s3, leader, r, ts, w);
  }

  // ---------------------------------------------------------------- the exact condition

  ghost predicate Agrees(log: seq<Event>, r: int32) {
    exists value, ts :: AllCarry(log, r, value, ts)
  }

  lemma TwoFixesDisagree(log: seq<Event>, leader: string, r: int32, v: int64, t: int, w: int64, ts: int)
    requires Published(PriceFix(leader, r, v, t)) in log && Published(PriceFix(leader, r, w, ts)) in log && v != w
    ensures !Agrees(log, r)
  {
    forall value, x ensures !AllCarry(log, r, value, x) {
      assert !(Carries(Published(PriceFix(leader, r, v, t)), r, value, x) && Carries(Published(PriceFix(leader, r, w, ts)), r, value, x));
    }
  }

  /** Every trigger published so far keeps r. */
  ghost predicate Settled(log: seq<Event>, r: int32) {
    forall r0 :: Triggered(log, r0) ==> InWindow(r, r0)
  }

  /** The acts' prolong the run under the same leader, and no trigger they add leaves r out. */
  ghost predicate Prolongs(s: System, acts: seq<Action>, acts': seq<Action>, leader: string, r: int32)
    requires ValidRun(s, acts)
  {
    && ValidRun(s, acts') && FixedLeader(acts', leader) && acts <= acts'
    && forall r0 :: Triggered(Exec(s, acts').log, r0) && !InWindow(r, r0) ==> Triggered(Exec(s, acts).log, r0)
  }

  lemma GrowsTriggered(log: seq<Event>, log': seq<Event>, r0: int32)
    requires Grows(log, log') && Triggered(log', r0)
    ensures Triggered(log, r0)
  {
    var from, ts :| Published(Trigger(from, r0, ts)) in log';
    assert IsTrigger(Published(Trigger(from, r0, ts)));
  }

  /**
   * If any trigger published so far leaves a fixed round out, the run goes on, without any
   * further trigger, to a fix of that round at any price w.
   */
  lemma FixedAgainAtAnyPrice(s: System, acts: seq<Action>, leader: string, r: int32, w: int64)
    returns (acts': seq<Action>, ts: int)
    requires Initial(s) && ValidRun(s, acts) && FixedLeader(acts, leader) && leader in s.nodes && w >= 0
    requires Fixed(Exec(s, acts).log, leader, r) && !Settled(Exec(s, acts).log, r)
    ensures Prolongs(s, acts, acts', leader, r) && Published(PriceFix(leader, r, w, ts)) in Exec(s, acts').log
    ensures Grows(Exec(s, acts).log, Exec(s, acts').log)
  {
    var e := Exec(s, acts);
    ts := FixHasTrigger(s, acts, leader, r);
    TracesAreClosed(s, leader);
    RunIsGuarded(s, acts);
    NodesStay(s, acts);
    var r0 :| Triggered(e.log, r0) && !InWindow(r, r0);
    var from, ts0 :| Published(Trigger(from, r0, ts0)) in e.log;
    var s';
    acts', s' := FixesAgain(TracesFrom(s, leader), acts, e, leader, r, ts, w, from, r0, ts0);
    forall x | Triggered(s'.log, x) ensures Triggered(e.log, x) { GrowsTriggered(e.log, s'.log, x); }
  }

  lemma DroppedIsUnsettled(s: System, leader: string, r: int32)
    requires Answered(s, leader) && !KeptAfterFix(s.log, leader, r)
    ensures Fixed(s.log, leader, r) && !Settled(s.log, r)
  {
    var i, k :| 0 <= i < k < |s.log| && Emits(s.log[i], leader, PriceTable, r) && Drops(s.log[k], leader, PriceTable, r);
    assert Pruned(leader, PriceTable, s.log[k].round) in s.log;
  }

  /** So does every run in which the leader did prune the round after fixing it. */
  lemma PrunedRoundIsFixedAgain(s: System, acts: seq<Action>, leader: string, r: int32, w: int64)
    returns (acts': seq<Action>, ts: int)
    requires Initial(s) && ValidRun(s, acts) && FixedLeader(acts, leader) && leader in s.nodes && w >= 0
    requires !KeptAfterFix(Exec(s, acts).log, leader, r)
    ensures Prolongs(s, acts, acts', leader, r) && Published(PriceFix(leader, r, w, ts)) in Exec(s, acts').log
    ensures Grows(Exec(s, acts).log, Exec(s, acts').log)
  {
    RunIsAnswered(s, acts, leader);
    DroppedIsUnsettled(Exec(s, acts), leader, r);
    acts', ts := FixedAgainAtAnyPrice(s, acts, leader, r, w);
  }

  lemma SettledKeepsFix(s: System, leader: string, r: int32)
    requires Answered(s, leader) && Settled(s.log, r)
    ensures KeptAfterFix(s.log, leader, r)
  {
    forall k | 0 <= k < |s.log| ensures !Drops(s.log[k], leader, PriceTable, r) {
      if s.log[k].Pruned? { assert Pruned(s.log[k].node, s.log[k].table, s.log[k].round) in s.log; }
    }
  }

  /**
   * The exact condition. Under a fixed leader that has fixed round r, all nodes agree on r
   * however the run goes on - so long as nobody publishes a further trigger that leaves r
   * out - if and only if no trigger published so far leaves r out.
   */
  lemma AgreementLasts(s: System, acts: seq<Action>, leader: string, r: int32)
    requires Initial(s) && ValidRun(s, acts) && FixedLeader(acts, leader) && leader in s.nodes
    requires Fixed(Exec(s, acts).log, leader, r)
    ensures (forall acts' :: Prolongs(s, acts, acts', leader, r) ==> Agrees(Exec(s, acts').log, r))
            <==> Settled(Exec(s, acts).log, r)
  {
    if Settled(Exec(s, acts).log, r) {
      forall acts' | Prolongs(s, acts, acts', leader, r) ensures Agrees(Exec(s, acts').log, r) {
        RunIsAnswered(s, acts', leader);
        SettledKeepsFix(Exec(s, acts'), leader, r);
        RoundAgreement.RoundAgreement(s, acts', leader, r);
      }
    } else {
      var log := Exec(s, acts).log;
      var i :| 0 <= i < |log| && Emits(log[i], leader, PriceTable, r);
      var v: int64 := log[i].msg.value;
      var w: int64 := if v == 0 then 1 else 0;
      var acts', ts := FixedAgainAtAnyPrice(s, acts, leader, r, w);
      TwoFixesDisagree(Exec(s, acts').log, leader, r, v, log[i].msg.ts, w, ts);
    }
  }

  // ---------------------------------------------------------------- what the leader keeps

  /** The acts' prolong the run, and every trigger they deliver to the leader keeps r. */
  ghost predicate Keeping(s: System, acts: seq<Action>, acts': seq<Action>, leader: string, r: int32) {
    && ValidRun(s, acts') && acts <= acts'
    && forall i :: |acts| <= i < |acts'| && acts'[i].Deliver? && acts'[i].node == leader && acts'[i].msg.Trigger? ==>
         InWindow(r, acts'[i].msg.round)
  }

  /** A prune that the leader has yet to do will leave r out of its price table. */
  ghost predicate DropIsDue(prunes: multiset<DuePrune>, leader: string, r: int32) {
    exists p :: p in prunes && p.node == leader && (p.table == TriggerTable || p.table == PriceTable) && !InWindow(r, p.round)
  }

  lemma PrunesCome(prunes: multiset<DuePrune>, a: Action)
    ensures forall p :: p in PrunesAfter(prunes, a) ==> p in prunes || Due(a) == Some(p)
  {
  }

  /** What falls due keeps r, if the trigger delivered does or the prune before it did. */
  lemma NoDropFallsDue(prunes: multiset<DuePrune>, a: Action, leader: string, r: int32)
    requires !DropIsDue(prunes, leader, r) && (a.Prune? ==> DuePrune(a.node, a.table, a.round) in prunes)
    requires a.Deliver? && a.node == leader && a.msg.Trigger? ==> InWindow(r, a.msg.round)
    ensures !DropIsDue(PrunesAfter(prunes, a), leader, r)
    ensures a.Prune? && a.node == leader && a.table == PriceTable ==> InWindow(r, a.round)
  {
    PrunesCome(prunes, a);
  }

  lemma LogKeepsFix(log: seq<Event>, e: Event, leader: string, r: int32)
    requires KeptAfterFix(log, leader, r) && !Drops(e, leader, PriceTable, r)
    ensures KeptAfterFix(log + [e], leader, r)
  {
    forall i, k | 0 <= i < k < |log| + 1 && Emits((log + [e])[i], leader, PriceTable, r)
      ensures !Drops((log + [e])[k], leader, PriceTable, r)
    {
      assert (log + [e])[i] == log[i];
      if k < |log| { assert (log + [e])[k] == log[k]; }
    }
  }

  lemma StepKeepsFix(s: System, a: Action, leader: string, r: int32)
    requires Enabled(s, a) && KeptAfterFix(s.log, leader, r) && !DropIsDue(s.prunes, leader, r)
    requires a.Deliver? && a.node == leader && a.msg.Trigger? ==> InWindow(r, a.msg.round)
    ensures KeptAfterFix(Apply(s, a).log, leader, r) && !DropIsDue(Apply(s, a).prunes, leader, r)
  {
    NoDropFallsDue(s.prunes, a, leader, r);
    var e := EventOf(a, React(s.nodes[a.node], a));
    if e.Some? { LogKeepsFix(s.log, e.value, leader, r); }
  }

  lemma {:induction false} KeepingKeepsFix(s: System, acts: seq<Action>, acts': seq<Action>, leader: string, r: int32)
    requires ValidRun(s, acts) && Keeping(s, acts, acts', leader, r)
    requires KeptAfterFix(Exec(s, acts).log, leader, r) && !DropIsDue(Exec(s, acts).prunes, leader, r)
    ensures KeptAfterFix(Exec(s, acts').log, leader, r) && !DropIsDue(Exec(s, acts').prunes, leader, r)
    decreases |acts'|
  {
    if |acts'| == |acts| {
      assert acts' == acts;
    } else {
      var front, last := acts'[..|acts'| - 1], acts'[|acts'| - 1];
      assert last == acts'[|acts'| - 1];
      KeepingKeepsFix(s, acts, front, leader, r);
      StepKeepsFix(Exec(s, front), last, leader, r);
    }
  }

  lemma PruneEffect(s: System, leader: string, t: TableKind, r0: int32)
    requires Enabled(s, Prune(leader, t, r0))
    ensures var s' := Apply(s, Prune(leader, t, r0));
            && s'.log == s.log + [Pruned(leader, t, r0)] && leader in s'.nodes
            && (t == TriggerTable ==> DuePrune(leader, PriceTable, r0) in s'.prunes)
  {
  }

  /** A due prune of the price table drops the fix without any further message. */
  lemma DueDropsPrice(s: System, acts: seq<Action>, leader: string, r: int32, r0: int32)
    requires ValidRun(s, acts) && leader in Exec(s, acts).nodes && DuePrune(leader, PriceTable, r0) in Exec(s, acts).prunes
    requires Fixed(Exec(s, acts).log, leader, r) && !InWindow(r, r0)
    ensures ValidRun(s, acts + [Prune(leader, PriceTable, r0)])
            && !KeptAfterFix(Exec(s, acts + [Prune(leader, PriceTable, r0)]).log, leader, r)
  {
    OneMore(s, acts, Prune(leader, PriceTable, r0));
    PruneEffect(Exec(s, acts), leader, PriceTable, r0);
    DropEndsFix(Exec(s, acts).log, leader, r, r0);
  }

  lemma DropEndsFix(log: seq<Event>, leader: string, r: int32, r0: int32)
    requires Fixed(log, leader, r) && !InWindow(r, r0)
    ensures !KeptAfterFix(log + [Pruned(leader, PriceTable, r0)], leader, r)
  {
    var log' := log + [Pruned(leader, PriceTable, r0)];
    var i :| 0 <= i < |log| && Emits(log[i], leader, PriceTable, r);
    assert log'[i] == log[i] && Drops(log'[|log|], leader, PriceTable, r);
  }

  lemma StaysFixed(log: seq<Event>, e: Event, leader: string, r: int32)
    requires Fixed(log, leader, r)
    ensures Fixed(log + [e], leader, r)
  {
    var i :| 0 <= i < |log| && Emits(log[i], leader, PriceTable, r);
    assert (log + [e])[i] == log[i];
  }

  /** So does a due prune of the trigger table, which the price table's follows. */
  lemma DueDropsTrigger(s: System, acts: seq<Action>, leader: string, r: int32, r0: int32)
    requires ValidRun(s, acts) && leader in Exec(s, acts).nodes && DuePrune(leader, TriggerTable, r0) in Exec(s, acts).prunes
    requires Fixed(Exec(s, acts).log, leader, r)
    ensures var acts1 := acts + [Prune(leader, TriggerTable, r0)];
            && ValidRun(s, acts1) && leader in Exec(s, acts1).nodes && DuePrune(leader, PriceTable, r0) in Exec(s, acts1).prunes
            && Fixed(Exec(s, acts1).log, leader, r)
  {
    OneMore(s, acts, Prune(leader, TriggerTable, r0));
    PruneEffect(Exec(s, acts), leader, TriggerTable, r0);
    StaysFixed(Exec(s, acts).log, Pruned(leader, TriggerTable, r0), leader, r);
  }

  lemma KeepingMore(s: System, acts: seq<Action>, acts': seq<Action>, leader: string, r: int32, a: Action)
    requires Keeping(s, acts, acts', leader, r) && ValidRun(s, acts' + [a]) && a.Prune?
    ensures Keeping(s, acts, acts' + [a], leader, r)
  {
  }

  lemma DueDropsFix(s: System, acts: seq<Action>, leader: string, r: int32) returns (acts': seq<Action>)
    requires ValidRun(s, acts) && leader in Exec(s, acts).nodes && Keeping(s, acts, acts, leader, r)
    requires Fixed(Exec(s, acts).log, leader, r) && DropIsDue(Exec(s, acts).prunes, leader, r)
    ensures Keeping(s, acts, acts', leader, r) && !KeptAfterFix(Exec(s, acts').log, leader, r)
  {
    var p :| p in Exec(s, acts).prunes && p.node == leader && (p.table == TriggerTable || p.table == PriceTable) && !InWindow(r, p.round);
    var t, r0 := p.table, p.round;
    acts' := acts;
    if t == TriggerTable {
      DueDropsTrigger(s, acts, leader, r, r0);
      KeepingMore(s, acts, acts, leader, r, Prune(leader, TriggerTable, r0));
      acts' := acts + [Prune(leader, TriggerTable, r0)];
    }
    DueDropsPrice(s, acts', leader, r, r0);
    KeepingMore(s, acts, acts', leader, r, Prune(leader, PriceTable, r0));
    acts' := acts' + [Prune(leader, PriceTable, r0)];
  }

  /**
   * The exact condition on what is handled. Whoever leads, a node that has fixed round r keeps
   * it - and with it all nodes agree on r, by RoundAgreement - however the run goes on without
   * a trigger delivered to that node that leaves r out, if and only if it has kept r so far and
   * no prune it has yet to do leaves r out.
   */
  lemma KeepsUntilDropIsDue(s: System, acts: seq<Action>, leader: string, r: int32)
    requires Initial(s) && ValidRun(s, acts) && leader in s.nodes && Fixed(Exec(s, acts).log, leader, r)
    ensures (forall acts' :: Keeping(s, acts, acts', leader, r) ==> KeptAfterFix(Exec(s, acts').log, leader, r))
            <==> KeptAfterFix(Exec(s, acts).log, leader, r) && !DropIsDue(Exec(s, acts).prunes, leader, r)
  {
    NodesStay(s, acts);
    assert Keeping(s, acts, acts, leader, r);
    if DropIsDue(Exec(s, acts).prunes, leader, r) {
      var acts' := DueDropsFix(s, acts, leader, r);
    } else if KeptAfterFix(Exec(s, acts).log, leader, r) {
      forall acts' | Keeping(s, acts, acts', leader, r) ensures KeptAfterFix(Exec(s, acts').log, leader, r) {
        KeepingKeepsFix(s, acts, acts', leader, r);
      }
    }
  }

  // ---------------------------------------------------------------- a run

  lemma Ticks(run: Trace, acts: seq<Action>, s: System, leader: string, now: int)
    returns (acts': seq<Action>, s': System)
    requires Closed(run, leader) && run(acts, s) && leader in s.nodes && s.nodes[leader].id == leader
    requires s.nodes[leader].roundId < 10
    ensures run(acts', s')
    ensures leader in s'.nodes && s'.log == s.log + [Published(Trigger(leader, s.nodes[leader].roundId + 1, now))]
    ensures s'.nodes[leader] == s.nodes[leader].(roundId := s.nodes[leader].roundId + 1)
  {
    Step(run, acts, s, LeaderTick(leader, now), leader);
    acts', s' := acts + [LeaderTick(leader, now)], Apply(s, LeaderTick(leader, now));
  }

  /** The leader triggers rounds 2 and 3 and fixes round 3; trigger 2 is still under way. */
  lemma FixesThree(run: Trace, s0: System, leader: string) returns (acts: seq<Action>, s: System)
    requires Closed(run, leader) && run([], s0) && leader in s0.nodes && s0.nodes[leader] == NewNode(leader)
    ensures run(acts, s)
    ensures Published(Trigger(leader, 2, 100)) in s.log && Published(PriceFix(leader, 3, 1, 200)) in s.log
  {
    var acts1, s1 := Ticks(run, [], s0, leader, 100);
    var acts2, s2 := Ticks(run, acts1, s1, leader, 200);
    acts, s := FixesAlone(run, acts2, s2, leader, 3, 200, 1);
  }

  /**
   * A run with one fixed leader in which the leader fixes round 3 twice, at 1 and at 5: it
   * handles the trigger of round 2 after it has fixed round 3.
   */
  lemma LateTriggerFixesTwice(leader: string) returns (s0: System, acts: seq<Action>, ts: int)
    ensures Initial(s0) && ValidRun(s0, acts) && FixedLeader(acts, leader)
    ensures Published(PriceFix(leader, 3, 1, 200)) in Exec(s0, acts).log
    ensures Published(PriceFix(leader, 3, 5, ts)) in Exec(s0, acts).log
  {
    s0 := System(map[leader := NewNode(leader)], multiset{}, multiset{}, [], []);
    var run := TracesFrom(s0, leader);
    TracesAreClosed(s0, leader);
    var acts1, s1 := FixesThree(run, s0, leader);
    WindowIsLastTen(3, 2);
    FixIsFixed(s1.log, leader, 3, 1, 200);
    assert Triggered(s1.log, 2);
    acts, ts := FixedAgainAtAnyPrice(s0, acts1, leader, 3, 5);
  }

  lemma FixIsFixed(log: seq<Event>, leader: string, r: int32, v: int64, ts: int)
    requires Published(PriceFix(leader, r, v, ts)) in log
    ensures Fixed(log, leader, r)
  {
    var i :| 0 <= i < |log| && log[i] == Published(PriceFix(leader, r, v, ts));
    assert Emits(log[i], leader, PriceTable, r);
  }
}
