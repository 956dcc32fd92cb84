/** No tracked block is lost, in any interleaving and through any crash. */
module ListenerSafety {
  import opened Wrappers
  import opened Listener

  /** Every event of the block has been handed to the worker queue. */
  ghost predicate Dispatched(s: State, b: nat) {
    forall e :: e in s.chain(b) ==> e in s.worked
  }

  ghost predicate InHistory(s: State, b: nat) {
    exists id :: id in s.history && s.history[id].block == b
  }

  ghost predicate InProcess(s: State, b: nat) {
    exists id :: id in s.process && s.process[id].block == b
  }

  ghost predicate Recorded(s: State, b: nat) {
    b in s.table || Dispatched(s, b)
  }

  /** Dispatched, in the table, in the history queue, or given up unrecorded by a job that ran out. */
  ghost predicate Covered(s: State, b: nat) {
    Recorded(s, b) || InHistory(s, b) || b in s.givenUp
  }

  /** A job for the block ran out after the first `mark` that did. */
  ghost predicate RanOut(s: State, b: nat, mark: nat) {
    exists i :: mark <= i < |s.ranOut| && s.ranOut[i] == b
  }

  /** Dispatched, or some job still holds the block, or it was given up or a job for it ran out since. */
  ghost predicate HasJob(s: State, b: nat, mark: nat) {
    Dispatched(s, b) || InHistory(s, b) || InProcess(s, b) || b in s.givenUp || RanOut(s, b, mark)
  }

  // ---------------------------------------------------------------- what no step undoes

  ghost predicate Stable(s: State, s': State) {
    && (forall b: nat :: Recorded(s, b) ==> Recorded(s', b))
    && (forall b: nat :: Covered(s, b) ==> Covered(s', b))
    && |s.ranOut| <= |s'.ranOut|
    && (forall b: nat, mark: nat :: mark <= |s.ranOut| && HasJob(s, b, mark) ==> HasJob(s', b, mark))
    && (s.observed.Some? ==> s'.observed.Some? && s.observed.value <= s'.observed.value)
    && (s.start.Some? ==> s'.start == s.start)
    && s'.init == s.init
  }

  /** A history job goes on, or ends with its block recorded or given up, and passed on or out. */
  ghost predicate HistoryAccounted(s: State, s': State, id: nat)
    requires id in s.history
  {
    var b := s.history[id].block;
    || (id in s'.history && s'.history[id].block == b)
    || ((Recorded(s', b) || b in s'.givenUp) && (InProcess(s', b) || RanOut(s', b, |s.ranOut|)))
  }

  ghost predicate ProcessAccounted(s: State, s': State, id: nat)
    requires id in s.process
  {
    var b := s.process[id].block;
    (id in s'.process && s'.process[id].block == b) || Dispatched(s', b) || RanOut(s', b, |s.ranOut|)
  }

  lemma RanOutStays(s: State, s': State, b: nat, mark: nat)
    requires s.ranOut <= s'.ranOut && mark <= |s.ranOut|
    ensures RanOut(s, b, mark) || RanOut(s', b, |s.ranOut|) ==> RanOut(s', b, mark)
  {
    if RanOut(s, b, mark) {
      var i :| mark <= i < |s.ranOut| && s.ranOut[i] == b;
      assert s'.ranOut[i] == b;
    }
  }

  lemma JustRanOut(s: State, s': State, b: nat)
    requires s'.ranOut == s.ranOut + [b]
    ensures RanOut(s', b, |s.ranOut|) && RanOut(s', b, 0) && forall x: nat :: RanOut(s, x, 0) ==> RanOut(s', x, 0)
  {
    assert s'.ranOut[|s.ranOut|] == b;
    forall x: nat | RanOut(s, x, 0) ensures RanOut(s', x, 0) { RanOutStays(s, s', x, 0); }
  }

  lemma AccountedIsStable(s: State, s': State)
    requires s'.chain == s.chain && s'.init == s.init
    requires s.worked <= s'.worked && s.givenUp <= s'.givenUp && s.ranOut <= s'.ranOut
    requires forall b :: b in s.table && b !in s'.table ==> Dispatched(s', b)
    requires forall id :: id in s.history ==> HistoryAccounted(s, s', id)
    requires forall id :: id in s.process ==> ProcessAccounted(s, s', id)
    requires s.observed.Some? ==> s'.observed.Some? && s.observed.value <= s'.observed.value
    requires s.start.Some? ==> s'.start == s.start
    ensures Stable(s, s')
  {
    forall b: nat | Dispatched(s, b) ensures Dispatched(s', b) {
    }
    forall b: nat | InHistory(s, b) ensures Covered(s', b) && HasJob(s', b, |s.ranOut|) {
      var id :| id in s.history && s.history[id].block == b;
      assert HistoryAccounted(s, s', id);
    }
    forall b: nat | InProcess(s, b) ensures HasJob(s', b, |s.ranOut|) {
      var id :| id in s.process && s.process[id].block == b;
      assert ProcessAccounted(s, s', id);
    }
    forall b: nat, mark: nat | mark <= |s.ranOut| && HasJob(s, b, mark) ensures HasJob(s', b, mark) {
      RanOutStays(s, s', b, mark);
    }
  }

  // ---------------------------------------------------------------- jobs

  ghost predicate HistoryInv(s: State, job: HistoryJob) {
    && (job.pc == Querying || job.pc == Pushing ==> job.recorded)
    && (job.recorded ==> Recorded(s, job.block))
  }

  ghost predicate ProcessInv(s: State, job: ProcessJob) {
    && job.events == s.chain(job.block)
    && (job.next.Some? ==> job.next.value <= |job.events|)
    && (job.next.Some? ==> forall i :: 0 <= i < job.next.value ==> job.events[i] in s.worked)
  }

  ghost predicate JobsInv(s: State) {
    && (forall id :: id in s.history ==> id < s.nextId && HistoryInv(s, s.history[id]))
    && (forall id :: id in s.process ==> id < s.nextId && ProcessInv(s, s.process[id]))
    && (forall id :: id in s.latest ==> id < s.nextId)
    && (forall b :: b in s.givenUp ==> RanOut(s, b, 0))
    && s.readAt <= |s.ranOut| && s.recoveredAt <= |s.ranOut|
  }

  lemma AddedJobs(s: State, b: nat)
    requires JobsInv(s)
    ensures var s' := WithHistory(s, b); JobsInv(s') && Stable(s, s') && InHistory(s', b)
    ensures var s' := WithProcess(s, b); JobsInv(s') && Stable(s, s') && InProcess(s', b)
  {
    var h, p := WithHistory(s, b), WithProcess(s, b);
    assert s.nextId in h.history && h.history[s.nextId].block == b;
    assert s.nextId in p.process && p.process[s.nextId].block == b;
    AccountedIsStable(s, h);
    AccountedIsStable(s, p);
  }

  lemma StableTrans(a: State, b: State, c: State)
    requires Stable(a, b) && Stable(b, c)
    ensures Stable(a, c)
  {
  }

  /** The parts of the state that say where blocks are; everything else may change freely. */
  ghost predicate SameStore(s: State, s': State) {
    && s'.chain == s.chain && s'.init == s.init && s'.observed == s.observed && s'.table == s.table
    && s'.history == s.history && s'.process == s.process && s'.worked == s.worked && s'.start == s.start
    && s'.givenUp == s.givenUp && s'.ranOut == s.ranOut
  }

  lemma SameStoreIsStable(s: State, s': State)
    requires SameStore(s, s')
    ensures Stable(s, s') && Stable(s', s)
  {
    AccountedIsStable(s, s');
    AccountedIsStable(s', s);
  }

  // ---------------------------------------------------------------- the invariant

  ghost predicate ObsOk(s: State, obs: nat) {
    s.observed.Some? && obs <= s.observed.value
  }

  ghost predicate LatestInv(s: State, pc: LatestPc) {
    match pc
    case FetchHeight => true
    case ReadObserved(_) => true
    case Insert(obs, h) => obs < h && ObsOk(s, obs)
    case Upsert(obs, h) => obs < h && ObsOk(s, obs) && forall b: nat :: obs < b <= h ==> Recorded(s, b)
    case Query(obs, h, b) => obs < b <= h && ObsOk(s, obs) && forall x: nat :: obs < x < b ==> HasJob(s, x, 0)
    case Push(obs, h, b) => obs < b <= h && ObsOk(s, obs) && forall x: nat :: obs < x < b ==> HasJob(s, x, 0)
    case Requeue(obs, h, b) => obs < b <= h && ObsOk(s, obs) && forall x: nat :: obs < x < b ==> HasJob(s, x, 0)
  }

  /** The observed block State.add has read: absent only while there is none yet. */
  ghost predicate ReadOk(s: State, o: Option<nat>) {
    if o.Some? then ObsOk(s, o.value) else s.observed.None?
  }

  /** Every block tracked when the table was read is in `todo` or has a job. */
  ghost predicate SeenOk(s: State, seen: Option<nat>, todo: set<nat>, mark: nat) {
    && ReadOk(s, seen)
    && (seen.Some? && s.start.Some? ==>
          forall b: nat :: s.start.value <= b <= seen.value ==> b in todo || HasJob(s, b, mark))
  }

  ghost predicate Filled(s: State, lo: nat, b: nat, mark: nat) {
    lo <= b && forall x: nat :: lo <= x < b ==> Covered(s, x) && HasJob(s, x, mark)
  }

  ghost predicate AddInv(s: State, pc: AddPc, mark: nat) {
    mark <= |s.ranOut| &&
    match pc
    case AddFetchHeight => true
    case AddReadObserved(_) => true
    case AddReadTable(_, o) => ReadOk(s, o)
    case AddRequeue(_, o, todo, seen) =>
      ReadOk(s, o) && SeenOk(s, seen, todo, mark) && (o.Some? ==> seen.Some? && o.value <= seen.value)
    case AddFill(_, lo, b, seen) =>
      SeenOk(s, seen, {}, mark) && Filled(s, lo, b, mark) && (seen.Some? ==> lo <= seen.value + 1)
    case AddStartAt(_) => s.observed.None?
  }

  /** Each block from the start block up to the watermark is covered. */
  ghost predicate NoneLost(s: State) {
    && (s.observed.Some? <==> s.start.Some?)
    && (s.start.Some? ==> forall b: nat :: s.start.value <= b <= s.observed.value ==> Covered(s, b))
  }

  ghost predicate HistoryKept(s: State) {
    && (s.recovered.Some? ==> s.start.Some? && forall b: nat :: s.start.value <= b <= s.recovered.value ==> HasJob(s, b, s.recoveredAt))
    && (forall obs, h, b: nat :: (obs, h) in s.settled && obs < b <= h ==> HasJob(s, b, 0))
    && (forall b :: b in s.keyed ==> HasJob(s, b, 0))
  }

  ghost predicate Inv(s: State) {
    && JobsInv(s) && NoneLost(s) && HistoryKept(s)
    && (forall id :: id in s.latest ==> LatestInv(s, s.latest[id]))
    && (s.adding.Some? ==> AddInv(s, s.adding.value, s.readAt))
  }

  /** The step from s to s' keeps the invariant and undoes nothing. */
  ghost predicate Keeps(s: State, s': State) {
    Inv(s') && Stable(s, s')
  }

  // ---------------------------------------------------------------- effects

  predicate SameControl(s: State, s': State) {
    && s'.latest == s.latest && s'.adding == s.adding && s'.keyed == s.keyed
    && s'.settled == s.settled && s'.recovered == s.recovered && s'.readAt == s.readAt && s'.recoveredAt == s.recoveredAt
  }

  lemma LatestFrame(s: State, s': State, pc: LatestPc)
    requires Stable(s, s') && LatestInv(s, pc)
    ensures LatestInv(s', pc)
  {
  }

  lemma AddFrame(s: State, s': State, pc: AddPc, mark: nat)
    requires Stable(s, s') && NoneLost(s) && AddInv(s, pc, mark)
    requires s.observed.None? ==> s'.observed.None?
    requires s.start.None? ==> s'.start.None?
    ensures AddInv(s', pc, mark)
  {
  }

  /** An effect on tables and queues that is stable and leaves the watermark keeps the invariant. */
  lemma EffectKeepsInv(s: State, s': State)
    requires Inv(s) && Stable(s, s') && JobsInv(s') && SameControl(s, s')
    requires s'.observed == s.observed && s'.start == s.start
    ensures Inv(s')
  {
    forall id | id in s'.latest ensures LatestInv(s', s'.latest[id]) { LatestFrame(s, s', s.latest[id]); }
    if s'.adding.Some? { AddFrame(s, s', s.adding.value, s.readAt); }
  }

  lemma TableGrows(s: State, blocks: set<nat>)
    requires Inv(s)
    ensures var s' := s.(table := s.table + blocks);
            Inv(s') && Stable(s, s') && forall b :: b in blocks ==> Recorded(s', b)
  {
    var s' := s.(table := s.table + blocks);
    AccountedIsStable(s, s');
    assert JobsInv(s');
    EffectKeepsInv(s, s');
  }

  lemma HistoryAdded(s: State, b: nat)
    requires Inv(s)
    ensures var s' := WithHistory(s, b); Inv(s') && Stable(s, s') && InHistory(s', b)
  {
    AddedJobs(s, b);
    EffectKeepsInv(s, WithHistory(s, b));
  }

  lemma ProcessAdded(s: State, b: nat)
    requires Inv(s)
    ensures var s' := WithProcess(s, b); Inv(s') && Stable(s, s') && InProcess(s', b)
  {
    AddedJobs(s, b);
    EffectKeepsInv(s, WithProcess(s, b));
  }

  lemma KeyedAdded(s: State, b: nat)
    requires Inv(s)
    ensures var s' := WithKeyed(s, b); Inv(s') && Stable(s, s') && HasJob(s', b, 0)
  {
    if b in s.keyed {
      SameStoreIsStable(s, s);
    } else {
      HistoryAdded(s, b);
      var h := WithHistory(s, b);
      var s' := WithKeyed(s, b);
      SameStoreIsStable(h, s');
      ControlKeepsInv(h, s');
      StableTrans(s, h, s');
    }
  }

  /** A change of control state alone, given what it newly claims. */
  lemma ControlKeepsInv(s: State, s': State)
    requires Inv(s) && SameStore(s, s') && s.nextId <= s'.nextId
    requires forall id :: id in s'.latest ==> id < s'.nextId && LatestInv(s, s'.latest[id])
    requires s'.adding.Some? ==> AddInv(s, s'.adding.value, s'.readAt)
    requires s'.readAt <= |s.ranOut| && s'.recoveredAt <= |s.ranOut|
    requires forall b :: b in s'.keyed ==> HasJob(s, b, 0)
    requires forall obs, h, b: nat :: (obs, h) in s'.settled && obs < b <= h ==> HasJob(s, b, 0)
    requires s'.recovered.Some? ==> s.start.Some? && forall b: nat :: s.start.value <= b <= s'.recovered.value ==> HasJob(s, b, s'.recoveredAt)
    ensures Inv(s') && Stable(s, s')
  {
    SameStoreIsStable(s, s');
    forall id | id in s'.latest ensures LatestInv(s', s'.latest[id]) { LatestFrame(s, s', s'.latest[id]); }
    if s'.adding.Some? { AddFrame(s, s', s'.adding.value, s'.readAt); }
    assert JobsInv(s');
  }

  // ---------------------------------------------------------------- [latest] steps

  lemma LatestGoes(s: State, id: nat, pc: LatestPc)
    requires Inv(s) && id in s.latest && LatestInv(s, pc)
    ensures Keeps(s, LatestAt(s, id, pc))
  {
    ControlKeepsInv(s, LatestAt(s, id, pc));
  }

  lemma LatestStops(s: State, id: nat)
    requires Inv(s) && id in s.latest
    ensures Keeps(s, LatestEnds(s, id))
  {
    ControlKeepsInv(s, LatestEnds(s, id));
  }

  lemma LatestSettles(s: State, id: nat, obs: nat, h: nat)
    requires Inv(s) && id in s.latest && forall b: nat :: obs < b <= h ==> HasJob(s, b, 0)
    ensures Keeps(s, LatestReturns(s, id, obs, h))
  {
    ControlKeepsInv(s, LatestReturns(s, id, obs, h));
  }

  /** The upsert of a latest job: every block it newly puts under the watermark is recorded. */
  lemma WatermarkRaised(s: State, obs: nat, h: nat)
    requires Inv(s) && ObsOk(s, obs) && forall b: nat :: obs < b <= h ==> Recorded(s, b)
    ensures var s' := s.(observed := Raised(s.observed, h)); Inv(s') && Stable(s, s')
  {
    var s' := s.(observed := Raised(s.observed, h));
    AccountedIsStable(s, s');
    assert JobsInv(s');
    forall id | id in s'.latest ensures LatestInv(s', s'.latest[id]) { LatestFrame(s, s', s.latest[id]); }
    if s'.adding.Some? { AddFrame(s, s', s.adding.value, s.readAt); }
  }

  lemma LatestInsertsKeepsInv(s: State, id: nat, out: Outcome, obs: nat, h: nat)
    requires Inv(s) && id in s.latest && LatestInv(s, Insert(obs, h))
    ensures Keeps(s, LatestInserts(s, id, out, obs, h))
  {
    if out.Applied() {
      var s1 := s.(table := s.table + After(obs, h));
      TableGrows(s, After(obs, h));
      LatestFrame(s, s1, Insert(obs, h));
      LatestGoes(s1, id, if out.Ok? then Upsert(obs, h) else Requeue(obs, h, obs + 1));
      StableTrans(s, s1, LatestInserts(s, id, out, obs, h));
    } else {
      LatestGoes(s, id, Requeue(obs, h, obs + 1));
    }
  }

  lemma LatestUpsertsKeepsInv(s: State, id: nat, out: Outcome, obs: nat, h: nat)
    requires Inv(s) && id in s.latest && LatestInv(s, Upsert(obs, h))
    ensures Keeps(s, LatestUpserts(s, id, out, obs, h))
  {
    if out.Applied() {
      var s1 := s.(observed := Raised(s.observed, h));
      WatermarkRaised(s, obs, h);
      LatestFrame(s, s1, Upsert(obs, h));
      LatestGoes(s1, id, if out.Ok? then Query(obs, h, obs + 1) else Requeue(obs, h, obs + 1));
      StableTrans(s, s1, LatestUpserts(s, id, out, obs, h));
    } else {
      LatestGoes(s, id, Requeue(obs, h, obs + 1));
    }
  }

  /** With block b done as well, the job settles or goes on to `next`. */
  lemma LatestMovesOn(s: State, id: nat, obs: nat, h: nat, b: nat, next: LatestPc)
    requires Inv(s) && id in s.latest && LatestInv(s, Requeue(obs, h, b)) && HasJob(s, b, 0)
    requires next == Query(obs, h, b + 1) || next == Requeue(obs, h, b + 1)
    ensures Keeps(s, if b == h then LatestReturns(s, id, obs, h) else LatestAt(s, id, next))
  {
    assert forall x: nat :: obs < x <= b ==> HasJob(s, x, 0);
    if b == h { LatestSettles(s, id, obs, h); } else { LatestGoes(s, id, next); }
  }

  lemma LatestPushesKeepsInv(s: State, id: nat, out: Outcome, obs: nat, h: nat, b: nat)
    requires Inv(s) && id in s.latest && LatestInv(s, Requeue(obs, h, b))
    ensures Keeps(s, LatestPushes(s, id, out, obs, h, b))
  {
    if out.Applied() {
      var s1 := WithProcess(s, b);
      ProcessAdded(s, b);
      LatestFrame(s, s1, Requeue(obs, h, b));
      if out.Ok? { LatestMovesOn(s1, id, obs, h, b, Query(obs, h, b + 1)); } else { LatestGoes(s1, id, Requeue(obs, h, b)); }
      StableTrans(s, s1, LatestPushes(s, id, out, obs, h, b));
    } else {
      LatestGoes(s, id, Requeue(obs, h, b));
    }
  }

  lemma LatestRequeuesKeepsInv(s: State, id: nat, out: Outcome, obs: nat, h: nat, b: nat)
    requires Inv(s) && id in s.latest && LatestInv(s, Requeue(obs, h, b))
    ensures Keeps(s, LatestRequeues(s, id, out, obs, h, b))
  {
    if out.Applied() {
      var s1 := WithKeyed(s, b);
      KeyedAdded(s, b);
      LatestFrame(s, s1, Requeue(obs, h, b));
      if out.Ok? { LatestMovesOn(s1, id, obs, h, b, Requeue(obs, h, b + 1)); } else { LatestStops(s1, id); }
      StableTrans(s, s1, LatestRequeues(s, id, out, obs, h, b));
    } else {
      LatestStops(s, id);
    }
  }

  lemma LatestReadsKeepsInv(s: State, id: nat, out: Outcome, h: nat)
    requires Inv(s) && id in s.latest
    ensures Keeps(s, LatestReads(s, id, out, h))
  {
    if !out.Ok? || s.observed.None? {
      LatestStops(s, id);
    } else {
      var obs := WorkFrom(s.observed.value, h);
      if h > obs { LatestGoes(s, id, Insert(obs, h)); } else { LatestSettles(s, id, obs, h); }
    }
  }

  lemma LatestKeepsInv(s: State, id: nat, out: Outcome, height: nat)
    requires Inv(s) && id in s.latest
    ensures Keeps(s, LatestStep(s, id, out, height))
  {
    match s.latest[id]
    case FetchHeight => if out.Ok? { LatestGoes(s, id, ReadObserved(height)); } else { LatestStops(s, id); }
    case ReadObserved(h) => LatestReadsKeepsInv(s, id, out, h);
    case Insert(obs, h) => LatestInsertsKeepsInv(s, id, out, obs, h);
    case Upsert(obs, h) => LatestUpsertsKeepsInv(s, id, out, obs, h);
    case Query(obs, h, b) => LatestGoes(s, id, if out.Ok? then Push(obs, h, b) else Requeue(obs, h, b));
    case Push(obs, h, b) => LatestPushesKeepsInv(s, id, out, obs, h, b);
    case Requeue(obs, h, b) => LatestRequeuesKeepsInv(s, id, out, obs, h, b);
  }

  // ---------------------------------------------------------------- State.add steps

  lemma AddGoes(s: State, pc: AddPc)
    requires Inv(s) && AddInv(s, pc, s.readAt)
    ensures Keeps(s, AddAt(s, pc))
  {
    ControlKeepsInv(s, AddAt(s, pc));
  }

  lemma AddStops(s: State)
    requires Inv(s)
    ensures Keeps(s, AddFails(s))
  {
    ControlKeepsInv(s, AddFails(s));
  }

  lemma AddQueuesKeepsInv(s: State, out: Outcome, b: nat, pc: AddPc, next: AddPc)
    requires Inv(s) && AddInv(s, pc, s.readAt)
    requires || (pc.AddRequeue? && next == pc.(todo := pc.todo - {b}))
             || (pc.AddFill? && b == pc.b && next == pc.(b := b + 1))
    ensures Keeps(s, AddQueues(s, out, b, next))
  {
    if out.Applied() {
      var s1 := WithHistory(s, b);
      HistoryAdded(s, b);
      AddFrame(s, s1, pc, s.readAt);
      assert AddInv(s1, next, s1.readAt);
      if out.Ok? { AddGoes(s1, next); } else { AddStops(s1); }
      StableTrans(s, s1, AddQueues(s, out, b, next));
    } else {
      AddStops(s);
    }
  }

  /** Raising the watermark after State.add: what it newly covers has been queued before. */
  lemma WatermarkSet(s: State, to: nat, first: nat)
    requires Inv(s) && s.adding.None? && (s.observed.Some? ==> first <= s.observed.value + 1)
    requires forall x: nat :: first <= x <= to ==> Covered(s, x)
    ensures Keeps(s, s.(observed := Raised(s.observed, to), start := if s.start.None? then Some(first) else s.start))
  {
    var s' := s.(observed := Raised(s.observed, to), start := if s.start.None? then Some(first) else s.start);
    AccountedIsStable(s, s');
    assert JobsInv(s');
    forall id | id in s'.latest ensures LatestInv(s', s'.latest[id]) { LatestFrame(s, s', s.latest[id]); }
  }

  lemma AddReturns(s: State, w: nat)
    requires Inv(s) && s.start.Some? && forall b: nat :: s.start.value <= b <= w ==> HasJob(s, b, s.readAt)
    ensures Keeps(s, s.(recovered := Some(w), recoveredAt := s.readAt))
  {
    ControlKeepsInv(s, s.(recovered := Some(w), recoveredAt := s.readAt));
  }

  lemma AddRaisesKeepsInv(s: State, out: Outcome, to: nat, first: nat, seen: Option<nat>)
    requires Inv(s) && SeenOk(s, seen, {}, s.readAt) && (seen.Some? ==> first <= seen.value + 1)
    requires forall x: nat :: first <= x <= to ==> Covered(s, x) && HasJob(s, x, s.readAt)
    ensures Keeps(s, AddRaises(s, out, to, first, seen))
  {
    var s0 := AddFails(s);
    AddStops(s);
    SameStoreIsStable(s, s0);
    if out.Applied() {
      assert forall x: nat :: first <= x <= to ==> Covered(s0, x);
      WatermarkSet(s0, to, first);
      var s1 := s0.(observed := Raised(s.observed, to), start := if s.start.None? then Some(first) else s.start);
      StableTrans(s, s0, s1);
      if out.Ok? {
        var w := if seen.Some? then Max(seen.value, to) else to;
        forall b: nat | s1.start.value <= b <= w ensures HasJob(s1, b, s1.readAt) {
          assert HasJob(s, b, s.readAt);
        }
        AddReturns(s1, w);
        StableTrans(s, s1, s1.(recovered := Some(w), recoveredAt := s1.readAt));
      }
    }
  }

  /** A tracked block outside the table is dispatched, queued or given up, hence has a job. */
  lemma TableReadSeesAll(s: State)
    requires Inv(s)
    ensures SeenOk(s, s.observed, s.table, |s.ranOut|)
  {
    if s.start.Some? {
      forall b: nat | s.start.value <= b <= s.observed.value ensures b in s.table || HasJob(s, b, |s.ranOut|) {
        assert Covered(s, b);
      }
    }
  }

  lemma AddReadsKeepsInv(s: State, out: Outcome, n: nat)
    requires Inv(s) && s.adding.Some?
    requires s.adding.value.AddFetchHeight? || s.adding.value.AddReadObserved? || s.adding.value.AddReadTable?
    ensures Keeps(s, AddStep(s, out, n))
  {
    TableReadSeesAll(s);
    if out.Ok? {
      match s.adding.value
      case AddFetchHeight => AddGoes(s, AddReadObserved(n));
      case AddReadObserved(h) => AddGoes(s, AddReadTable(h, s.observed));
      case AddReadTable(h, o) => ControlKeepsInv(s, AddReads(s, h, o));
    } else {
      AddStops(s);
    }
  }

  lemma AddLeavesTable(s: State, h: nat, o: Option<nat>, seen: Option<nat>)
    requires Inv(s) && AddInv(s, AddRequeue(h, o, {}, seen), s.readAt)
    ensures AddInv(s, AddAfterTable(s, h, o, seen), s.readAt)
  {
    if o.Some? {
      assert Filled(s, o.value + 1, o.value + 1, s.readAt);
    } else if s.init.Some? {
      assert Filled(s, s.init.value, s.init.value, s.readAt);
    }
  }

  lemma AddRequeueKeepsInv(s: State, out: Outcome, n: nat)
    requires Inv(s) && s.adding.Some? && s.adding.value.AddRequeue?
    ensures Keeps(s, AddStep(s, out, n))
  {
    var pc := s.adding.value;
    if pc.todo == {} {
      AddLeavesTable(s, pc.height, pc.observed, pc.seen);
      AddGoes(s, AddAfterTable(s, pc.height, pc.observed, pc.seen));
    } else if n !in pc.todo {
      SameStoreIsStable(s, s);
    } else {
      AddQueuesKeepsInv(s, out, n, pc, pc.(todo := pc.todo - {n}));
    }
  }

  lemma AddFillKeepsInv(s: State, out: Outcome, n: nat)
    requires Inv(s) && s.adding.Some? && s.adding.value.AddFill?
    ensures Keeps(s, AddStep(s, out, n))
  {
    var pc := s.adding.value;
    if pc.b <= pc.height {
      AddQueuesKeepsInv(s, out, pc.b, pc, pc.(b := pc.b + 1));
    } else {
      AddRaisesKeepsInv(s, out, pc.height, pc.lo, pc.seen);
    }
  }

  lemma AddStartKeepsInv(s: State, out: Outcome, n: nat)
    requires Inv(s) && s.adding.Some? && s.adding.value.AddStartAt?
    ensures Keeps(s, AddStep(s, out, n))
  {
    var h := s.adding.value.height;
    if h == 0 {
      AddStops(s);
    } else {
      AddRaisesKeepsInv(s, out, h - 1, h, None);
    }
  }

  lemma AddKeepsInv(s: State, out: Outcome, n: nat)
    requires Inv(s) && s.adding.Some?
    ensures Keeps(s, AddStep(s, out, n))
  {
    match s.adding.value
    case AddRequeue(_, _, _, _) => AddRequeueKeepsInv(s, out, n);
    case AddFill(_, _, _, _) => AddFillKeepsInv(s, out, n);
    case AddStartAt(_) => AddStartKeepsInv(s, out, n);
    case _ => AddReadsKeepsInv(s, out, n);
  }

  // ---------------------------------------------------------------- [history] and [processEvent] steps

  lemma HistoryGoes(s: State, id: nat, job: HistoryJob)
    requires Inv(s) && id in s.history && job.block == s.history[id].block && HistoryInv(s, job)
    ensures var s' := s.(history := s.history[id := job]); Inv(s') && Stable(s, s')
  {
    var s' := s.(history := s.history[id := job]);
    AccountedIsStable(s, s');
    EffectKeepsInv(s, s');
  }

  lemma HistoryOut(s: State, id: nat, job: HistoryJob)
    requires Inv(s) && id in s.history && job.block == s.history[id].block && HistoryInv(s, job)
    ensures Keeps(s, HistoryRunsOut(s, id, job))
  {
    var s' := HistoryRunsOut(s, id, job);
    assert Recorded(s, job.block) ==> Recorded(s', job.block);
    JustRanOut(s, s', job.block);
    AccountedIsStable(s, s');
    EffectKeepsInv(s, s');
  }

  lemma HistoryAttemptFails(s: State, id: nat, job: HistoryJob)
    requires Inv(s) && id in s.history && job.block == s.history[id].block && HistoryInv(s, job)
    ensures Keeps(s, HistoryFails(s, id, job))
  {
    if job.attempts + 1 < ATTEMPTS {
      HistoryGoes(s, id, job.(attempts := job.attempts + 1, pc := Waiting));
    } else {
      HistoryOut(s, id, job);
    }
  }

  lemma HistoryLeaves(s: State, id: nat)
    requires id in s.history && Recorded(s, s.history[id].block) && InProcess(s, s.history[id].block)
    ensures Stable(s, s.(history := s.history - {id}))
  {
    var s', b := s.(history := s.history - {id}), s.history[id].block;
    assert InProcess(s', b) && Recorded(s', b);
    AccountedIsStable(s, s');
  }

  lemma HistoryCompletes(s: State, id: nat)
    requires Inv(s) && id in s.history && Recorded(s, s.history[id].block) && InProcess(s, s.history[id].block)
    ensures var s' := s.(history := s.history - {id}); Inv(s') && Stable(s, s')
  {
    HistoryLeaves(s, id);
    EffectKeepsInv(s, s.(history := s.history - {id}));
  }

  lemma HistoryInsertsKeepsInv(s: State, id: nat, out: Outcome)
    requires Inv(s) && id in s.history
    ensures Keeps(s, HistoryInserts(s, id, s.history[id], out))
  {
    var job := s.history[id];
    assert HistoryInv(s, job);
    if out.Applied() {
      var job1, s1 := job.(recorded := true), s.(table := s.table + {job.block});
      TableGrows(s, {job.block});
      assert HistoryInv(s1, job1);
      if out.Ok? { HistoryGoes(s1, id, job1.(pc := Querying)); } else { HistoryAttemptFails(s1, id, job1); }
      StableTrans(s, s1, HistoryInserts(s, id, job, out));
    } else {
      HistoryAttemptFails(s, id, job);
    }
  }

  lemma HistoryHandsOverKeepsInv(s: State, id: nat, out: Outcome)
    requires Inv(s) && id in s.history && s.history[id].pc == Pushing
    ensures Keeps(s, HistoryHandsOver(s, id, s.history[id], out))
  {
    var job := s.history[id];
    assert HistoryInv(s, job);
    if out.Applied() {
      var s1 := WithProcess(s, job.block);
      ProcessAdded(s, job.block);
      assert HistoryInv(s1, job);
      assert s.nextId in s1.process && s1.process[s.nextId].block == job.block;
      if out.Ok? { HistoryCompletes(s1, id); } else { HistoryAttemptFails(s1, id, job); }
      StableTrans(s, s1, HistoryHandsOver(s, id, job, out));
    } else {
      HistoryAttemptFails(s, id, job);
    }
  }

  lemma HistoryKeepsInv(s: State, id: nat, out: Outcome)
    requires Inv(s) && id in s.history
    ensures Keeps(s, HistoryStep(s, id, out))
  {
    var job := s.history[id];
    assert HistoryInv(s, job);
    match job.pc
    case Waiting => HistoryGoes(s, id, job.(pc := Recording));
    case Recording => HistoryInsertsKeepsInv(s, id, out);
    case Querying => if out.Ok? { HistoryGoes(s, id, job.(pc := Pushing)); } else { HistoryAttemptFails(s, id, job); }
    case Pushing => HistoryHandsOverKeepsInv(s, id, out);
  }

  lemma ProcessGoes(s: State, id: nat, job: ProcessJob)
    requires Inv(s) && id in s.process && job.block == s.process[id].block && ProcessInv(s, job)
    ensures var s' := s.(process := s.process[id := job]); Inv(s') && Stable(s, s')
  {
    var s' := s.(process := s.process[id := job]);
    AccountedIsStable(s, s');
    EffectKeepsInv(s, s');
  }

  lemma ProcessOut(s: State, id: nat, job: ProcessJob)
    requires Inv(s) && id in s.process && job.block == s.process[id].block
    ensures Keeps(s, ProcessRunsOut(s, id, job))
  {
    var s' := ProcessRunsOut(s, id, job);
    JustRanOut(s, s', job.block);
    AccountedIsStable(s, s');
    EffectKeepsInv(s, s');
  }

  lemma ProcessAttemptFails(s: State, id: nat, job: ProcessJob)
    requires Inv(s) && id in s.process && job == s.process[id]
    ensures Keeps(s, ProcessFails(s, id, job))
  {
    if job.attempts + 1 < ATTEMPTS {
      ProcessGoes(s, id, job.(attempts := job.attempts + 1, next := None));
    } else {
      ProcessOut(s, id, job);
    }
  }

  lemma EventWorked(s: State, e: nat)
    requires Inv(s)
    ensures var s' := s.(worked := s.worked + {e}); Inv(s') && Stable(s, s')
  {
    var s' := s.(worked := s.worked + {e});
    assert forall b: nat :: Dispatched(s, b) ==> Dispatched(s', b);
    AccountedIsStable(s, s');
    EffectKeepsInv(s, s');
  }

  lemma ProcessDispatchKeepsInv(s: State, id: nat, k: nat, out: Outcome)
    requires Inv(s) && id in s.process && s.process[id].next == Some(k) && k < |s.process[id].events|
    ensures Keeps(s, ProcessDispatch(s, id, s.process[id], k, out))
  {
    var job := s.process[id];
    assert ProcessInv(s, job);
    if out.Applied() {
      var s1 := s.(worked := s.worked + {job.events[k]});
      EventWorked(s, job.events[k]);
      assert ProcessInv(s1, job.(next := Some(k + 1)));
      if out.Ok? { ProcessGoes(s1, id, job.(next := Some(k + 1))); } else { ProcessAttemptFails(s1, id, job); }
      StableTrans(s, s1, ProcessDispatch(s, id, job, k, out));
    } else {
      ProcessAttemptFails(s, id, job);
    }
  }

  lemma RowDeleted(s: State, b: nat)
    requires Inv(s) && Dispatched(s, b)
    ensures Keeps(s, s.(table := s.table - {b}))
  {
    var s' := s.(table := s.table - {b});
    AccountedIsStable(s, s');
    assert forall x: nat :: Recorded(s, x) ==> Recorded(s', x);
    assert JobsInv(s');
    EffectKeepsInv(s, s');
  }

  lemma ProcessCompletes(s: State, id: nat)
    requires Inv(s) && id in s.process && Dispatched(s, s.process[id].block)
    ensures Keeps(s, s.(process := s.process - {id}))
  {
    var s' := s.(process := s.process - {id});
    assert Dispatched(s', s.process[id].block);
    AccountedIsStable(s, s');
    EffectKeepsInv(s, s');
  }

  /** The row is deleted only once every event of the block is with the worker queue. */
  lemma ProcessDeleteKeepsInv(s: State, id: nat, out: Outcome)
    requires Inv(s) && id in s.process && s.process[id].next == Some(|s.process[id].events|)
    ensures Keeps(s, ProcessDelete(s, id, s.process[id], out))
  {
    var job := s.process[id];
    assert ProcessInv(s, job) && Dispatched(s, job.block);
    if out.Applied() {
      var s1 := s.(table := s.table - {job.block});
      RowDeleted(s, job.block);
      assert Dispatched(s1, job.block);
      if out.Ok? { ProcessCompletes(s1, id); } else { ProcessAttemptFails(s1, id, job); }
      StableTrans(s, s1, ProcessDelete(s, id, job, out));
    } else {
      ProcessAttemptFails(s, id, job);
    }
  }

  lemma ProcessKeepsInv(s: State, id: nat, out: Outcome)
    requires Inv(s) && id in s.process
    ensures Keeps(s, ProcessStep(s, id, out))
  {
    var job := s.process[id];
    assert ProcessInv(s, job);
    if job.next.None? {
      ProcessGoes(s, id, job.(next := Some(0)));
    } else if job.next.value < |job.events| {
      ProcessDispatchKeepsInv(s, id, job.next.value, out);
    } else {
      ProcessDeleteKeepsInv(s, id, out);
    }
  }

  lemma CrashKeepsInv(s: State)
    requires Inv(s)
    ensures Keeps(s, Crashed(s))
  {
    var s' := Crashed(s);
    assert forall b: nat :: Dispatched(s, b) ==> Dispatched(s', b);
    AccountedIsStable(s, s');
  }

  lemma StepKeepsInv(s: State, a: Action)
    requires Inv(s) && Enabled(s, a)
    ensures Keeps(s, Apply(s, a))
  {
    match a
    case StartLatest => ControlKeepsInv(s, Apply(s, a));
    case Latest(id, out, height) => LatestKeepsInv(s, id, out, height);
    case StartAdd => AddGoes(s, AddFetchHeight);
    case Add(out, n) => AddKeepsInv(s, out, n);
    case History(id, out) => HistoryKeepsInv(s, id, out);
    case HistoryStall(id) => HistoryOut(s, id, s.history[id]);
    case Process(id, out) => ProcessKeepsInv(s, id, out);
    case ProcessStall(id) => ProcessOut(s, id, s.process[id]);
    case Forget(block) => ControlKeepsInv(s, Apply(s, a));
    case Crash => CrashKeepsInv(s);
  }

  /** A step along a trace. */
  lemma Goes(run: Trace, acts: seq<Action>, s: State, a: Action)
    requires Closed(run) && run(acts, s) && Inv(s) && Enabled(s, a)
    ensures run(acts + [a], Apply(s, a)) && Inv(Apply(s, a))
  {
    Step(run, acts, s, a);
    StepKeepsInv(s, a);
  }

  // ---------------------------------------------------------------- results

  lemma {:induction false} RunKeepsInv(s: State, acts: seq<Action>)
    requires Initial(s) && ValidRun(s, acts)
    ensures Inv(Exec(s, acts))
  {
    if acts != [] {
      RunKeepsInv(s, acts[..|acts| - 1]);
      StepKeepsInv(Exec(s, acts[..|acts| - 1]), acts[|acts| - 1]);
    }
  }

  /**
   * No tracked block is lost. At every step of every run, each block from the start block up
   * to the observed watermark is fully dispatched, in the unprocessed table, in the history
   * queue, or had a history job that used up its attempts without ever recording it.
   */
  lemma NoTrackedBlockLost(s: State, acts: seq<Action>, b: nat)
    requires Initial(s) && ValidRun(s, acts)
    requires var e := Exec(s, acts); e.start.Some? && e.observed.Some? && e.start.value <= b <= e.observed.value
    ensures var e := Exec(s, acts); Dispatched(e, b) || b in e.table || InHistory(e, b) || b in e.givenUp
  {
    RunKeepsInv(s, acts);
    assert Covered(Exec(s, acts), b);
  }

  /** The watermark never falls and the start block never moves, through any step. */
  lemma WatermarkNeverFalls(s: State, acts: seq<Action>, a: Action)
    requires Initial(s) && ValidRun(s, acts) && Enabled(Exec(s, acts), a)
    ensures var e, e' := Exec(s, acts), Apply(Exec(s, acts), a);
            && (e.observed.Some? ==> e'.observed.Some? && e.observed.value <= e'.observed.value)
            && (e.start.Some? ==> e'.start == e.start)
  {
    RunKeepsInv(s, acts);
    StepKeepsInv(Exec(s, acts), a);
  }

  /**
   * Recovery. Once State.add has returned with a watermark, every tracked block up to it is
   * dispatched or has a waiting or running history or process job - from then on, in every
   * later state. Aside are only the blocks given up unrecorded, which no table lists, and those
   * of jobs that used up their attempts after State.add read the table; jobs that ran out
   * before that have been replaced.
   */
  lemma Recovery(s: State, acts: seq<Action>, b: nat)
    requires Initial(s) && ValidRun(s, acts)
    requires var e := Exec(s, acts); e.recovered.Some? && e.start.Some? && e.start.value <= b <= e.recovered.value
    ensures var e := Exec(s, acts);
            || Dispatched(e, b) || InHistory(e, b) || InProcess(e, b)
            || b in e.givenUp || RanOut(e, b, e.recoveredAt)
  {
    RunKeepsInv(s, acts);
    assert HasJob(Exec(s, acts), b, Exec(s, acts).recoveredAt);
  }

  /** A [latest] job that returns leaves none of its blocks behind: each was scanned or requeued. */
  lemma LatestJobLeavesNoneBehind(s: State, acts: seq<Action>, obs: nat, height: nat, b: nat)
    requires Initial(s) && ValidRun(s, acts)
    requires (obs, height) in Exec(s, acts).settled && obs < b <= height
    ensures var e := Exec(s, acts); Dispatched(e, b) || InHistory(e, b) || InProcess(e, b) || b in e.ranOut
  {
    RunKeepsInv(s, acts);
    assert HasJob(Exec(s, acts), b, 0);
  }

  /**
   * No event is missed: when the unprocessed table and the history queue are empty and the
   * block was not given up, every event of every tracked block - up to the watermark - is
   * with the worker queue.
   */
  lemma NoEventMissed(s: State, acts: seq<Action>, b: nat, event: nat)
    requires Initial(s) && ValidRun(s, acts)
    requires var e := Exec(s, acts); e.start.Some? && e.observed.Some? && e.start.value <= b <= e.observed.value
    requires var e := Exec(s, acts); e.table == {} && e.history == map[] && b !in e.givenUp
    requires event in Exec(s, acts).chain(b)
    ensures event in Exec(s, acts).worked
  {
    NoTrackedBlockLost(s, acts, b);
  }

  /**
   * The queues alone tell less. Once they have drained, this holds of the blocks up to the
   * watermark State.add last returned with that were not given up and whose jobs did not run
   * out since it read the table; a block above it may be in
   * the table only, after a crash between two calls of a [latest] job.
   */
  lemma DrainedQueuesMissNothingRecovered(s: State, acts: seq<Action>, b: nat, event: nat)
    requires Initial(s) && ValidRun(s, acts)
    requires var e := Exec(s, acts); e.recovered.Some? && e.start.Some? && e.start.value <= b <= e.recovered.value
    requires var e := Exec(s, acts); e.history == map[] && e.process == map[] && b !in e.givenUp && !RanOut(e, b, e.recoveredAt)
    requires event in Exec(s, acts).chain(b)
    ensures event in Exec(s, acts).worked
  {
    Recovery(s, acts, b);
  }
}
