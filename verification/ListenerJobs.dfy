/**
 * The listener's jobs and State.add as the source writes them, with their loops, progress
 * variable and catch block, each run without interruption. `outs` says how each awaited call
 * ends. What a job leaves in the tables and queues is what the step system reaches when only
 * that job steps.
 */
module ListenerJobs {
  import opened Wrappers
  import opened Listener

  /** The tables and queues the jobs share. */
  class Store {
    const chain: nat -> seq<nat>
    var observed: Option<nat>
    var table: set<nat>
    var history: map<nat, HistoryJob>
    var process: map<nat, ProcessJob>
    var keyed: set<nat>
    var nextId: nat
    var worked: set<nat>

    constructor (s: State)
      ensures Matches(s)
    {
      chain, observed, table, history := s.chain, s.observed, s.table, s.history;
      process, keyed, nextId, worked := s.process, s.keyed, s.nextId, s.worked;
    }

    ghost predicate Matches(s: State)
      reads this
    {
      && s.chain == chain && s.observed == observed && s.table == table && s.history == history
      && s.process == process && s.keyed == keyed && s.nextId == nextId && s.worked == worked
    }

    // ---------------------------------------------------------------- the [latest] job

    /** After `calls` awaited calls of latest job `id`, and of nothing else, the state is s. */
    ghost predicate LatestIn(run: Trace, acts: seq<Action>, s: State, id: nat, outs: nat -> Outcome, height: nat, calls: nat)
      reads this
    {
      && Closed(run) && run(acts, s) && Matches(s) && |acts| == calls
      && (forall i :: 0 <= i < calls ==> acts[i] == Latest(id, outs(i), height))
    }

    ghost predicate LatestIsAt(s: State, id: nat, pc: LatestPc) {
      id in s.latest && s.latest[id] == pc
    }

    ghost predicate LatestIsOver(s: State, id: nat, settled: Option<(nat, nat)>) {
      id !in s.latest && (settled.Some? ==> settled.value in s.settled)
    }

    /** latestBlockNumber and getObservedBlock, and the range the job then has to scan. */
    method LatestReadsRange(ghost run: Trace, ghost s0: State, id: nat, outs: nat -> Outcome, height: nat)
      returns (ghost acts: seq<Action>, ghost s: State, calls: nat, range: Option<nat>, settled: Option<(nat, nat)>)
      requires LatestIn(run, [], s0, id, outs, height, 0) && LatestIsAt(s0, id, FetchHeight)
      ensures LatestIn(run, acts, s, id, outs, height, calls)
      ensures range.Some? ==> range.value < height && LatestIsAt(s, id, Insert(range.value, height))
      ensures range.None? ==> LatestIsOver(s, id, settled)
      ensures if outs(0) != Ok || outs(1) != Ok || observed.None? then range == None && settled == None
              else var obs := WorkFrom(observed.value, height);
                   if height > obs then range == Some(obs) else range == None && settled == Some((obs, height))
    {
      calls, range, settled := 1, None, None;
      Step(run, [], s0, Latest(id, outs(0), height));
      acts, s := [] + [Latest(id, outs(0), height)], LatestStep(s0, id, outs(0), height);
      if outs(0) != Ok { return; }
      calls := 2;
      Step(run, acts, s, Latest(id, outs(1), height));
      acts, s := acts + [Latest(id, outs(1), height)], LatestStep(s, id, outs(1), height);
      if outs(1) != Ok || observed == None { return; }
      var observedBlock := observed.value;
      if height < observedBlock {
        observedBlock := if height == 0 then 0 else height - 1;
      }
      if height > observedBlock {
        range := Some(observedBlock);
      } else {
        settled := Some((observedBlock, height));
      }
    }

    /** insertUnprocessedBlocks, then upsertObservedBlock, over the range (obs, height]. */
    method LatestRecords(ghost run: Trace, ghost acts0: seq<Action>, ghost s0: State, id: nat, outs: nat -> Outcome,
                         height: nat, obs: nat, from: nat)
      returns (ghost acts: seq<Action>, ghost s: State, calls: nat, failed: bool)
      requires LatestIn(run, acts0, s0, id, outs, height, from) && LatestIsAt(s0, id, Insert(obs, height))
      modifies this
      ensures LatestIn(run, acts, s, id, outs, height, calls)
      ensures LatestIsAt(s, id, if failed then Requeue(obs, height, obs + 1) else Query(obs, height, obs + 1))
    {
      calls, failed := from + 1, outs(from) != Ok;
      Step(run, acts0, s0, Latest(id, outs(from), height));
      acts, s := acts0 + [Latest(id, outs(from), height)], LatestStep(s0, id, outs(from), height);
      if outs(from).Applied() { table := table + After(obs, height); }
      if failed { return; }
      calls, failed := from + 2, outs(from + 1) != Ok;
      Step(run, acts, s, Latest(id, outs(from + 1), height));
      acts, s := acts + [Latest(id, outs(from + 1), height)], LatestStep(s, id, outs(from + 1), height);
      if outs(from + 1).Applied() { observed := Raised(observed, height); }
    }

    method AddProcessJob(b: nat)
      modifies this`process, this`nextId
      ensures process == old(process)[old(nextId) := ProcessJob(b, chain(b), 0, None)] && nextId == old(nextId) + 1
    {
      process := process[nextId := ProcessJob(b, chain(b), 0, None)];
      nextId := nextId + 1;
    }

    /** queryEvent and processEventQueue.add for one block. */
    method LatestScansOne(ghost run: Trace, ghost acts0: seq<Action>, ghost s0: State, id: nat, outs: nat -> Outcome,
                          height: nat, obs: nat, b: nat, from: nat)
      returns (ghost acts: seq<Action>, ghost s: State, calls: nat, failed: bool)
      requires LatestIn(run, acts0, s0, id, outs, height, from) && LatestIsAt(s0, id, Query(obs, height, b)) && b <= height
      modifies this
      ensures LatestIn(run, acts, s, id, outs, height, calls)
      ensures failed ==> LatestIsAt(s, id, Requeue(obs, height, b))
      ensures !failed && b < height ==> LatestIsAt(s, id, Query(obs, height, b + 1))
      ensures !failed && b == height ==> LatestIsOver(s, id, Some((obs, height)))
    {
      calls, failed := from + 1, outs(from) != Ok;
      Step(run, acts0, s0, Latest(id, outs(from), height));
      acts, s := acts0 + [Latest(id, outs(from), height)], LatestStep(s0, id, outs(from), height);
      if failed { return; }
      calls, failed := from + 2, outs(from + 1) != Ok;
      Step(run, acts, s, Latest(id, outs(from + 1), height));
      acts, s := acts + [Latest(id, outs(from + 1), height)], LatestStep(s, id, outs(from + 1), height);
      if outs(from + 1).Applied() { AddProcessJob(b); }
    }

    /** The scan: each block in turn, remembering how far it got. */
    method LatestScans(ghost run: Trace, ghost acts0: seq<Action>, ghost s0: State, id: nat, outs: nat -> Outcome,
                       height: nat, obs: nat, from: nat)
      returns (ghost acts: seq<Action>, ghost s: State, calls: nat, latestObservedBlock: nat, failed: bool)
      requires LatestIn(run, acts0, s0, id, outs, height, from) && LatestIsAt(s0, id, Query(obs, height, obs + 1)) && obs < height
      modifies this
      ensures LatestIn(run, acts, s, id, outs, height, calls)
      ensures failed ==> latestObservedBlock < height && LatestIsAt(s, id, Requeue(obs, height, latestObservedBlock + 1))
      ensures !failed ==> LatestIsOver(s, id, Some((obs, height)))
    {
      acts, s, calls, latestObservedBlock, failed := acts0, s0, from, obs, false;
      while latestObservedBlock < height
        invariant latestObservedBlock <= height && LatestIn(run, acts, s, id, outs, height, calls)
        invariant latestObservedBlock < height ==> LatestIsAt(s, id, Query(obs, height, latestObservedBlock + 1))
        invariant latestObservedBlock == height ==> LatestIsOver(s, id, Some((obs, height)))
      {
        acts, s, calls, failed := LatestScansOne(run, acts, s, id, outs, height, obs, latestObservedBlock + 1, calls);
        if failed { return; }
        latestObservedBlock := latestObservedBlock + 1;
      }
    }

    method AddFailureJob(b: nat)
      modifies this`history, this`nextId, this`keyed
      ensures b in old(keyed) ==> history == old(history) && nextId == old(nextId) && keyed == old(keyed)
      ensures b !in old(keyed) ==>
                && history == old(history)[old(nextId) := HistoryJob(b, 0, Waiting, false)]
                && nextId == old(nextId) + 1 && keyed == old(keyed) + {b}
    {
      if b !in keyed {
        history := history[nextId := HistoryJob(b, 0, Waiting, false)];
        nextId := nextId + 1;
        keyed := keyed + {b};
      }
    }

    /** historyListenerQueue.add for one block. */
    method LatestRequeuesOne(ghost run: Trace, ghost acts0: seq<Action>, ghost s0: State, id: nat, outs: nat -> Outcome,
                             height: nat, obs: nat, b: nat, from: nat)
      returns (ghost acts: seq<Action>, ghost s: State, failed: bool)
      requires LatestIn(run, acts0, s0, id, outs, height, from) && LatestIsAt(s0, id, Requeue(obs, height, b)) && b <= height
      modifies this
      ensures LatestIn(run, acts, s, id, outs, height, from + 1)
      ensures failed ==> LatestIsOver(s, id, None)
      ensures !failed && b < height ==> LatestIsAt(s, id, Requeue(obs, height, b + 1))
      ensures !failed && b == height ==> LatestIsOver(s, id, Some((obs, height)))
    {
      failed := outs(from) != Ok;
      Step(run, acts0, s0, Latest(id, outs(from), height));
      acts, s := acts0 + [Latest(id, outs(from), height)], LatestStep(s0, id, outs(from), height);
      if outs(from).Applied() { AddFailureJob(b); }
    }

    /** The catch block: every block after the last one scanned goes to the history queue. */
    method LatestRequeuesRest(ghost run: Trace, ghost acts0: seq<Action>, ghost s0: State, id: nat, outs: nat -> Outcome,
                              height: nat, obs: nat, done: nat, from: nat)
      returns (ghost acts: seq<Action>, ghost s: State, calls: nat, settled: Option<(nat, nat)>)
      requires LatestIn(run, acts0, s0, id, outs, height, from)
      requires LatestIsAt(s0, id, Requeue(obs, height, done + 1)) && done < height
      modifies this
      ensures LatestIn(run, acts, s, id, outs, height, calls) && LatestIsOver(s, id, settled)
      ensures settled.Some? ==> settled.value == (obs, height)
    {
      acts, s, calls, settled := acts0, s0, from, Some((obs, height));
      var b := done + 1;
      while b <= height
        invariant b <= height + 1 && LatestIn(run, acts, s, id, outs, height, calls)
        invariant b <= height ==> LatestIsAt(s, id, Requeue(obs, height, b))
        invariant b > height ==> LatestIsOver(s, id, Some((obs, height)))
      {
        var failed;
        acts, s, failed := LatestRequeuesOne(run, acts, s, id, outs, height, obs, b, calls);
        calls := calls + 1;
        if failed { return acts, s, calls, None; }
        b := b + 1;
      }
    }

    method LatestJobIn(ghost run: Trace, ghost s0: State, id: nat, outs: nat -> Outcome, height: nat)
      returns (ghost acts: seq<Action>, ghost s: State, settled: Option<(nat, nat)>)
      requires LatestIn(run, [], s0, id, outs, height, 0) && LatestIsAt(s0, id, FetchHeight)
      modifies this
      ensures LatestIn(run, acts, s, id, outs, height, |acts|) && LatestIsOver(s, id, settled)
    {
      var calls, range;
      acts, s, calls, range, settled := LatestReadsRange(run, s0, id, outs, height);
      if range == None { return; }
      var observedBlock, failed := range.value, false;
      var latestObservedBlock := observedBlock;
      acts, s, calls, failed := LatestRecords(run, acts, s, id, outs, height, observedBlock, calls);
      if !failed {
        acts, s, calls, latestObservedBlock, failed := LatestScans(run, acts, s, id, outs, height, observedBlock, calls);
      }
      if failed {
        acts, s, calls, settled :=
          LatestRequeuesRest(run, acts, s, id, outs, height, observedBlock, latestObservedBlock, calls);
      } else {
        settled := Some((observedBlock, height));
      }
    }

    /**
     * The [latest] job: what it leaves is what its own steps reach, one per awaited call,
     * and when it returns it has settled the range it read.
     */
    method LatestJob(ghost s0: State, id: nat, outs: nat -> Outcome, height: nat)
      returns (ghost acts: seq<Action>, ghost s: State, settled: Option<(nat, nat)>)
      requires Matches(s0) && LatestIsAt(s0, id, FetchHeight)
      modifies this
      ensures Reaches(s0, acts, s) && Matches(s) && LatestIsOver(s, id, settled)
      ensures forall i :: 0 <= i < |acts| ==> acts[i] == Latest(id, outs(i), height)
    {
      TracesAreClosed(s0);
      acts, s, settled := LatestJobIn(TracesFrom(s0), s0, id, outs, height);
    }

    // ---------------------------------------------------------------- State.add

    /** After `steps` steps of State.add, and of nothing else, the state is s. */
    ghost predicate AddIn(run: Trace, acts: seq<Action>, s: State, outs: nat -> Outcome, height: nat, steps: nat)
      reads this
    {
      && Closed(run) && run(acts, s) && Matches(s) && |acts| == steps && (acts != [] ==> acts[0] == Add(outs(0), height))
      && (forall i :: 0 <= i < steps ==> acts[i].Add? && acts[i].out == outs(i))
    }

    ghost predicate AddIsAt(s: State, pc: AddPc) {
      s.adding == Some(pc)
    }

    /** latestBlockNumber, getObservedBlock and getUnprocessedBlocks. */
    method AddReads(ghost run: Trace, ghost s0: State, outs: nat -> Outcome, height: nat)
      returns (ghost acts: seq<Action>, ghost s: State, steps: nat, ok: bool, observedBlock: Option<nat>, unprocessed: set<nat>)
      requires AddIn(run, [], s0, outs, height, 0) && AddIsAt(s0, AddFetchHeight)
      ensures steps > 0 && AddIn(run, acts, s, outs, height, steps) && s.init == s0.init
      ensures if ok then AddIsAt(s, AddRequeue(height, observedBlock, unprocessed, observed)) else s.adding.None?
      ensures ok == (outs(0) == Ok && outs(1) == Ok && outs(2) == Ok)
      ensures ok ==> observedBlock == observed && unprocessed == table
    {
      observedBlock, unprocessed, steps, ok := None, {}, 1, outs(0) == Ok;
      Step(run, [], s0, Add(outs(0), height));
      acts, s := [] + [Add(outs(0), height)], AddStep(s0, outs(0), height);
      if !ok { return; }
      steps, ok := 2, outs(1) == Ok;
      Step(run, acts, s, Add(outs(1), 0));
      acts, s := acts + [Add(outs(1), 0)], AddStep(s, outs(1), 0);
      if !ok { return; }
      observedBlock := observed;
      steps, ok := 3, outs(2) == Ok;
      Step(run, acts, s, Add(outs(2), 0));
      acts, s := acts + [Add(outs(2), 0)], AddStep(s, outs(2), 0);
      unprocessed := table;
    }

    /** addBlockToHistoryQueue, as the step from `pc` to `next`. */
    method AddBlockToHistoryQueue(ghost run: Trace, ghost acts0: seq<Action>, ghost s0: State, outs: nat -> Outcome,
                                  ghost height: nat, b: nat, ghost next: AddPc, from: nat)
      returns (ghost acts: seq<Action>, ghost s: State, ok: bool)
      requires AddIn(run, acts0, s0, outs, height, from) && s0.adding.Some? && from > 0
      requires AddStep(s0, outs(from), b) == AddQueues(s0, outs(from), b, next)
      modifies this
      ensures AddIn(run, acts, s, outs, height, from + 1) && s.init == s0.init
      ensures ok == (outs(from) == Ok)
      ensures if ok then AddIsAt(s, next) else s.adding.None?
    {
      ok := outs(from) == Ok;
      Step(run, acts0, s0, Add(outs(from), b));
      acts, s := acts0 + [Add(outs(from), b)], AddQueues(s0, outs(from), b, next);
      if outs(from).Applied() {
        history := history[nextId := HistoryJob(b, 0, Waiting, false)];
        nextId := nextId + 1;
      }
    }

    /** The loop over the unprocessed blocks, in the order the database gives them. */
    method AddRequeues(ghost run: Trace, ghost acts0: seq<Action>, ghost s0: State, outs: nat -> Outcome, height: nat,
                       o: Option<nat>, blocks: set<nat>, ghost seen: Option<nat>, from: nat)
      returns (ghost acts: seq<Action>, ghost s: State, steps: nat, ok: bool)
      requires from > 0 && AddIn(run, acts0, s0, outs, height, from) && AddIsAt(s0, AddRequeue(height, o, blocks, seen))
      modifies this
      ensures steps > 0 && AddIn(run, acts, s, outs, height, steps) && s.init == s0.init
      ensures if ok then AddIsAt(s, AddRequeue(height, o, {}, seen)) else s.adding.None?
    {
      acts, s, steps, ok := acts0, s0, from, true;
      var todo := blocks;
      while todo != {}
        invariant steps > 0 && AddIn(run, acts, s, outs, height, steps) && AddIsAt(s, AddRequeue(height, o, todo, seen)) && s.init == s0.init
        decreases |todo|
      {
        var b :| b in todo;
        acts, s, ok := AddBlockToHistoryQueue(run, acts, s, outs, height, b, AddRequeue(height, o, todo - {b}, seen), steps);
        steps := steps + 1;
        if !ok { return; }
        todo := todo - {b};
      }
    }

    /** The loop that queues lo..height. */
    method AddFills(ghost run: Trace, ghost acts0: seq<Action>, ghost s0: State, outs: nat -> Outcome, height: nat, lo: nat,
                    ghost seen: Option<nat>, from: nat)
      returns (ghost acts: seq<Action>, ghost s: State, steps: nat, ok: bool)
      requires from > 0 && AddIn(run, acts0, s0, outs, height, from) && AddIsAt(s0, AddFill(height, lo, lo, seen))
      modifies this
      ensures steps > 0 && AddIn(run, acts, s, outs, height, steps)
      ensures if ok then s.adding.Some? && s.adding.value.AddFill? && s.adding.value.height == height < s.adding.value.b
              else s.adding.None?
    {
      acts, s, steps, ok := acts0, s0, from, true;
      var b := lo;
      while b <= height
        invariant steps > 0 && AddIn(run, acts, s, outs, height, steps) && AddIsAt(s, AddFill(height, lo, b, seen))
      {
        acts, s, ok := AddBlockToHistoryQueue(run, acts, s, outs, height, b, AddFill(height, lo, b + 1, seen), steps);
        steps := steps + 1;
        if !ok { return; }
        b := b + 1;
      }
    }

    /** The upsertObservedBlock that ends State.add. */
    method AddUpserts(ghost run: Trace, ghost acts0: seq<Action>, ghost s0: State, outs: nat -> Outcome,
                      ghost height: nat, to: nat, from: nat)
      returns (ghost acts: seq<Action>, ghost s: State, ok: bool)
      requires from > 0 && AddIn(run, acts0, s0, outs, height, from) && s0.adding.Some?
      requires || (s0.adding.value.AddFill? && s0.adding.value.height == to < s0.adding.value.b)
               || AddIsAt(s0, AddStartAt(to + 1))
      modifies this
      ensures AddIn(run, acts, s, outs, height, from + 1) && s.adding.None? && (ok ==> s.recovered.Some? && to <= s.recovered.value)
    {
      ok := outs(from) == Ok;
      Step(run, acts0, s0, Add(outs(from), 0));
      acts, s := acts0 + [Add(outs(from), 0)], AddStep(s0, outs(from), 0);
      if outs(from).Applied() { observed := Raised(observed, to); }
    }

    /** After the unprocessed blocks: start tracking, or queue what has not been observed. */
    method AddCatchesUp(ghost run: Trace, ghost acts0: seq<Action>, ghost s0: State, outs: nat -> Outcome, height: nat,
                        o: Option<nat>, init: Option<nat>, ghost seen: Option<nat>, from: nat)
      returns (ghost acts: seq<Action>, ghost s: State, ok: bool)
      requires from > 0 && AddIn(run, acts0, s0, outs, height, from) && AddIsAt(s0, AddRequeue(height, o, {}, seen)) && s0.init == init
      modifies this
      ensures acts != [] && AddIn(run, acts, s, outs, height, |acts|) && s.adding.None? && (ok ==> s.recovered.Some?)
    {
      var steps := from + 1;
      Step(run, acts0, s0, Add(outs(from), 0));
      acts, s := acts0 + [Add(outs(from), 0)], AddStep(s0, outs(from), 0);
      if o == None && init == None {
        if height == 0 {
          Step(run, acts, s, Add(outs(steps), 0));
          return acts + [Add(outs(steps), 0)], AddStep(s, outs(steps), 0), false;
        }
        acts, s, ok := AddUpserts(run, acts, s, outs, height, height - 1, steps);
      } else {
        var lo := if o == None then init.value else o.value + 1;
        acts, s, steps, ok := AddFills(run, acts, s, outs, height, lo, seen, steps);
        if !ok { return; }
        acts, s, ok := AddUpserts(run, acts, s, outs, height, height, steps);
      }
    }

    /** State.add from its first remote read on: what it leaves is what its own steps reach. */
    method AddListener(ghost s0: State, outs: nat -> Outcome, height: nat, init: Option<nat>)
      returns (ghost acts: seq<Action>, ghost s: State, ok: bool)
      requires Matches(s0) && AddIsAt(s0, AddFetchHeight) && s0.init == init
      modifies this
      ensures Reaches(s0, acts, s) && Matches(s) && s.adding.None? && (ok ==> s.recovered.Some?)
      ensures acts != [] && acts[0] == Add(outs(0), height)
      ensures forall i :: 0 <= i < |acts| ==> acts[i].Add? && acts[i].out == outs(i)
    {
      TracesAreClosed(s0);
      ghost var run := TracesFrom(s0);
      acts, s, ok := AddListenerIn(run, s0, outs, height, init);
    }

    method AddListenerIn(ghost run: Trace, ghost s0: State, outs: nat -> Outcome, height: nat, init: Option<nat>)
      returns (ghost acts: seq<Action>, ghost s: State, ok: bool)
      requires AddIn(run, [], s0, outs, height, 0) && AddIsAt(s0, AddFetchHeight) && s0.init == init
      modifies this
      ensures acts != [] && AddIn(run, acts, s, outs, height, |acts|) && s.adding.None? && (ok ==> s.recovered.Some?)
    {
      var steps, observedBlock, unprocessed;
      acts, s, steps, ok, observedBlock, unprocessed := AddReads(run, s0, outs, height);
      if !ok { return; }
      ghost var seen := observed;
      acts, s, steps, ok := AddRequeues(run, acts, s, outs, height, observedBlock, unprocessed, seen, steps);
      if !ok { return; }
      acts, s, ok := AddCatchesUp(run, acts, s, outs, height, observedBlock, init, seen, steps);
    }

    // ---------------------------------------------------------------- the [history] job

    /** As Matches, but job `id` runs and is about to do `pc`. */
    ghost predicate HistoryRuns(s: State, id: nat, pc: HistoryPc, recorded: bool)
      reads this
    {
      && id in history && id in s.history && s.history[id] == history[id].(pc := pc, recorded := recorded)
      && Matches(s.(history := s.history[id := history[id]]))
    }

    ghost predicate HistoryIn(run: Trace, acts: seq<Action>, s: State, id: nat, outs: nat -> Outcome, steps: nat) {
      && Closed(run) && run(acts, s) && |acts| == steps
      && (forall i :: 0 <= i < steps ==> acts[i] == History(id, outs(i)))
    }

    /** What the queue does with a failed attempt; `recorded` is remembered for the proofs only. */
    method FailHistoryJob(id: nat, recorded: bool)
      requires id in history
      modifies this`history
      ensures var job := old(history)[id];
              history == if job.attempts + 1 < ATTEMPTS
                         then old(history)[id := job.(attempts := job.attempts + 1, pc := Waiting, recorded := recorded)]
                         else old(history) - {id}
    {
      if history[id].attempts + 1 < ATTEMPTS {
        history := history[id := history[id].(attempts := history[id].attempts + 1, pc := Waiting, recorded := recorded)];
      } else {
        history := history - {id};
      }
    }

    /** insertUnprocessedBlocks for the job's block. */
    method HistoryRecords(ghost run: Trace, ghost acts0: seq<Action>, ghost s0: State, id: nat, outs: nat -> Outcome, from: nat)
      returns (ghost acts: seq<Action>, ghost s: State, ok: bool)
      requires HistoryIn(run, acts0, s0, id, outs, from) && id in history && HistoryRuns(s0, id, Recording, history[id].recorded)
      modifies this`table, this`history
      ensures HistoryIn(run, acts, s, id, outs, from + 1)
      ensures ok ==> history == old(history) && HistoryRuns(s, id, Querying, true)
      ensures !ok ==> Matches(s)
    {
      ok := outs(from) == Ok;
      Step(run, acts0, s0, History(id, outs(from)));
      acts, s := acts0 + [History(id, outs(from))], HistoryStep(s0, id, outs(from));
      if outs(from).Applied() { table := table + {history[id].block}; }
      if !ok { FailHistoryJob(id, history[id].recorded || outs(from).Applied()); }
    }

    /** queryEvent, which changes nothing. */
    method HistoryQueries(ghost run: Trace, ghost acts0: seq<Action>, ghost s0: State, id: nat, outs: nat -> Outcome, from: nat)
      returns (ghost acts: seq<Action>, ghost s: State, ok: bool)
      requires HistoryIn(run, acts0, s0, id, outs, from) && HistoryRuns(s0, id, Querying, true)
      modifies this`history
      ensures HistoryIn(run, acts, s, id, outs, from + 1)
      ensures ok ==> history == old(history) && HistoryRuns(s, id, Pushing, true)
      ensures !ok ==> Matches(s)
    {
      ok := outs(from) == Ok;
      Step(run, acts0, s0, History(id, outs(from)));
      acts, s := acts0 + [History(id, outs(from))], HistoryStep(s0, id, outs(from));
      if !ok { FailHistoryJob(id, true); }
    }

    /** What a step of a job that is about to pass its events on does to the store. */
    static lemma PushEffect(s: State, id: nat, out: Outcome)
      requires id in s.history && s.history[id].pc == Pushing
      ensures var s', job := HistoryStep(s, id, out), s.history[id];
              && s'.chain == s.chain && s'.observed == s.observed && s'.table == s.table && s'.keyed == s.keyed && s'.worked == s.worked
              && s'.process == (if out.Applied() then WithProcess(s, job.block).process else s.process)
              && s'.nextId == (if out.Applied() then s.nextId + 1 else s.nextId)
              && s'.history == if !out.Ok? && job.attempts + 1 < ATTEMPTS
                               then s.history[id := job.(attempts := job.attempts + 1, pc := Waiting)] else s.history - {id}
    {
    }

    /** A record put back where it was leaves the rest of the queue as it is. */
    static lemma PutBack<V>(m: map<nat, V>, n: map<nat, V>, id: nat, v: V, w: V)
      requires id in m && n == m[id := v]
      ensures n - {id} == m - {id} && n[id := w] == m[id := w]
    {
    }

    /** processEventQueue.add, after which the job completes. */
    method HistoryPasses(ghost run: Trace, ghost acts0: seq<Action>, ghost s0: State, id: nat, outs: nat -> Outcome, from: nat)
      returns (ghost acts: seq<Action>, ghost s: State, ok: bool)
      requires HistoryIn(run, acts0, s0, id, outs, from) && HistoryRuns(s0, id, Pushing, true)
      modifies this`history, this`process, this`nextId
      ensures HistoryIn(run, acts, s, id, outs, from + 1) && Matches(s)
      ensures ok ==> history == old(history) - {id}
    {
      ok := outs(from) == Ok;
      Step(run, acts0, s0, History(id, outs(from)));
      PushEffect(s0, id, outs(from));
      PutBack(s0.history, history, id, history[id],
              history[id].(attempts := history[id].attempts + 1, pc := Waiting, recorded := true));
      acts, s := acts0 + [History(id, outs(from))], HistoryStep(s0, id, outs(from));
      if outs(from).Applied() { AddProcessJob(history[id].block); }
      if ok { history := history - {id}; } else { FailHistoryJob(id, true); }
    }

    method HistoryJobIn(ghost run: Trace, ghost s0: State, id: nat, outs: nat -> Outcome)
      returns (ghost acts: seq<Action>, ghost s: State, ok: bool)
      requires HistoryIn(run, [], s0, id, outs, 0) && Matches(s0) && id in history && history[id].pc == Waiting
      modifies this
      ensures HistoryIn(run, acts, s, id, outs, |acts|) && Matches(s) && (ok ==> id !in history)
    {
      Step(run, [], s0, History(id, outs(0)));
      acts, s := [] + [History(id, outs(0))], HistoryStep(s0, id, outs(0));
      acts, s, ok := HistoryRecords(run, acts, s, id, outs, 1);
      if !ok { return; }
      acts, s, ok := HistoryQueries(run, acts, s, id, outs, 2);
      if !ok { return; }
      acts, s, ok := HistoryPasses(run, acts, s, id, outs, 3);
    }

    /** One attempt of the [history] job: record the block, query it, pass its events on. */
    method RetryBlock(ghost s0: State, id: nat, outs: nat -> Outcome)
      returns (ghost acts: seq<Action>, ghost s: State, ok: bool)
      requires Matches(s0) && id in history && history[id].pc == Waiting
      modifies this
      ensures Reaches(s0, acts, s) && Matches(s) && (ok ==> id !in history)
      ensures forall i :: 0 <= i < |acts| ==> acts[i] == History(id, outs(i))
    {
      TracesAreClosed(s0);
      acts, s, ok := HistoryJobIn(TracesFrom(s0), s0, id, outs);
    }

    // ---------------------------------------------------------------- the [processEvent] job

    /** As Matches, but job `id` has event `next` in hand. */
    ghost predicate Processing(s: State, id: nat, next: nat)
      reads this
    {
      && id in process && id in s.process && s.process[id] == process[id].(next := Some(next))
      && Matches(s.(process := s.process[id := process[id]]))
    }

    ghost predicate ProcessIn(run: Trace, acts: seq<Action>, s: State, id: nat, outs: nat -> Outcome, steps: nat) {
      && Closed(run) && run(acts, s) && |acts| == steps
      && (forall i :: 0 <= i < steps ==> acts[i] == Process(id, outs(i)))
    }

    /** What the queue does with a failed attempt. */
    method FailProcessJob(id: nat)
      requires id in process && process[id].next.None?
      modifies this`process
      ensures process == if old(process)[id].attempts + 1 < ATTEMPTS
                         then old(process)[id := old(process)[id].(attempts := old(process)[id].attempts + 1)]
                         else old(process) - {id}
    {
      if process[id].attempts + 1 < ATTEMPTS {
        process := process[id := process[id].(attempts := process[id].attempts + 1)];
      } else {
        process := process - {id};
      }
    }

    /** What a step of a job with event k in hand does to the store. */
    static lemma DispatchEffect(s: State, id: nat, k: nat, out: Outcome)
      requires id in s.process && s.process[id].next == Some(k) && k < |s.process[id].events|
      ensures var s', job := ProcessStep(s, id, out), s.process[id];
              && s'.chain == s.chain && s'.observed == s.observed && s'.table == s.table && s'.keyed == s.keyed
              && s'.history == s.history && s'.nextId == s.nextId
              && s'.worked == (if out.Applied() then s.worked + {job.events[k]} else s.worked)
              && s'.process == if out.Ok? then s.process[id := job.(next := Some(k + 1))]
                               else if job.attempts + 1 < ATTEMPTS then s.process[id := job.(attempts := job.attempts + 1, next := None)]
                               else s.process - {id}
    {
    }

    /** workerQueue.add for one event. */
    method DispatchEvent(ghost run: Trace, ghost acts0: seq<Action>, ghost s0: State, id: nat, outs: nat -> Outcome, k: nat,
                         from: nat)
      returns (ghost acts: seq<Action>, ghost s: State, ok: bool)
      requires ProcessIn(run, acts0, s0, id, outs, from) && Processing(s0, id, k) && k < |process[id].events|
      requires process[id].next.None?
      modifies this`worked, this`process
      ensures ProcessIn(run, acts, s, id, outs, from + 1)
      ensures ok ==> process == old(process) && Processing(s, id, k + 1)
      ensures !ok ==> Matches(s)
    {
      ok := outs(from) == Ok;
      Step(run, acts0, s0, Process(id, outs(from)));
      DispatchEffect(s0, id, k, outs(from));
      PutBack(s0.process, process, id, process[id], process[id].(attempts := process[id].attempts + 1));
      acts, s := acts0 + [Process(id, outs(from))], ProcessStep(s0, id, outs(from));
      if outs(from).Applied() { worked := worked + {process[id].events[k]}; }
      if !ok { FailProcessJob(id); }
    }

    /** deleteUnprocessedBlock, after which the job completes. */
    method DeleteRow(ghost run: Trace, ghost acts0: seq<Action>, ghost s0: State, id: nat, outs: nat -> Outcome, from: nat)
      returns (ghost acts: seq<Action>, ghost s: State, ok: bool)
      requires ProcessIn(run, acts0, s0, id, outs, from) && id in process && Processing(s0, id, |process[id].events|)
      requires process[id].next.None?
      modifies this`table, this`process
      ensures ProcessIn(run, acts, s, id, outs, from + 1) && Matches(s)
      ensures ok ==> process == old(process) - {id} && table == old(table) - {old(process)[id].block}
    {
      ok := outs(from) == Ok;
      Step(run, acts0, s0, Process(id, outs(from)));
      acts, s := acts0 + [Process(id, outs(from))], ProcessStep(s0, id, outs(from));
      if outs(from).Applied() { table := table - {process[id].block}; }
      if ok { process := process - {id}; } else { FailProcessJob(id); }
    }

    /** One attempt of the [processEvent] job: every event in order, then the row. */
    method ProcessEventJob(ghost s0: State, id: nat, outs: nat -> Outcome)
      returns (ghost acts: seq<Action>, ghost s: State, ok: bool)
      requires Matches(s0) && id in process && process[id].next.None?
      modifies this
      ensures Reaches(s0, acts, s) && Matches(s) && (ok ==> id !in process)
      ensures forall i :: 0 <= i < |acts| ==> acts[i] == Process(id, outs(i))
    {
      TracesAreClosed(s0);
      acts, s, ok := ProcessEventJobIn(TracesFrom(s0), s0, id, outs);
    }

    method ProcessEventJobIn(ghost run: Trace, ghost s0: State, id: nat, outs: nat -> Outcome)
      returns (ghost acts: seq<Action>, ghost s: State, ok: bool)
      requires ProcessIn(run, [], s0, id, outs, 0) && Matches(s0) && id in process && process[id].next.None?
      modifies this
      ensures ProcessIn(run, acts, s, id, outs, |acts|) && Matches(s) && (ok ==> id !in process)
    {
      Step(run, [], s0, Process(id, outs(0)));
      acts, s := [] + [Process(id, outs(0))], ProcessStep(s0, id, outs(0));
      var steps, k, job := 1, 0, process[id];
      while k < |job.events|
        invariant k <= |job.events| && id in process && process[id] == job
        invariant ProcessIn(run, acts, s, id, outs, steps) && Processing(s, id, k)
      {
        acts, s, ok := DispatchEvent(run, acts, s, id, outs, k, steps);
        if !ok { return; }
        k, steps := k + 1, steps + 1;
      }
      acts, s, ok := DeleteRow(run, acts, s, id, outs, steps);
    }
  }
}
