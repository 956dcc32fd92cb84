/**
 * The listener can always drain: from every reachable state a crash, a restart and enough
 * successful calls empty the table and the history queue, with every tracked block that was
 * not given up dispatched.
 */
module ListenerDrain {
  import opened Wrappers
  import opened Listener
  import opened ListenerSafety

  ghost predicate AllWaiting(s: State) {
    forall id :: id in s.history ==> s.history[id].pc == Waiting
  }

  /** What is tracked and what was given up stays as it is. */
  ghost predicate SameTracked(s: State, s': State) {
    s'.chain == s.chain && s'.start == s.start && s'.observed == s.observed && s'.givenUp == s.givenUp
  }

  /** Every row of the table, those still to be requeued aside, has a history job. */
  ghost predicate Queued(s: State, todo: set<nat>) {
    forall b :: b in s.table ==> b in todo || InHistory(s, b)
  }

  // ---------------------------------------------------------------- requeueing the table

  /** The process starts over and State.add reads the table. */
  lemma StartsOver(run: Trace, acts: seq<Action>, s: State, h: nat) returns (acts': seq<Action>, s': State, pc: AddPc)
    requires Closed(run) && run(acts, s) && Inv(s)
    ensures run(acts', s') && acts <= acts' && Inv(s') && AllWaiting(s') && SameTracked(s, s')
    ensures s'.adding == Some(pc) && pc.AddRequeue? && Queued(s', pc.todo)
  {
    Goes(run, acts, s, Crash);
    acts', s', pc := ReadsTable(run, acts + [Crash], Crashed(s), h);
  }

  /** State.add reads the height, the watermark and the table. */
  lemma ReadsTable(run: Trace, acts: seq<Action>, s: State, h: nat) returns (acts': seq<Action>, s': State, pc: AddPc)
    requires Closed(run) && run(acts, s) && Inv(s) && s.adding.None?
    ensures run(acts', s') && acts <= acts' && Inv(s') && s' == s.(adding := s'.adding, readAt := s'.readAt)
    ensures s'.adding == Some(pc) && pc.AddRequeue? && pc.todo == s.table
  {
    Goes(run, acts, s, StartAdd);
    var s1, a := AddAt(s, AddFetchHeight), Add(Ok, h);
    Goes(run, acts + [StartAdd], s1, a);
    acts', s' := ReadsRows(run, acts + [StartAdd] + [a], AddAt(s, AddReadObserved(h)), h);
    pc := s'.adding.value;
  }

  lemma ReadsRows(run: Trace, acts: seq<Action>, s: State, h: nat) returns (acts': seq<Action>, s': State)
    requires Closed(run) && run(acts, s) && Inv(s) && s.adding == Some(AddReadObserved(h))
    ensures run(acts', s') && acts <= acts' && Inv(s') && s' == AddReads(s, h, s.observed)
  {
    Goes(run, acts, s, Add(Ok, h));
    var s1 := AddAt(s, AddReadTable(h, s.observed));
    Goes(run, acts + [Add(Ok, h)], s1, Add(Ok, h));
    acts', s' := acts + [Add(Ok, h)] + [Add(Ok, h)], AddReads(s1, h, s.observed);
  }

  /** One row of the table gets a history job. */
  lemma RequeuesOne(run: Trace, acts: seq<Action>, s: State, pc: AddPc, b: nat) returns (acts': seq<Action>, s': State)
    requires Closed(run) && run(acts, s) && Inv(s) && AllWaiting(s) && s.adding == Some(pc) && pc.AddRequeue? && b in pc.todo
    requires Queued(s, pc.todo)
    ensures run(acts', s') && acts <= acts' && Inv(s') && AllWaiting(s') && SameTracked(s, s')
    ensures s'.adding == Some(pc.(todo := pc.todo - {b})) && Queued(s', pc.todo - {b})
  {
    Goes(run, acts, s, Add(Ok, b));
    acts', s' := acts + [Add(Ok, b)], AddStep(s, Ok, b);
    assert s.nextId in s'.history && s'.history[s.nextId].block == b;
    forall x | x in s'.table && x !in pc.todo - {b} ensures InHistory(s', x) {
      if x != b {
        var id :| id in s.history && s.history[id].block == x;
        assert id in s'.history && s'.history[id].block == x;
      }
    }
  }

  lemma {:induction false} RequeuesAll(run: Trace, acts: seq<Action>, s: State, pc: AddPc)
    returns (acts': seq<Action>, s': State)
    requires Closed(run) && run(acts, s) && Inv(s) && AllWaiting(s) && s.adding == Some(pc) && pc.AddRequeue?
    requires Queued(s, pc.todo)
    ensures run(acts', s') && acts <= acts' && Inv(s') && AllWaiting(s') && SameTracked(s, s') && Queued(s', {})
    decreases |pc.todo|
  {
    acts', s' := acts, s;
    if b :| b in pc.todo {
      var acts1, s1 := RequeuesOne(run, acts, s, pc, b);
      acts', s' := RequeuesAll(run, acts1, s1, pc.(todo := pc.todo - {b}));
    }
  }

  // ---------------------------------------------------------------- working off one job

  /** History job `id` about to do `pc`, all else as in s. */
  function AtPc(s: State, id: nat, pc: HistoryPc, recorded: bool): State
    requires id in s.history
  {
    s.(history := s.history[id := s.history[id].(pc := pc, recorded := recorded)])
  }

  /** A waiting history job records its block and is ready to pass its events on. */
  lemma Retries(run: Trace, acts: seq<Action>, s: State, id: nat) returns (acts': seq<Action>, s': State)
    requires Closed(run) && run(acts, s) && Inv(s) && id in s.history && s.history[id].pc == Waiting
    ensures run(acts', s') && acts <= acts' && Inv(s')
    ensures s' == AtPc(s, id, Pushing, true).(table := s.table + {s.history[id].block})
  {
    var job := s.history[id];
    Goes(run, acts, s, History(id, Ok));
    var s1 := AtPc(s, id, Recording, job.recorded);
    assert HistoryStep(s, id, Ok) == s1;
    Goes(run, acts + [History(id, Ok)], s1, History(id, Ok));
    var s2 := AtPc(s, id, Querying, true).(table := s.table + {job.block});
    SetTwice(s.history, id, s1.history[id], s2.history[id]);
    assert HistoryStep(s1, id, Ok) == s2;
    Goes(run, acts + [History(id, Ok)] + [History(id, Ok)], s2, History(id, Ok));
    s' := AtPc(s, id, Pushing, true).(table := s.table + {job.block});
    SetTwice(s.history, id, s2.history[id], s'.history[id]);
    assert HistoryStep(s2, id, Ok) == s';
    acts' := acts + [History(id, Ok)] + [History(id, Ok)] + [History(id, Ok)];
  }

  /** It passes them on: the history job is gone, a process job is there. */
  lemma HandsOver(run: Trace, acts: seq<Action>, s: State, id: nat) returns (acts': seq<Action>, s': State)
    requires Closed(run) && run(acts, s) && Inv(s) && id in s.history && s.history[id].pc == Waiting
    ensures run(acts', s') && acts <= acts' && Inv(s')
    ensures var b := s.history[id].block;
            && SameTracked(s, s') && s'.history == s.history - {id} && s'.table == s.table + {b}
            && s.nextId in s'.process && s'.process[s.nextId] == ProcessJob(b, s.chain(b), 0, None)
  {
    var acts1, s1 := Retries(run, acts, s, id);
    Goes(run, acts1, s1, History(id, Ok));
    SetTwice(s.history, id, s1.history[id], s1.history[id]);
    acts', s' := acts1 + [History(id, Ok)], HistoryStep(s1, id, Ok);
  }

  /** The process job hands its events to the worker one by one. */
  lemma {:induction false} Works(run: Trace, acts: seq<Action>, s: State, id: nat, k: nat) returns (acts': seq<Action>, s': State)
    requires Closed(run) && run(acts, s) && Inv(s) && id in s.process && s.process[id].next == Some(k)
    ensures run(acts', s') && acts <= acts' && Inv(s') && SameTracked(s, s') && s'.history == s.history && s'.table == s.table
    ensures id in s'.process && s'.process[id] == s.process[id].(next := Some(|s.process[id].events|))
    decreases |s.process[id].events| - k
  {
    assert ProcessInv(s, s.process[id]);
    acts', s' := acts, s;
    if k < |s.process[id].events| {
      Goes(run, acts, s, Process(id, Ok));
      var s1 := ProcessStep(s, id, Ok);
      acts', s' := Works(run, acts + [Process(id, Ok)], s1, id, k + 1);
    }
  }

  /** It starts, hands over all events, and deletes the row. */
  lemma Finishes(run: Trace, acts: seq<Action>, s: State, id: nat) returns (acts': seq<Action>, s': State)
    requires Closed(run) && run(acts, s) && Inv(s) && id in s.process && s.process[id].next.None?
    ensures run(acts', s') && acts <= acts' && Inv(s') && SameTracked(s, s') && s'.history == s.history
    ensures s'.table == s.table - {s.process[id].block}
  {
    Goes(run, acts, s, Process(id, Ok));
    var acts1, s1 := Works(run, acts + [Process(id, Ok)], ProcessStep(s, id, Ok), id, 0);
    Goes(run, acts1, s1, Process(id, Ok));
    acts', s' := acts1 + [Process(id, Ok)], ProcessStep(s1, id, Ok);
  }

  /** A waiting history job is worked off: its block's row is gone, the other jobs are as they were. */
  lemma WorksOff(run: Trace, acts: seq<Action>, s: State, id: nat) returns (acts': seq<Action>, s': State)
    requires Closed(run) && run(acts, s) && Inv(s) && AllWaiting(s) && Queued(s, {}) && id in s.history
    ensures run(acts', s') && acts <= acts' && Inv(s') && AllWaiting(s') && SameTracked(s, s') && Queued(s', {})
    ensures s'.history == s.history - {id}
  {
    var b := s.history[id].block;
    var acts1, s1 := HandsOver(run, acts, s, id);
    acts', s' := Finishes(run, acts1, s1, s.nextId);
    forall x | x in s'.table ensures InHistory(s', x) {
      var h :| h in s.history && s.history[h].block == x;
      assert h in s'.history && s'.history[h].block == x;
    }
  }

  lemma {:induction false} WorksOffAll(run: Trace, acts: seq<Action>, s: State) returns (acts': seq<Action>, s': State)
    requires Closed(run) && run(acts, s) && Inv(s) && AllWaiting(s) && Queued(s, {})
    ensures run(acts', s') && acts <= acts' && Inv(s') && SameTracked(s, s') && s'.history == map[] && s'.table == {}
    decreases |s.history|
  {
    acts', s' := acts, s;
    if id :| id in s.history {
      var acts1, s1 := WorksOff(run, acts, s, id);
      assert |s.history.Keys - {id}| == |s.history.Keys| - 1 && s1.history.Keys == s.history.Keys - {id};
      acts', s' := WorksOffAll(run, acts1, s1);
    }
  }

  lemma DrainsAll(run: Trace, acts: seq<Action>, s: State, h: nat) returns (acts': seq<Action>, s': State)
    requires Closed(run) && run(acts, s) && Inv(s)
    ensures run(acts', s') && acts <= acts' && Inv(s') && SameTracked(s, s') && s'.history == map[] && s'.table == {}
  {
    var acts1, s1, pc := StartsOver(run, acts, s, h);
    var acts2, s2 := RequeuesAll(run, acts1, s1, pc);
    acts', s' := WorksOffAll(run, acts2, s2);
  }

  /**
   * From every reachable state, with the chain at any height h, the run goes on to one in which
   * the table and the history queue are empty and every event of every tracked block that was
   * not given up is with the worker queue, with the start block, the watermark and the blocks
   * given up as they were.
   */
  lemma EveryBlockCanBeDispatched(s: State, acts: seq<Action>, h: nat) returns (acts': seq<Action>, s': State)
    requires Initial(s) && ValidRun(s, acts)
    ensures Reaches(s, acts', s') && acts <= acts' && SameTracked(Exec(s, acts), s') && s'.table == {} && s'.history == map[]
    ensures s'.start.Some? && s'.observed.Some? ==>
              forall b: nat :: s'.start.value <= b <= s'.observed.value && b !in s'.givenUp ==> Dispatched(s', b)
  {
    RunKeepsInv(s, acts);
    TracesAreClosed(s);
    acts', s' := DrainsAll(TracesFrom(s), acts, Exec(s, acts), h);
    if s'.start.Some? && s'.observed.Some? {
      forall b: nat | s'.start.value <= b <= s'.observed.value && b !in s'.givenUp ensures Dispatched(s', b) {
        assert Covered(s', b);
      }
    }
  }
}
