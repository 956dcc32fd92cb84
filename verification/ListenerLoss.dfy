/**
 * When "no event is missed" fails: a block is lost when every history job for it fails before
 * the block is recorded, although the watermark has passed it; and a block is out of danger
 * exactly when it is recorded or dispatched.
 */
module ListenerLoss {
  import opened Wrappers
  import opened Listener
  import opened ListenerSafety

  /** Block `b` is tracked, and there is nothing left of it. */
  ghost predicate Lost(s: State, b: nat) {
    && s.start.Some? && s.observed.Some? && s.start.value <= b <= s.observed.value
    && !Dispatched(s, b) && b !in s.table && !InHistory(s, b) && !InProcess(s, b)
  }

  // ---------------------------------------------------------------- when a block can be lost

  /** No job runs: [latest] and State.add are gone, the others wait in their queues. */
  ghost predicate AtRest(s: State) {
    && s.latest == map[] && s.adding.None?
    && (forall id :: id in s.history ==> s.history[id].pc == Waiting)
    && (forall id :: id in s.process ==> s.process[id].next.None?)
  }

  /** Block b is tracked and was never recorded. */
  ghost predicate Unrecorded(s: State, b: nat) {
    s.start.Some? && s.observed.Some? && s.start.value <= b <= s.observed.value && !Recorded(s, b)
  }

  ghost predicate SameRecord(s: State, s': State) {
    && s'.chain == s.chain && s'.table == s.table && s'.worked == s.worked
    && s'.start == s.start && s'.observed == s.observed
  }

  /** One more attempt of a history job that fails before the block is recorded. */
  lemma OneAttempt(run: Trace, acts: seq<Action>, s: State, id: nat) returns (acts': seq<Action>, s': State)
    requires Closed(run) && run(acts, s) && Inv(s) && AtRest(s) && id in s.history
    ensures run(acts', s') && acts <= acts' && Inv(s') && AtRest(s') && SameRecord(s, s') && s'.process == s.process
    ensures if s.history[id].attempts + 1 < ATTEMPTS
            then s'.history == s.history[id := s.history[id].(attempts := s.history[id].attempts + 1)]
            else s'.history == s.history - {id}
  {
    var go, fail, job := History(id, Ok), History(id, Failed(false)), s.history[id];
    Goes(run, acts, s, go);
    var s1 := HistoryStep(s, id, Ok);
    Goes(run, acts + [go], s1, fail);
    acts', s' := acts + [go] + [fail], HistoryStep(s1, id, Failed(false));
    SetTwice(s.history, id, job.(pc := Recording), job.(attempts := job.attempts + 1));
  }

  lemma {:induction false} HistoryRunsDry(run: Trace, acts: seq<Action>, s: State, id: nat)
    returns (acts': seq<Action>, s': State)
    requires Closed(run) && run(acts, s) && Inv(s) && AtRest(s) && id in s.history
    ensures run(acts', s') && acts <= acts' && Inv(s') && AtRest(s') && SameRecord(s, s') && s'.process == s.process
    ensures s'.history == s.history - {id}
    decreases ATTEMPTS - s.history[id].attempts
  {
    acts', s' := OneAttempt(run, acts, s, id);
    if s.history[id].attempts + 1 < ATTEMPTS {
      SetTwice(s.history, id, s'.history[id], s'.history[id]);
      acts', s' := HistoryRunsDry(run, acts', s', id);
    }
  }

  /** One more attempt of a process job that fails at its first event. */
  lemma OneProcessAttempt(run: Trace, acts: seq<Action>, s: State, id: nat) returns (acts': seq<Action>, s': State)
    requires Closed(run) && run(acts, s) && Inv(s) && AtRest(s) && id in s.process && s.process[id].events != []
    ensures run(acts', s') && acts <= acts' && Inv(s') && AtRest(s') && SameRecord(s, s') && s'.history == s.history
    ensures if s.process[id].attempts + 1 < ATTEMPTS
            then s'.process == s.process[id := s.process[id].(attempts := s.process[id].attempts + 1)]
            else s'.process == s.process - {id}
  {
    var go, fail, job := Process(id, Ok), Process(id, Failed(false)), s.process[id];
    Goes(run, acts, s, go);
    var s1 := ProcessStep(s, id, Ok);
    Goes(run, acts + [go], s1, fail);
    acts', s' := acts + [go] + [fail], ProcessStep(s1, id, Failed(false));
    SetTwice(s.process, id, job.(next := Some(0)), job.(attempts := job.attempts + 1));
  }

  lemma {:induction false} ProcessRunsDry(run: Trace, acts: seq<Action>, s: State, id: nat)
    returns (acts': seq<Action>, s': State)
    requires Closed(run) && run(acts, s) && Inv(s) && AtRest(s) && id in s.process && s.process[id].events != []
    ensures run(acts', s') && acts <= acts' && Inv(s') && AtRest(s') && SameRecord(s, s') && s'.history == s.history
    ensures s'.process == s.process - {id}
    decreases ATTEMPTS - s.process[id].attempts
  {
    acts', s' := OneProcessAttempt(run, acts, s, id);
    if s.process[id].attempts + 1 < ATTEMPTS {
      SetTwice(s.process, id, s'.process[id], s'.process[id]);
      acts', s' := ProcessRunsDry(run, acts', s', id);
    }
  }

  /** All history jobs of block b fail for good. */
  lemma {:induction false} NoHistoryLeft(run: Trace, acts: seq<Action>, s: State, b: nat) returns (acts': seq<Action>, s': State)
    requires Closed(run) && run(acts, s) && Inv(s) && AtRest(s)
    ensures run(acts', s') && acts <= acts' && Inv(s') && AtRest(s') && SameRecord(s, s') && s'.process == s.process
    ensures !InHistory(s', b)
    decreases |s.history.Keys|
  {
    acts', s' := acts, s;
    if id :| id in s.history && s.history[id].block == b {
      acts', s' := HistoryRunsDry(run, acts, s, id);
      assert s'.history.Keys == s.history.Keys - {id};
      acts', s' := NoHistoryLeft(run, acts', s', b);
    }
  }

  /** And all its process jobs. */
  lemma {:induction false} NoProcessLeft(run: Trace, acts: seq<Action>, s: State, b: nat) returns (acts': seq<Action>, s': State)
    requires Closed(run) && run(acts, s) && Inv(s) && AtRest(s) && s.chain(b) != []
    ensures run(acts', s') && acts <= acts' && AtRest(s') && SameRecord(s, s') && s'.history == s.history
    ensures !InProcess(s', b)
    decreases |s.process.Keys|
  {
    acts', s' := acts, s;
    if id :| id in s.process && s.process[id].block == b {
      assert ProcessInv(s, s.process[id]);
      acts', s' := ProcessRunsDry(run, acts, s, id);
      assert s'.process.Keys == s.process.Keys - {id};
      acts', s' := NoProcessLeft(run, acts', s', b);
    }
  }

  lemma Crashes(run: Trace, acts: seq<Action>, s: State) returns (acts': seq<Action>, s': State)
    requires Closed(run) && run(acts, s) && Inv(s)
    ensures run(acts', s') && acts <= acts' && Inv(s') && AtRest(s') && SameRecord(s, s')
  {
    Goes(run, acts, s, Crash);
    acts', s' := acts + [Crash], Crashed(s);
  }

  lemma LosesUnrecorded(run: Trace, acts: seq<Action>, s: State, b: nat) returns (acts': seq<Action>, s': State)
    requires Closed(run) && run(acts, s) && Inv(s) && Unrecorded(s, b)
    ensures run(acts', s') && acts <= acts' && Lost(s', b)
  {
    assert s.chain(b) != [];
    var acts1, s1 := Crashes(run, acts, s);
    var acts2, s2 := NoHistoryLeft(run, acts1, s1, b);
    acts', s' := NoProcessLeft(run, acts2, s2, b);
    assert InHistory(s', b) ==> InHistory(s2, b);
    assert Dispatched(s', b) ==> Dispatched(s, b);
  }

  lemma {:induction false} RecordedLasts(s: State, acts: seq<Action>, acts': seq<Action>, b: nat)
    requires Initial(s) && ValidRun(s, acts) && ValidRun(s, acts') && acts <= acts' && Recorded(Exec(s, acts), b)
    ensures Recorded(Exec(s, acts'), b)
    decreases |acts'|
  {
    if |acts'| == |acts| {
      assert acts' == acts;
    } else {
      var front, last := acts'[..|acts'| - 1], acts'[|acts'| - 1];
      RecordedLasts(s, acts, front, b);
      RunKeepsInv(s, front);
      StepKeepsInv(Exec(s, front), last);
    }
  }

  ghost predicate LosesLater(s: State, acts: seq<Action>, acts': seq<Action>, b: nat) {
    acts <= acts' && ValidRun(s, acts') && Lost(Exec(s, acts'), b)
  }

  /**
   * The exact condition. In every reachable state, a tracked block can still be lost - the run
   * goes on to a state with nothing left of it - if and only if it is neither dispatched nor
   * in the table of unprocessed blocks.
   */
  lemma LossIsPossible(s: State, acts: seq<Action>, b: nat)
    requires Initial(s) && ValidRun(s, acts)
    requires var e := Exec(s, acts); e.start.Some? && e.observed.Some? && e.start.value <= b <= e.observed.value
    ensures (exists acts' :: LosesLater(s, acts, acts', b)) <==> !Dispatched(Exec(s, acts), b) && b !in Exec(s, acts).table
  {
    var e := Exec(s, acts);
    RunKeepsInv(s, acts);
    if Recorded(e, b) {
      forall acts' | acts <= acts' && ValidRun(s, acts') ensures !LosesLater(s, acts, acts', b) {
        RecordedLasts(s, acts, acts', b);
      }
    } else {
      TracesAreClosed(s);
      var acts', s' := LosesUnrecorded(TracesFrom(s), acts, e, b);
      assert LosesLater(s, acts, acts', b);
    }
  }

  // ---------------------------------------------------------------- a run

  /** The state of the listener while State.add has nothing but reads behind it. */
  function Fresh(b: nat, adding: Option<AddPc>): State {
    State(n => [n], Some(b), None, {}, map[], map[], {}, 0, {}, map[], adding, None, {}, [], {}, None, 0, 0)
  }

  lemma AddReaches(s0: State, acts: seq<Action>, b: nat, pc: AddPc, next: AddPc, n: nat)
    returns (acts': seq<Action>)
    requires Reaches(s0, acts, Fresh(b, Some(pc))) && AddStep(Fresh(b, Some(pc)), Ok, n) == Fresh(b, Some(next))
    ensures Reaches(s0, acts', Fresh(b, Some(next)))
  {
    Extend(s0, acts, Fresh(b, Some(pc)), Add(Ok, n));
    acts' := acts + [Add(Ok, n)];
  }

  /** State.add with the first block given: it queues block b and sets the watermark to it. */
  lemma StartsTracking(b: nat) returns (acts: seq<Action>, s: State)
    ensures Initial(Fresh(b, None)) && Reaches(Fresh(b, None), acts, s) && Unrecorded(s, b)
  {
    var s0 := Fresh(b, None);
    assert Reaches(s0, [], s0);
    Extend(s0, [], s0, StartAdd);
    acts := AddReaches(s0, [] + [StartAdd], b, AddFetchHeight, AddReadObserved(b), b);
    acts := AddReaches(s0, acts, b, AddReadObserved(b), AddReadTable(b, None), 0);
    acts := AddReaches(s0, acts, b, AddReadTable(b, None), AddRequeue(b, None, {}, None), 0);
    acts := AddReaches(s0, acts, b, AddRequeue(b, None, {}, None), AddFill(b, b, b, None), 0);
    acts, s := FillsAndRaises(s0, acts, b);
  }

  lemma FillsAndRaises(s0: State, acts: seq<Action>, b: nat) returns (acts': seq<Action>, s: State)
    requires Reaches(s0, acts, Fresh(b, Some(AddFill(b, b, b, None))))
    ensures Reaches(s0, acts', s) && Unrecorded(s, b)
  {
    var s1 := Fresh(b, Some(AddFill(b, b, b, None)));
    Extend(s0, acts, s1, Add(Ok, 0));
    var s2 := Apply(s1, Add(Ok, 0));
    Extend(s0, acts + [Add(Ok, 0)], s2, Add(Ok, 0));
    acts', s := acts + [Add(Ok, 0)] + [Add(Ok, 0)], Apply(s2, Add(Ok, 0));
    assert s.chain(b) == [b] && b in s.chain(b) && b !in s.worked;
  }

  /** For every block there is a run that tracks it and loses it for good. */
  lemma BlockCanBeLost(b: nat) returns (acts: seq<Action>, s: State)
    ensures Initial(Fresh(b, None)) && Reaches(Fresh(b, None), acts, s) && Lost(s, b) && b in s.givenUp
  {
    var s0 := Fresh(b, None);
    var acts1, s1 := StartsTracking(b);
    RunKeepsInv(s0, acts1);
    TracesAreClosed(s0);
    acts, s := LosesUnrecorded(TracesFrom(s0), acts1, s1, b);
    NoTrackedBlockLost(s0, acts, b);
  }

  // ---------------------------------------------------------------- empty queues are not enough

  /** Nothing is queued or running, and nothing ran out. */
  ghost predicate Drained(s: State) {
    s.history == map[] && s.process == map[] && s.latest == map[] && s.adding.None? && s.ranOut == []
  }

  /** A [latest] job records block w + 1 and raises the watermark to it, and the process stops. */
  lemma StopsAfterUpsert(run: Trace, acts: seq<Action>, s: State, w: nat) returns (acts': seq<Action>, s': State)
    requires Closed(run) && run(acts, s) && Drained(s) && s.observed == Some(w)
    ensures run(acts', s') && acts <= acts' && Drained(s') && s'.observed == Some(w + 1) && w + 1 in s'.table
    ensures s'.chain == s.chain && s'.worked == s.worked && s'.start == s.start
  {
    var id, a := s.nextId, Latest(s.nextId, Ok, w + 1);
    Step(run, acts, s, StartLatest);
    var s1 := Apply(s, StartLatest);
    Step(run, acts + [StartLatest], s1, a);
    var s2 := LatestStep(s1, id, Ok, w + 1);
    Step(run, acts + [StartLatest] + [a], s2, a);
    var s3 := LatestStep(s2, id, Ok, w + 1);
    Step(run, acts + [StartLatest] + [a] + [a], s3, a);
    var s4 := LatestStep(s3, id, Ok, w + 1);
    Step(run, acts + [StartLatest] + [a] + [a] + [a], s4, a);
    var s5 := LatestStep(s4, id, Ok, w + 1);
    Step(run, acts + [StartLatest] + [a] + [a] + [a] + [a], s5, Crash);
    acts', s' := acts + [StartLatest] + [a] + [a] + [a] + [a] + [Crash], Crashed(s5);
  }

  /**
   * Drained queues do not mean that nothing is missed: from every reachable drained state, if
   * the block after the watermark has an event that is not with the worker yet, the run goes
   * on to a drained state that tracks this block and has it in the table only.
   */
  lemma DrainedQueuesCanMiss(s: State, acts: seq<Action>, w: nat, event: nat) returns (acts': seq<Action>, s': State)
    requires Initial(s) && ValidRun(s, acts) && Drained(Exec(s, acts)) && Exec(s, acts).observed == Some(w)
    requires event in Exec(s, acts).chain(w + 1) && event !in Exec(s, acts).worked
    ensures Reaches(s, acts', s') && acts <= acts' && Drained(s') && s'.observed == Some(w + 1)
    ensures w + 1 in s'.table && event in s'.chain(w + 1) && event !in s'.worked
  {
    TracesAreClosed(s);
    acts', s' := StopsAfterUpsert(TracesFrom(s), acts, Exec(s, acts), w);
  }
}
