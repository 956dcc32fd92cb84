/**
 * Where tracking starts, which blocks a [latest] job takes on, how often jobs are tried before
 * they run out, and that the listener catches up with the chain.
 */
module ListenerLimits {
  import opened Wrappers
  import opened Listener
  import opened ListenerSafety
  import opened ListenerDrain

  // ---------------------------------------------------------------- where tracking starts

  /** State.add has read chain height h. */
  ghost predicate HeightRead(acts: seq<Action>, h: nat) {
    Add(Ok, h) in acts
  }

  ghost predicate StartInv(s: State, acts: seq<Action>) {
    && (s.start.Some? ==> if s.init.Some? then s.start == s.init else HeightRead(acts, s.start.value))
    && (s.adding.Some? && !s.adding.value.AddFetchHeight? ==> HeightRead(acts, s.adding.value.height))
    && (s.adding.Some? && s.adding.value.AddFill? && s.start.None? ==> s.init == Some(s.adding.value.lo))
    && (s.adding.Some? && s.adding.value.AddStartAt? ==> s.init.None?)
  }

  lemma ReadsStay(acts: seq<Action>, a: Action)
    ensures forall h: nat :: HeightRead(acts, h) ==> HeightRead(acts + [a], h)
    ensures a.Add? && a.out.Ok? ==> HeightRead(acts + [a], a.n)
  {
  }

  predicate SameStart(s: State, s': State) {
    s'.start == s.start && s'.init == s.init && s'.adding == s.adding
  }

  lemma LatestSameStart(s: State, id: nat, out: Outcome, height: nat)
    requires id in s.latest
    ensures SameStart(s, LatestStep(s, id, out, height))
  {
  }

  lemma HistorySameStart(s: State, id: nat, out: Outcome)
    requires id in s.history
    ensures SameStart(s, HistoryStep(s, id, out))
  {
  }

  lemma ProcessSameStart(s: State, id: nat, out: Outcome)
    requires id in s.process
    ensures SameStart(s, ProcessStep(s, id, out))
  {
  }

  /** Steps other than those of State.add leave the start alone. */
  lemma OtherSteps(s: State, a: Action)
    requires Enabled(s, a) && !a.Add? && !a.StartAdd? && !a.Crash?
    ensures SameStart(s, Apply(s, a))
  {
    match a
    case Latest(id, out, height) => LatestSameStart(s, id, out, height);
    case History(id, out) => HistorySameStart(s, id, out);
    case Process(id, out) => ProcessSameStart(s, id, out);
    case _ =>
  }

  lemma AddRaisesStart(s: State, acts: seq<Action>, out: Outcome, to: nat, first: nat, seen: Option<nat>)
    requires s.start.Some? ==> if s.init.Some? then s.start == s.init else HeightRead(acts, s.start.value)
    requires s.start.None? ==> if s.init.Some? then s.init == Some(first) else HeightRead(acts, first)
    ensures StartInv(AddRaises(s, out, to, first, seen), acts)
  {
  }

  lemma AddQueuesStart(s: State, acts: seq<Action>, out: Outcome, b: nat, next: AddPc)
    requires s.start.Some? ==> if s.init.Some? then s.start == s.init else HeightRead(acts, s.start.value)
    requires !next.AddFetchHeight? && HeightRead(acts, next.height) && !next.AddStartAt?
    requires next.AddFill? && s.start.None? ==> s.init == Some(next.lo)
    ensures StartInv(AddQueues(s, out, b, next), acts)
  {
  }

  lemma AddAfterTableStart(s: State, acts: seq<Action>, h: nat, o: Option<nat>, seen: Option<nat>)
    requires s.start.Some? ==> if s.init.Some? then s.start == s.init else HeightRead(acts, s.start.value)
    requires HeightRead(acts, h) && (o.Some? ==> s.start.Some?)
    ensures StartInv(AddAt(s, AddAfterTable(s, h, o, seen)), acts)
  {
  }

  lemma AddReadsStart(s: State, acts: seq<Action>, out: Outcome, n: nat)
    requires s.adding.Some? && StartInv(s, acts) && (out.Ok? ==> HeightRead(acts, n))
    requires s.adding.value.AddFetchHeight? || s.adding.value.AddReadObserved? || s.adding.value.AddReadTable?
    ensures StartInv(AddStep(s, out, n), acts)
  {
  }

  lemma AddStepKeepsStart(s: State, acts: seq<Action>, out: Outcome, n: nat)
    requires Inv(s) && s.adding.Some? && StartInv(s, acts) && (out.Ok? ==> HeightRead(acts, n))
    ensures StartInv(AddStep(s, out, n), acts)
  {
    match s.adding.value
    case AddRequeue(h, o, todo, seen) =>
      if todo == {} { AddAfterTableStart(s, acts, h, o, seen); }
      else if n in todo { AddQueuesStart(s, acts, out, n, AddRequeue(h, o, todo - {n}, seen)); }
    case AddFill(h, lo, b, seen) =>
      if b <= h { AddQueuesStart(s, acts, out, b, AddFill(h, lo, b + 1, seen)); } else { AddRaisesStart(s, acts, out, h, lo, seen); }
    case AddStartAt(h) => if h > 0 { AddRaisesStart(s, acts, out, h - 1, h, None); }
    case _ => AddReadsStart(s, acts, out, n);
  }

  lemma {:induction false} RunStarts(s: State, acts: seq<Action>)
    requires Initial(s) && ValidRun(s, acts)
    ensures StartInv(Exec(s, acts), acts)
  {
    if acts != [] {
      var front, a := acts[..|acts| - 1], acts[|acts| - 1];
      assert acts == front + [a];
      RunKeepsInv(s, front);
      RunStarts(s, front);
      StepStarts(Exec(s, front), front, a);
    }
  }

  lemma StepStarts(s: State, acts: seq<Action>, a: Action)
    requires Inv(s) && Enabled(s, a) && StartInv(s, acts)
    ensures StartInv(Apply(s, a), acts + [a])
  {
    ReadsStay(acts, a);
    if a.Add? {
      AddStepKeepsStart(s, acts + [a], a.out, a.n);
    } else if !a.StartAdd? && !a.Crash? {
      OtherSteps(s, a);
    }
  }

  /**
   * Tracking starts where it was asked to: at the block given, or for [latest] and [clear] at a
   * chain height that State.add has read.
   */
  lemma TrackingStartsAsAsked(s: State, acts: seq<Action>)
    requires Initial(s) && ValidRun(s, acts) && Exec(s, acts).start.Some?
    ensures var start := Exec(s, acts).start.value;
            if s.init.Some? then start == s.init.value else Add(Ok, start) in acts
  {
    RunStarts(s, acts);
    InitStays(s, acts);
  }

  lemma {:induction false} InitStays(s: State, acts: seq<Action>)
    requires Initial(s) && ValidRun(s, acts)
    ensures Exec(s, acts).init == s.init
  {
    if acts != [] {
      InitStays(s, acts[..|acts| - 1]);
      RunKeepsInv(s, acts[..|acts| - 1]);
      StepKeepsInv(Exec(s, acts[..|acts| - 1]), acts[|acts| - 1]);
    }
  }

  // ---------------------------------------------------------------- what a [latest] job takes on

  /** The blocks a [latest] job that has read the watermark will record. */
  predicate TakesOn(s: State, id: nat, b: nat) {
    id in s.latest && s.latest[id].Insert? && s.latest[id].obs < b <= s.latest[id].height
  }

  /**
   * Having read height h and watermark w, a [latest] job takes on exactly the blocks after w up
   * to h; if the chain is behind the watermark, exactly its head.
   */
  lemma LatestTakesOn(s: State, acts: seq<Action>, id: nat, h: nat, w: nat, n: nat, b: nat)
    requires Initial(s) && ValidRun(s, acts)
    requires var e := Exec(s, acts); id in e.latest && e.latest[id] == ReadObserved(h) && e.observed == Some(w)
    ensures TakesOn(Apply(Exec(s, acts), Latest(id, Ok, n)), id, b) <==> w < b <= h || (0 < b == h < w)
  {
  }

  // ---------------------------------------------------------------- attempts

  predicate Fails(a: Action, id: nat) {
    (a.History? || a.Process?) && a.id == id && !a.out.Ok?
  }

  function Failures(acts: seq<Action>, id: nat): nat {
    if acts == [] then 0 else Failures(acts[..|acts| - 1], id) + if Fails(acts[|acts| - 1], id) then 1 else 0
  }

  /** Job id failed ten times, or its queue gave it up after a crash. */
  ghost predicate TriedInFull(acts: seq<Action>, id: nat) {
    Failures(acts, id) >= 10 || HistoryStall(id) in acts || ProcessStall(id) in acts
  }

  ghost predicate AttemptsInv(s: State, acts: seq<Action>) {
    && (forall id :: id in s.history ==> s.history[id].attempts <= Failures(acts, id))
    && (forall id :: id in s.process ==> s.process[id].attempts <= Failures(acts, id))
    && (forall b :: b in s.ranOut ==> exists id: nat :: TriedInFull(acts, id))
  }

  lemma FailuresMore(acts: seq<Action>, a: Action)
    ensures forall id: nat :: Failures(acts + [a], id) == Failures(acts, id) + if Fails(a, id) then 1 else 0
    ensures forall id: nat :: TriedInFull(acts, id) ==> TriedInFull(acts + [a], id)
  {
    assert (acts + [a])[..|acts|] == acts;
  }

  /** What a step does to attempts and to the list of blocks whose jobs ran out. */
  ghost predicate Tried(s: State, s': State, a: Action) {
    && (forall id :: id in s'.history && s'.history[id].attempts > 0 ==>
          id in s.history && s'.history[id].attempts <= s.history[id].attempts + if Fails(a, id) then 1 else 0)
    && (forall id :: id in s'.process && s'.process[id].attempts > 0 ==>
          id in s.process && s'.process[id].attempts <= s.process[id].attempts + if Fails(a, id) then 1 else 0)
    && (s'.ranOut == s.ranOut || a.HistoryStall? || a.ProcessStall?
        || (a.History? && Fails(a, a.id) && a.id in s.history && s.history[a.id].attempts >= 9)
        || (a.Process? && Fails(a, a.id) && a.id in s.process && s.process[a.id].attempts >= 9))
  }

  lemma HistoryFailTries(s: State, s1: State, id: nat, job: HistoryJob, out: Outcome)
    requires id in s.history && job.attempts == s.history[id].attempts && !out.Ok?
    requires s1.history == s.history && s1.ranOut == s.ranOut
    requires forall p :: p in s1.process ==> s1.process[p].attempts == 0 || (p in s.process && s1.process[p] == s.process[p])
    ensures Tried(s, HistoryFails(s1, id, job), History(id, out))
  {
  }

  /** No attempt is counted: every job is as tried as it was, or new. */
  ghost predicate NoneTried(s: State, s': State) {
    && s'.ranOut == s.ranOut
    && (forall id :: id in s'.history && s'.history[id].attempts > 0 ==>
          id in s.history && s'.history[id].attempts == s.history[id].attempts)
    && (forall id :: id in s'.process && s'.process[id].attempts > 0 ==>
          id in s.process && s'.process[id].attempts == s.process[id].attempts)
  }

  lemma NoneTriedIsTried(s: State, s': State, a: Action)
    requires NoneTried(s, s')
    ensures Tried(s, s', a)
  {
  }

  lemma HistoryInsertTries(s: State, id: nat, out: Outcome)
    requires id in s.history
    ensures Tried(s, HistoryInserts(s, id, s.history[id], out), History(id, out))
  {
    var job := s.history[id];
    var job1, s1 := if out.Applied() then job.(recorded := true) else job, if out.Applied() then s.(table := s.table + {job.block}) else s;
    if out.Ok? {
      NoneTriedIsTried(s, HistoryInserts(s, id, job, out), History(id, out));
    } else {
      HistoryFailTries(s, s1, id, job1, out);
    }
  }

  lemma HistoryPushTries(s: State, id: nat, out: Outcome)
    requires id in s.history
    ensures Tried(s, HistoryHandsOver(s, id, s.history[id], out), History(id, out))
  {
    var job := s.history[id];
    if out.Ok? {
      NoneTriedIsTried(s, HistoryHandsOver(s, id, job, out), History(id, out));
    } else {
      HistoryFailTries(s, if out.Applied() then WithProcess(s, job.block) else s, id, job, out);
    }
  }

  lemma HistoryTries(s: State, id: nat, out: Outcome)
    requires id in s.history
    ensures Tried(s, HistoryStep(s, id, out), History(id, out))
  {
    match s.history[id].pc
    case Waiting => NoneTriedIsTried(s, HistoryStep(s, id, out), History(id, out));
    case Recording => HistoryInsertTries(s, id, out);
    case Querying =>
      if out.Ok? { NoneTriedIsTried(s, HistoryStep(s, id, out), History(id, out)); }
      else { HistoryFailTries(s, s, id, s.history[id], out); }
    case Pushing => HistoryPushTries(s, id, out);
  }

  lemma ProcessTries(s: State, id: nat, out: Outcome)
    requires id in s.process
    ensures Tried(s, ProcessStep(s, id, out), Process(id, out))
  {
    var job := s.process[id];
    if job.next.None? || out.Ok? {
      NoneTriedIsTried(s, ProcessStep(s, id, out), Process(id, out));
    } else if job.next.value < |job.events| {
      ProcessFailTries(s, if out.Applied() then s.(worked := s.worked + {job.events[job.next.value]}) else s, id, out);
    } else {
      ProcessFailTries(s, if out.Applied() then s.(table := s.table - {job.block}) else s, id, out);
    }
  }

  lemma ProcessFailTries(s: State, s1: State, id: nat, out: Outcome)
    requires id in s.process && !out.Ok? && s1.history == s.history && s1.process == s.process && s1.ranOut == s.ranOut
    ensures Tried(s, ProcessFails(s1, id, s.process[id]), Process(id, out))
  {
  }

  lemma LatestTries(s: State, id: nat, out: Outcome, height: nat)
    requires id in s.latest
    ensures NoneTried(s, LatestStep(s, id, out, height))
  {
    match s.latest[id]
    case Push(obs, h, b) => LatestPushTries(s, id, out, obs, h, b);
    case Requeue(obs, h, b) => LatestRequeueTries(s, id, out, obs, h, b);
    case _ =>
  }

  lemma LatestPushTries(s: State, id: nat, out: Outcome, obs: nat, h: nat, b: nat)
    ensures NoneTried(s, LatestPushes(s, id, out, obs, h, b))
  {
  }

  lemma LatestRequeueTries(s: State, id: nat, out: Outcome, obs: nat, h: nat, b: nat)
    ensures NoneTried(s, LatestRequeues(s, id, out, obs, h, b))
  {
  }

  lemma AddTries(s: State, out: Outcome, n: nat)
    requires s.adding.Some?
    ensures NoneTried(s, AddStep(s, out, n))
  {
    match s.adding.value
    case AddRequeue(h, o, todo, seen) =>
      if n in todo { AddQueueTries(s, out, n, AddRequeue(h, o, todo - {n}, seen)); } else { SameJobsTries(s, AddStep(s, out, n)); }
    case AddFill(h, lo, b, seen) =>
      if b <= h { AddQueueTries(s, out, b, AddFill(h, lo, b + 1, seen)); } else { SameJobsTries(s, AddStep(s, out, n)); }
    case _ => SameJobsTries(s, AddStep(s, out, n));
  }

  lemma SameJobsTries(s: State, s': State)
    requires s'.history == s.history && s'.process == s.process && s'.ranOut == s.ranOut
    ensures NoneTried(s, s')
  {
  }

  lemma AddQueueTries(s: State, out: Outcome, b: nat, next: AddPc)
    ensures NoneTried(s, AddQueues(s, out, b, next))
  {
  }

  lemma StepTries(s: State, a: Action)
    requires Enabled(s, a)
    ensures Tried(s, Apply(s, a), a)
  {
    match a
    case History(id, out) => HistoryTries(s, id, out);
    case Process(id, out) => ProcessTries(s, id, out);
    case Latest(id, out, height) => LatestTries(s, id, out, height); NoneTriedIsTried(s, Apply(s, a), a);
    case Add(out, n) => AddTries(s, out, n); NoneTriedIsTried(s, Apply(s, a), a);
    case _ =>
  }

  lemma StepKeepsAttempts(s: State, acts: seq<Action>, a: Action)
    requires Enabled(s, a) && AttemptsInv(s, acts)
    ensures AttemptsInv(Apply(s, a), acts + [a])
  {
    var s', acts' := Apply(s, a), acts + [a];
    StepTries(s, a);
    FailuresMore(acts, a);
    assert a in acts';
    if s'.ranOut != s.ranOut {
      assert TriedInFull(acts', a.id);
    } else {
      forall b | b in s'.ranOut ensures exists id: nat :: TriedInFull(acts', id) {
        var id: nat :| TriedInFull(acts, id);
      }
    }
  }

  lemma {:induction false} RunKeepsAttempts(s: State, acts: seq<Action>)
    requires Initial(s) && ValidRun(s, acts)
    ensures AttemptsInv(Exec(s, acts), acts)
  {
    if acts != [] {
      var front, a := acts[..|acts| - 1], acts[|acts| - 1];
      assert acts == front + [a];
      RunKeepsAttempts(s, front);
      StepKeepsAttempts(Exec(s, front), front, a);
    }
  }

  /**
   * No job runs out early: if a block is given up or a job for it ran out, some job failed ten
   * times or was given up by its queue after a crash.
   */
  lemma JobsGetTenAttempts(s: State, acts: seq<Action>, b: nat)
    requires Initial(s) && ValidRun(s, acts) && (b in Exec(s, acts).givenUp || b in Exec(s, acts).ranOut)
    ensures exists id: nat :: TriedInFull(acts, id)
  {
    RunKeepsAttempts(s, acts);
    RunKeepsInv(s, acts);
    GivenUpRanOut(Exec(s, acts), b);
  }

  lemma GivenUpRanOut(s: State, b: nat)
    requires JobsInv(s)
    ensures b in s.givenUp ==> b in s.ranOut
  {
    if b in s.givenUp {
      var i :| 0 <= i < |s.ranOut| && s.ranOut[i] == b;
    }
  }

  // ---------------------------------------------------------------- catching up

  /** A [latest] job sees height h, records the blocks up to it and raises the watermark. */
  lemma SeesHead(run: Trace, acts: seq<Action>, s: State, w: nat, h: nat) returns (acts': seq<Action>, s': State)
    requires Closed(run) && run(acts, s) && Inv(s) && s.observed == Some(w) && w < h
    ensures run(acts', s') && acts <= acts' && Inv(s') && s'.observed == Some(h)
    ensures s'.chain == s.chain && s'.start == s.start && s'.givenUp == s.givenUp
  {
    var id := s.nextId;
    Goes(run, acts, s, StartLatest);
    var acts1, s1 := ReadsHead(run, acts + [StartLatest], Apply(s, StartLatest), id, w, h);
    acts', s' := Records(run, acts1, s1, id, w, h);
  }

  lemma ReadsHead(run: Trace, acts: seq<Action>, s: State, id: nat, w: nat, h: nat) returns (acts': seq<Action>, s': State)
    requires Closed(run) && run(acts, s) && Inv(s) && s.observed == Some(w) && w < h && id in s.latest && s.latest[id] == FetchHeight
    ensures run(acts', s') && acts <= acts' && Inv(s') && s' == s.(latest := s'.latest)
    ensures id in s'.latest && s'.latest[id] == Insert(w, h)
  {
    var a := Latest(id, Ok, h);
    Goes(run, acts, s, a);
    var s1 := LatestStep(s, id, Ok, h);
    Goes(run, acts + [a], s1, a);
    acts', s' := acts + [a] + [a], LatestStep(s1, id, Ok, h);
  }

  lemma Records(run: Trace, acts: seq<Action>, s: State, id: nat, w: nat, h: nat) returns (acts': seq<Action>, s': State)
    requires Closed(run) && run(acts, s) && Inv(s) && s.observed == Some(w) && w < h && id in s.latest && s.latest[id] == Insert(w, h)
    ensures run(acts', s') && acts <= acts' && Inv(s') && s'.observed == Some(h)
    ensures s'.chain == s.chain && s'.start == s.start && s'.givenUp == s.givenUp
  {
    var a := Latest(id, Ok, h);
    Goes(run, acts, s, a);
    var s1 := LatestStep(s, id, Ok, h);
    Goes(run, acts + [a], s1, a);
    acts', s' := acts + [a] + [a], LatestStep(s1, id, Ok, h);
  }

  /**
   * The listener catches up: from every reachable state with a watermark, and any chain height
   * h above it, the run goes on to watermark h with the table and the history queue empty and
   * every event of every tracked block up to h, blocks given up before aside, with the worker.
   */
  lemma CatchesUp(s: State, acts: seq<Action>, w: nat, h: nat) returns (acts': seq<Action>, s': State)
    requires Initial(s) && ValidRun(s, acts) && Exec(s, acts).observed == Some(w) && w < h
    ensures Reaches(s, acts', s') && acts <= acts' && s'.observed == Some(h) && s'.start == Exec(s, acts).start && s'.start.Some?
    ensures s'.table == {} && s'.history == map[] && s'.givenUp == Exec(s, acts).givenUp
    ensures forall b: nat :: s'.start.value <= b <= h && b !in s'.givenUp ==> Dispatched(s', b)
  {
    RunKeepsInv(s, acts);
    TracesAreClosed(s);
    var acts1, s1 := SeesHead(TracesFrom(s), acts, Exec(s, acts), w, h);
    acts', s' := DrainsAll(TracesFrom(s), acts1, s1, h);
    forall b: nat | s'.start.value <= b <= h && b !in s'.givenUp ensures Dispatched(s', b) {
      assert Covered(s', b);
    }
  }
}
