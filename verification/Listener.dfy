/**
 * The block listener (core/src/listener) as a step system. Every await is a step boundary;
 * [latest] jobs may overlap each other and State.add; every remote call may fail, and a
 * failed write may still have been applied; the process may crash between any two steps.
 * Queues, tables and the worker queue survive a crash; running [latest] jobs and State.add
 * do not, and running [history] and [processEvent] jobs go back to their queue.
 */
module Listener {
  import opened Wrappers

  const ATTEMPTS: nat := 10

  /** How an awaited call ends. */
  datatype Outcome = Ok | Failed(applied: bool) {
    predicate Applied() { Ok? || applied }
  }

  /** A [history] job: what it is about to do next, and whether it ever recorded its block. */
  datatype HistoryPc = Waiting | Recording | Querying | Pushing
  datatype HistoryJob = HistoryJob(block: nat, attempts: nat, pc: HistoryPc, recorded: bool)

  /** A [processEvent] job; `next` is the index of the event in hand while it runs. */
  datatype ProcessJob = ProcessJob(block: nat, events: seq<nat>, attempts: nat, next: Option<nat>)

  /**
   * A [latest] job: `obs` is the observed block it works from, `height` the chain height,
   * `b` the block in hand. Requeue is its catch block.
   */
  datatype LatestPc =
    | FetchHeight
    | ReadObserved(height: nat)
    | Insert(obs: nat, height: nat)
    | Upsert(obs: nat, height: nat)
    | Query(obs: nat, height: nat, b: nat)
    | Push(obs: nat, height: nat, b: nat)
    | Requeue(obs: nat, height: nat, b: nat)

  /**
   * State.add from its first remote read on. `seen` remembers the watermark at the time the
   * unprocessed blocks were read, `lo` the first block it fills in.
   */
  datatype AddPc =
    | AddFetchHeight
    | AddReadObserved(height: nat)
    | AddReadTable(height: nat, observed: Option<nat>)
    | AddRequeue(height: nat, observed: Option<nat>, todo: set<nat>, seen: Option<nat>)
    | AddFill(height: nat, lo: nat, b: nat, seen: Option<nat>)
    | AddStartAt(height: nat)

  datatype State = State(
    chain: nat -> seq<nat>,        // the events of each block
    init: Option<nat>,             // first block to track, None for [latest] and [clear]
    // tables and queues
    observed: Option<nat>,
    table: set<nat>,
    history: map<nat, HistoryJob>,
    process: map<nat, ProcessJob>,
    keyed: set<nat>,               // blocks whose failure-job id the history queue remembers
    nextId: nat,
    worked: set<nat>,              // events handed to the worker queue
    // running code
    latest: map<nat, LatestPc>,
    adding: Option<AddPc>,
    // history
    start: Option<nat>,            // first tracked block, set with the first watermark
    givenUp: set<nat>,             // blocks of history jobs that ran out without ever recording
    ranOut: seq<nat>,              // blocks of history or process jobs that ran out, in order
    settled: set<(nat, nat)>,      // (obs, height) of latest jobs that returned
    recovered: Option<nat>,        // the watermark State.add last returned with
    readAt: nat,                   // how many jobs had run out when the last State.add read the table
    recoveredAt: nat)              // and when the one that last returned had

  ghost predicate Initial(s: State) {
    && s.observed == None && s.table == {} && s.history == map[] && s.process == map[] && s.keyed == {}
    && s.latest == map[] && s.adding == None && s.start == None && s.givenUp == {} && s.ranOut == []
    && s.settled == {} && s.recovered == None && s.readAt == 0 && s.recoveredAt == 0
  }

  // ---------------------------------------------------------------- tables and queues

  function Max(a: nat, b: nat): nat { if a < b then b else a }

  /** The GREATEST upsert of the observed block. */
  function Raised(observed: Option<nat>, n: nat): Option<nat> {
    if observed.None? then Some(n) else Some(Max(observed.value, n))
  }

  /** The blocks after `obs` up to and including `height`. */
  function After(obs: nat, height: nat): (blocks: set<nat>)
    ensures forall b :: b in blocks <==> obs < b <= height
  {
    if height <= obs then {} else After(obs, height - 1) + {height}
  }

  function WithHistory(s: State, b: nat): State {
    s.(history := s.history[s.nextId := HistoryJob(b, 0, Waiting, false)], nextId := s.nextId + 1)
  }

  /** An add under the job id of the block: ignored while the queue remembers the id. */
  function WithKeyed(s: State, b: nat): State {
    if b in s.keyed then s else WithHistory(s, b).(keyed := s.keyed + {b})
  }

  function WithProcess(s: State, b: nat): State {
    s.(process := s.process[s.nextId := ProcessJob(b, s.chain(b), 0, None)], nextId := s.nextId + 1)
  }

  // ---------------------------------------------------------------- the [latest] job

  function LatestAt(s: State, id: nat, pc: LatestPc): State {
    s.(latest := s.latest[id := pc])
  }

  function LatestEnds(s: State, id: nat): State {
    s.(latest := s.latest - {id})
  }

  function LatestReturns(s: State, id: nat, obs: nat, height: nat): State {
    LatestEnds(s, id).(settled := s.settled + {(obs, height)})
  }

  /** The observed block a [latest] job works from: a height below the watermark reverts it. */
  function WorkFrom(observed: nat, height: nat): nat {
    if height < observed then (if height == 0 then 0 else height - 1) else observed
  }

  function LatestReads(s: State, id: nat, out: Outcome, h: nat): State {
    if !out.Ok? || s.observed.None? then LatestEnds(s, id)
    else
      var obs := WorkFrom(s.observed.value, h);
      if h > obs then LatestAt(s, id, Insert(obs, h)) else LatestReturns(s, id, obs, h)
  }

  function LatestInserts(s: State, id: nat, out: Outcome, obs: nat, h: nat): State {
    var s1 := if out.Applied() then s.(table := s.table + After(obs, h)) else s;
    LatestAt(s1, id, if out.Ok? then Upsert(obs, h) else Requeue(obs, h, obs + 1))
  }

  function LatestUpserts(s: State, id: nat, out: Outcome, obs: nat, h: nat): State {
    var s1 := if out.Applied() then s.(observed := Raised(s.observed, h)) else s;
    LatestAt(s1, id, if out.Ok? then Query(obs, h, obs + 1) else Requeue(obs, h, obs + 1))
  }

  function LatestPushes(s: State, id: nat, out: Outcome, obs: nat, h: nat, b: nat): State {
    var s1 := if out.Applied() then WithProcess(s, b) else s;
    if !out.Ok? then LatestAt(s1, id, Requeue(obs, h, b))
    else if b == h then LatestReturns(s1, id, obs, h)
    else LatestAt(s1, id, Query(obs, h, b + 1))
  }

  function LatestRequeues(s: State, id: nat, out: Outcome, obs: nat, h: nat, b: nat): State {
    var s1 := if out.Applied() then WithKeyed(s, b) else s;
    if !out.Ok? then LatestEnds(s1, id)
    else if b == h then LatestReturns(s1, id, obs, h)
    else LatestAt(s1, id, Requeue(obs, h, b + 1))
  }

  function LatestStep(s: State, id: nat, out: Outcome, height: nat): State
    requires id in s.latest
  {
    match s.latest[id]
    case FetchHeight => if out.Ok? then LatestAt(s, id, ReadObserved(height)) else LatestEnds(s, id)
    case ReadObserved(h) => LatestReads(s, id, out, h)
    case Insert(obs, h) => LatestInserts(s, id, out, obs, h)
    case Upsert(obs, h) => LatestUpserts(s, id, out, obs, h)
    case Query(obs, h, b) => LatestAt(s, id, if out.Ok? then Push(obs, h, b) else Requeue(obs, h, b))
    case Push(obs, h, b) => LatestPushes(s, id, out, obs, h, b)
    case Requeue(obs, h, b) => LatestRequeues(s, id, out, obs, h, b)
  }

  // ---------------------------------------------------------------- State.add

  function AddAt(s: State, pc: AddPc): State { s.(adding := Some(pc)) }

  function AddFails(s: State): State { s.(adding := None) }

  /** The observed-block upsert that ends State.add; the first one fixes where tracking starts. */
  function AddRaises(s: State, out: Outcome, to: nat, first: nat, seen: Option<nat>): State {
    var s1 := if out.Applied()
      then s.(observed := Raised(s.observed, to), start := if s.start.None? then Some(first) else s.start)
      else s;
    if out.Ok? then AddFails(s1).(recovered := Some(if seen.Some? then Max(seen.value, to) else to), recoveredAt := s.readAt)
    else AddFails(s1)
  }

  /** After the unprocessed blocks: fill up from the observed block, or start tracking. */
  function AddAfterTable(s: State, h: nat, o: Option<nat>, seen: Option<nat>): AddPc {
    if o.Some? then AddFill(h, o.value + 1, o.value + 1, seen)
    else if s.init.Some? then AddFill(h, s.init.value, s.init.value, seen)
    else AddStartAt(h)
  }

  /** The unprocessed blocks are read. */
  function AddReads(s: State, h: nat, o: Option<nat>): State {
    AddAt(s, AddRequeue(h, o, s.table, s.observed)).(readAt := |s.ranOut|)
  }

  /** addBlockToHistoryQueue(b), then on to `next`. */
  function AddQueues(s: State, out: Outcome, b: nat, next: AddPc): State {
    var s1 := if out.Applied() then WithHistory(s, b) else s;
    if out.Ok? then AddAt(s1, next) else AddFails(s1)
  }

  /** `n` is the height read, or the row of the table taken next. */
  function AddStep(s: State, out: Outcome, n: nat): State
    requires s.adding.Some?
  {
    match s.adding.value
    case AddFetchHeight => if out.Ok? then AddAt(s, AddReadObserved(n)) else AddFails(s)
    case AddReadObserved(h) => if out.Ok? then AddAt(s, AddReadTable(h, s.observed)) else AddFails(s)
    case AddReadTable(h, o) => if out.Ok? then AddReads(s, h, o) else AddFails(s)
    case AddRequeue(h, o, todo, seen) =>
      if todo == {} then AddAt(s, AddAfterTable(s, h, o, seen))
      else if n !in todo then s
      else AddQueues(s, out, n, AddRequeue(h, o, todo - {n}, seen))
    case AddFill(h, lo, b, seen) =>
      if b <= h then AddQueues(s, out, b, AddFill(h, lo, b + 1, seen)) else AddRaises(s, out, h, lo, seen)
    case AddStartAt(h) =>
      // an upsert of block -1 is rejected
      if h == 0 then AddFails(s) else AddRaises(s, out, h - 1, h, None)
  }

  // ---------------------------------------------------------------- the [history] job

  function HistoryFails(s: State, id: nat, job: HistoryJob): State {
    if job.attempts + 1 < ATTEMPTS
    then s.(history := s.history[id := job.(attempts := job.attempts + 1, pc := Waiting)])
    else HistoryRunsOut(s, id, job)
  }

  function HistoryRunsOut(s: State, id: nat, job: HistoryJob): State {
    s.(history := s.history - {id},
       ranOut := s.ranOut + [job.block],
       givenUp := if job.recorded then s.givenUp else s.givenUp + {job.block})
  }

  function HistoryInserts(s: State, id: nat, job: HistoryJob, out: Outcome): State {
    var job1 := if out.Applied() then job.(recorded := true) else job;
    var s1 := if out.Applied() then s.(table := s.table + {job.block}) else s;
    if out.Ok? then s1.(history := s1.history[id := job1.(pc := Querying)]) else HistoryFails(s1, id, job1)
  }

  function HistoryHandsOver(s: State, id: nat, job: HistoryJob, out: Outcome): State {
    var s1 := if out.Applied() then WithProcess(s, job.block) else s;
    if out.Ok? then s1.(history := s1.history - {id}) else HistoryFails(s1, id, job)
  }

  function HistoryStep(s: State, id: nat, out: Outcome): State
    requires id in s.history
  {
    var job := s.history[id];
    match job.pc
    case Waiting => s.(history := s.history[id := job.(pc := Recording)])
    case Recording => HistoryInserts(s, id, job, out)
    case Querying => if out.Ok? then s.(history := s.history[id := job.(pc := Pushing)]) else HistoryFails(s, id, job)
    case Pushing => HistoryHandsOver(s, id, job, out)
  }

  // ---------------------------------------------------------------- the [processEvent] job

  function ProcessFails(s: State, id: nat, job: ProcessJob): State {
    if job.attempts + 1 < ATTEMPTS
    then s.(process := s.process[id := job.(attempts := job.attempts + 1, next := None)])
    else ProcessRunsOut(s, id, job)
  }

  function ProcessRunsOut(s: State, id: nat, job: ProcessJob): State {
    s.(process := s.process - {id}, ranOut := s.ranOut + [job.block])
  }

  function ProcessDispatch(s: State, id: nat, job: ProcessJob, k: nat, out: Outcome): State
    requires k < |job.events|
  {
    var s1 := if out.Applied() then s.(worked := s.worked + {job.events[k]}) else s;
    if out.Ok? then s1.(process := s1.process[id := job.(next := Some(k + 1))]) else ProcessFails(s1, id, job)
  }

  function ProcessDelete(s: State, id: nat, job: ProcessJob, out: Outcome): State {
    var s1 := if out.Applied() then s.(table := s.table - {job.block}) else s;
    if out.Ok? then s1.(process := s1.process - {id}) else ProcessFails(s1, id, job)
  }

  function ProcessStep(s: State, id: nat, out: Outcome): State
    requires id in s.process
  {
    var job := s.process[id];
    if job.next.None? then s.(process := s.process[id := job.(next := Some(0))])
    else if job.next.value < |job.events| then ProcessDispatch(s, id, job, job.next.value, out)
    else ProcessDelete(s, id, job, out)
  }

  // ---------------------------------------------------------------- runs

  /** Stall actions stand for a job that its queue fails for good after a crash. */
  datatype Action =
    | StartLatest
    | Latest(id: nat, out: Outcome, height: nat)
    | StartAdd
    | Add(out: Outcome, n: nat)
    | History(id: nat, out: Outcome)
    | HistoryStall(id: nat)
    | Process(id: nat, out: Outcome)
    | ProcessStall(id: nat)
    | Forget(block: nat)
    | Crash

  predicate Enabled(s: State, a: Action) {
    match a
    case Latest(id, _, _) => id in s.latest
    case StartAdd => s.adding.None?
    case Add(_, _) => s.adding.Some?
    case History(id, _) => id in s.history
    case HistoryStall(id) => id in s.history && s.history[id].pc != Waiting
    case Process(id, _) => id in s.process
    case ProcessStall(id) => id in s.process && s.process[id].next.Some?
    case _ => true
  }

  function Crashed(s: State): State {
    s.(latest := map[], adding := None,
       history := map id | id in s.history :: s.history[id].(pc := Waiting),
       process := map id | id in s.process :: s.process[id].(next := None))
  }

  function Apply(s: State, a: Action): State
    requires Enabled(s, a)
  {
    match a
    case StartLatest => s.(latest := s.latest[s.nextId := FetchHeight], nextId := s.nextId + 1)
    case Latest(id, out, height) => LatestStep(s, id, out, height)
    case StartAdd => AddAt(s, AddFetchHeight)
    case Add(out, n) => AddStep(s, out, n)
    case History(id, out) => HistoryStep(s, id, out)
    case HistoryStall(id) => HistoryRunsOut(s, id, s.history[id])
    case Process(id, out) => ProcessStep(s, id, out)
    case ProcessStall(id) => ProcessRunsOut(s, id, s.process[id])
    case Forget(block) => s.(keyed := s.keyed - {block})
    case Crash => Crashed(s)
  }

  predicate ValidRun(s: State, acts: seq<Action>)
    decreases |acts|, 0
  {
    acts == [] || (ValidRun(s, acts[..|acts| - 1]) && Enabled(Exec(s, acts[..|acts| - 1]), acts[|acts| - 1]))
  }

  function Exec(s: State, acts: seq<Action>): State
    requires ValidRun(s, acts)
    decreases |acts|, 1
  {
    if acts == [] then s else Apply(Exec(s, acts[..|acts| - 1]), acts[|acts| - 1])
  }

  ghost predicate Reaches(s0: State, acts: seq<Action>, s: State) {
    ValidRun(s0, acts) && Exec(s0, acts) == s
  }

  lemma Extend(s0: State, acts: seq<Action>, s: State, a: Action)
    requires Reaches(s0, acts, s) && Enabled(s, a)
    ensures Reaches(s0, acts + [a], Apply(s, a))
  {
    assert (acts + [a])[..|acts + [a]| - 1] == acts;
  }

  /** Which actions lead to which state. */
  type Trace = (seq<Action>, State) -> bool

  ghost predicate Closed(run: Trace) {
    forall acts: seq<Action>, s: State, a: Action {:trigger acts + [a], Apply(s, a)} ::
      run(acts, s) && Enabled(s, a) ==> run(acts + [a], Apply(s, a))
  }

  ghost function TracesFrom(s0: State): Trace {
    (acts: seq<Action>, s: State) => Reaches(s0, acts, s)
  }

  lemma TracesAreClosed(s0: State)
    ensures Closed(TracesFrom(s0)) && TracesFrom(s0)([], s0)
  {
    assert Reaches(s0, [], s0);
    forall acts: seq<Action>, s: State, a: Action | TracesFrom(s0)(acts, s) && Enabled(s, a)
      ensures TracesFrom(s0)(acts + [a], Apply(s, a))
    {
      Extend(s0, acts, s, a);
    }
  }

  lemma Step(run: Trace, acts: seq<Action>, s: State, a: Action)
    requires Closed(run) && run(acts, s) && Enabled(s, a)
    ensures run(acts + [a], Apply(s, a))
  {
  }

  /** Setting a key again leaves the last value only. */
  lemma SetTwice<V>(m: map<nat, V>, id: nat, v: V, w: V)
    ensures m[id := v][id := w] == m[id := w] && m[id := v] - {id} == m - {id}
  {
  }
}
