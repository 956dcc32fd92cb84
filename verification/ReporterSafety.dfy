/** Whose nonces are whose, over every interleaving of retried jobs, and how often a job sends. */
module ReporterSafety {
  import opened Wrappers
  import opened ReporterNonces

  /** A nonce that was taken lies below the counter of its epoch, or in an earlier epoch. */
  ghost predicate Spent(s: State, t: Token) {
    && t.to in s.nonces && t.to in s.epochs && t.epoch <= s.epochs[t.to]
    && (t.epoch == s.epochs[t.to] ==> t.nonce < s.nonces[t.to])
  }

  ghost predicate Owns(s: State, id: string, t: Token) {
    t in s.taken && s.taken[t] == id
  }

  ghost predicate JobInv(s: State, id: string, j: Job) {
    && Owns(s, id, j.token)
    && (j.exec.Some? ==>
          && Owns(s, id, j.exec.value.tx) && j.exec.value.tx.to == j.token.to
          && j.exec.value.run < s.runs && j.exec.value.trial <= TRIALS
          && (j.exec.value.phase == Sending ==> j.exec.value.trial < TRIALS)
          && (s.delegatedFee && j.exec.value.trial > 0 ==> !j.exec.value.delegatorOkay))
  }

  ghost predicate Inv(s: State) {
    && s.epochs.Keys == s.nonces.Keys
    && (forall t :: t in s.taken ==> Spent(s, t))
    && (forall id :: id in s.jobs ==> JobInv(s, id, s.jobs[id]))
    && (forall i :: 0 <= i < |s.log| ==> Owns(s, s.log[i].job, s.log[i].token) && s.log[i].run < s.runs)
  }

  /** The next nonce of an address has not been taken by anybody in this epoch. */
  lemma NextIsNew(s: State, to: string)
    requires Inv(s) && to in s.nonces
    ensures Next(s, to) !in s.taken
  {
    assert !Spent(s, Next(s, to));
  }

  lemma TakeKeepsInv(s: State, to: string, id: string)
    requires Inv(s) && to in s.nonces
    ensures Inv(Take(s, to, id)) && Owns(Take(s, to, id), id, Next(s, to))
  {
    NextIsNew(s, to);
    var s' := Take(s, to, id);
    forall t | t in s'.taken ensures Spent(s', t) {
      assert t != Next(s, to) ==> Spent(s, t);
    }
    forall x | x in s'.jobs ensures JobInv(s', x, s'.jobs[x]) {
      assert JobInv(s, x, s.jobs[x]);
    }
  }

  /** Giving one job a new record keeps the invariant when that record does. */
  lemma PutKeepsInv(s: State, id: string, j: Job)
    requires Inv(s) && JobInv(s, id, j)
    ensures Inv(s.(jobs := s.jobs[id := j]))
  {
    var s' := s.(jobs := s.jobs[id := j]);
    forall t | t in s'.taken ensures Spent(s', t) { assert Spent(s, t); }
    forall x | x in s'.jobs ensures JobInv(s', x, s'.jobs[x]) {
      assert x != id ==> JobInv(s, x, s.jobs[x]);
    }
  }

  lemma RestartKeepsInv(s: State, to: string, nonce: nat)
    requires Inv(s)
    ensures Inv(OnRestart(s, to, nonce))
  {
    var s' := OnRestart(s, to, nonce);
    forall t | t in s'.taken ensures Spent(s', t) { assert Spent(s, t); }
    forall x | x in s'.jobs ensures JobInv(s', x, s'.jobs[x]) { assert JobInv(s, x, s.jobs[x]); }
  }

  lemma ManageKeepsInv(s: State, id: string, to: string, queued: bool)
    requires Inv(s) && to in s.nonces
    ensures Inv(OnManage(s, id, to, queued))
  {
    TakeKeepsInv(s, to, id);
    if queued && id !in s.jobs { PutKeepsInv(Take(s, to, id), id, Job(Next(s, to), ATTEMPTS, None)); }
  }

  lemma RaiseRunsKeepsInv(s: State)
    requires Inv(s)
    ensures Inv(s.(runs := s.runs + 1))
  {
    var s' := s.(runs := s.runs + 1);
    forall t | t in s'.taken ensures Spent(s', t) { assert Spent(s, t); }
    forall x | x in s'.jobs ensures JobInv(s', x, s'.jobs[x]) { assert JobInv(s, x, s.jobs[x]); }
  }

  lemma StartKeepsInv(s: State, id: string, walletActive: bool)
    requires Inv(s) && Enabled(s, Start(id, walletActive))
    ensures Inv(OnStart(s, id, walletActive))
  {
    assert JobInv(s, id, s.jobs[id]);
    var j := s.jobs[id].(left := s.jobs[id].left - 1);
    if walletActive {
      RaiseRunsKeepsInv(s);
      PutKeepsInv(s.(runs := s.runs + 1), id, j.(exec := Some(Execution(s.runs, 0, j.token, true, Sending))));
    } else {
      PutKeepsInv(s, id, j);
    }
  }

  lemma LogKeepsInv(s: State, id: string)
    requires Inv(s) && id in s.jobs && s.jobs[id].exec.Some?
    ensures var e := s.jobs[id].exec.value; Inv(s.(log := s.log + [SendEvent(id, e.run, e.tx, Era(s, e.tx.to))]))
  {
    var e := s.jobs[id].exec.value;
    var s' := s.(log := s.log + [SendEvent(id, e.run, e.tx, Era(s, e.tx.to))]);
    assert JobInv(s, id, s.jobs[id]);
    forall t | t in s'.taken ensures Spent(s', t) { assert Spent(s, t); }
    forall x | x in s'.jobs ensures JobInv(s', x, s'.jobs[x]) { assert JobInv(s, x, s.jobs[x]); }
  }

  lemma SendKeepsInv(s: State, id: string, result: SendResult)
    requires Inv(s) && Enabled(s, Send(id, result))
    ensures Inv(OnSend(s, id, result))
  {
    var e := s.jobs[id].exec.value;
    assert JobInv(s, id, s.jobs[id]);
    LogKeepsInv(s, id);
    PutKeepsInv(s.(log := s.log + [SendEvent(id, e.run, e.tx, Era(s, e.tx.to))]), id,
                GoesOn(s.jobs[id], AfterSend(s.delegatedFee, e, result), Throws(s.delegatedFee, e, result)));
  }

  lemma RenewKeepsInv(s: State, id: string)
    requires Inv(s) && Enabled(s, Renew(id))
    ensures Inv(OnRenew(s, id))
  {
    var j := s.jobs[id];
    assert JobInv(s, id, j);
    TakeKeepsInv(s, j.token.to, id);
    assert JobInv(Take(s, j.token.to, id), id, j);
    PutKeepsInv(Take(s, j.token.to, id), id, GoesOn(j, NextTrial(j.exec.value.(tx := Next(s, j.token.to))), false));
  }

  lemma RemoveKeepsInv(s: State, id: string)
    requires Inv(s)
    ensures Inv(s.(jobs := s.jobs - {id}))
  {
    var s' := s.(jobs := s.jobs - {id});
    forall t | t in s'.taken ensures Spent(s', t) { assert Spent(s, t); }
    forall x | x in s'.jobs ensures JobInv(s', x, s'.jobs[x]) { assert JobInv(s, x, s.jobs[x]); }
  }

  lemma StepKeepsInv(s: State, a: Action)
    requires Inv(s) && Enabled(s, a)
    ensures Inv(Apply(s, a))
  {
    match a
    case Restart(to, nonce) => RestartKeepsInv(s, to, nonce);
    case Manage(id, to, queued) => ManageKeepsInv(s, id, to, queued);
    case Start(id, walletActive) => StartKeepsInv(s, id, walletActive);
    case Send(id, result) => SendKeepsInv(s, id, result);
    case Renew(id) => RenewKeepsInv(s, id);
    case Remove(id) => RemoveKeepsInv(s, id);
  }

  // ---------------------------------------------------------------- at most three sends

  function SendsOf(log: seq<SendEvent>, run: nat): nat {
    if log == [] then 0 else SendsOf(log[..|log| - 1], run) + (if log[|log| - 1].run == run then 1 else 0)
  }

  lemma {:induction false} NoSendsYet(log: seq<SendEvent>, run: nat)
    requires forall i :: 0 <= i < |log| ==> log[i].run < run
    ensures SendsOf(log, run) == 0
  {
    if log != [] { NoSendsYet(log[..|log| - 1], run); }
  }

  lemma SendAdds(log: seq<SendEvent>, e: SendEvent, run: nat)
    ensures SendsOf(log + [e], run) == SendsOf(log, run) + (if e.run == run then 1 else 0)
  {
    assert (log + [e])[..|log|] == log;
  }

  /** Sends are counted by the trial of the running execution, and never exceed three. */
  ghost predicate CountInv(s: State) {
    && (forall run: nat :: SendsOf(s.log, run) <= TRIALS)
    && (forall id :: id in s.jobs && s.jobs[id].exec.Some? ==>
          SendsOf(s.log, s.jobs[id].exec.value.run) == s.jobs[id].exec.value.trial)
    && (forall a, b :: a in s.jobs && b in s.jobs && a != b && s.jobs[a].exec.Some? && s.jobs[b].exec.Some? ==>
          s.jobs[a].exec.value.run != s.jobs[b].exec.value.run)
  }

  /** One more send of job `id`, whose execution `e` then goes on as in `j` or is over. */
  lemma SendCounted(s: State, s': State, id: string, e: Execution, j: Job)
    requires CountInv(s) && id in s.jobs && s.jobs[id].exec == Some(e) && e.trial < TRIALS
    requires s'.jobs == s.jobs[id := j] && s'.log == s.log + [SendEvent(id, e.run, e.tx, Era(s, e.tx.to))]
    requires j.exec.Some? ==> j.exec.value.run == e.run && j.exec.value.trial == e.trial + 1
    ensures CountInv(s')
  {
    forall run: nat ensures SendsOf(s'.log, run) == SendsOf(s.log, run) + (if e.run == run then 1 else 0) {
      SendAdds(s.log, SendEvent(id, e.run, e.tx, Era(s, e.tx.to)), run);
    }
  }

  lemma SendKeepsCount(s: State, id: string, result: SendResult)
    requires Inv(s) && CountInv(s) && Enabled(s, Send(id, result))
    ensures CountInv(OnSend(s, id, result))
  {
    var e := s.jobs[id].exec.value;
    assert JobInv(s, id, s.jobs[id]);
    SendCounted(s, OnSend(s, id, result), id, e, OnSend(s, id, result).jobs[id]);
  }

  lemma StartKeepsCount(s: State, id: string, walletActive: bool)
    requires Inv(s) && CountInv(s) && Enabled(s, Start(id, walletActive))
    ensures CountInv(OnStart(s, id, walletActive))
  {
    NoSendsYet(s.log, s.runs);
    forall x | x in s.jobs && s.jobs[x].exec.Some? ensures s.jobs[x].exec.value.run < s.runs {
      assert JobInv(s, x, s.jobs[x]);
    }
  }

  /** Steps that send nothing and start nothing keep the trials and the runs they hold. */
  lemma QuietKeepsCount(s: State, s': State)
    requires CountInv(s) && s'.log == s.log
    requires forall x :: x in s'.jobs && s'.jobs[x].exec.Some? ==>
               && x in s.jobs && s.jobs[x].exec.Some? && s'.jobs[x].exec.value.run == s.jobs[x].exec.value.run
               && s'.jobs[x].exec.value.trial == s.jobs[x].exec.value.trial
    ensures CountInv(s')
  {
  }

  /** Managing and renewing change no run, trial or log entry. */
  lemma TakeKeepsCount(s: State, a: Action)
    requires Inv(s) && CountInv(s) && Enabled(s, a) && (a.Manage? || a.Renew?)
    ensures CountInv(Apply(s, a))
  {
    QuietKeepsCount(s, Apply(s, a));
  }

  lemma StepKeepsCount(s: State, a: Action)
    requires Inv(s) && CountInv(s) && Enabled(s, a)
    ensures CountInv(Apply(s, a))
  {
    match a
    case Send(id, result) => SendKeepsCount(s, id, result);
    case Start(id, walletActive) => StartKeepsCount(s, id, walletActive);
    case Restart(to, nonce) => QuietKeepsCount(s, OnRestart(s, to, nonce));
    case Manage(_, _, _) => TakeKeepsCount(s, a);
    case Renew(_) => TakeKeepsCount(s, a);
    case Remove(id) => QuietKeepsCount(s, s.(jobs := s.jobs - {id}));
  }

  // ---------------------------------------------------------------- results

  lemma {:induction false} RunKeepsBoth(s: State, acts: seq<Action>)
    requires Initial(s) && ValidRun(s, acts)
    ensures Inv(Exec(s, acts)) && CountInv(Exec(s, acts))
  {
    if acts != [] {
      var front, last := acts[..|acts| - 1], acts[|acts| - 1];
      RunKeepsBoth(s, front);
      StepKeepsInv(Exec(s, front), last);
      StepKeepsCount(Exec(s, front), last);
    }
  }

  /**
   * Between two restarts of an address's counter no number is handed out twice: nonces that
   * different jobs took in the same epoch differ, whether held or sent, and lie below the
   * counter while that epoch lasts. What this says of the numbers that are sent is in
   * ReporterSharing.
   */
  lemma NoncesAreTakenOnce(s: State, acts: seq<Action>, a: string, b: string, t: Token)
    requires Initial(s) && ValidRun(s, acts) && a != b
    ensures var e := Exec(s, acts); Uses(e, a, t) ==> !Uses(e, b, t) && Spent(e, t)
  {
    RunKeepsBoth(s, acts);
    UsedIsOwned(Exec(s, acts), a, t);
    UsedIsOwned(Exec(s, acts), b, t);
  }

  /** Job `id` holds nonce t, or has sent with it. */
  ghost predicate Uses(s: State, id: string, t: Token) {
    || (id in s.jobs && (s.jobs[id].token == t || (s.jobs[id].exec.Some? && s.jobs[id].exec.value.tx == t)))
    || (exists i :: 0 <= i < |s.log| && s.log[i].job == id && s.log[i].token == t)
  }

  lemma UsedIsOwned(s: State, id: string, t: Token)
    requires Inv(s)
    ensures Uses(s, id, t) ==> Owns(s, id, t) && Spent(s, t)
  {
    if id in s.jobs { assert JobInv(s, id, s.jobs[id]); }
  }

  /**
   * An execution changes the nonce it sends with only by renewing, after a send of its own
   * was refused as expired, and then to a nonce no job took before in this epoch.
   */
  lemma SwitchesToFreshNonce(s: State, acts: seq<Action>, a: Action, id: string)
    requires Initial(s) && ValidRun(s, acts + [a]) && ValidRun(s, acts)
    requires id in Exec(s, acts).jobs && id in Exec(s, acts + [a]).jobs
    requires Exec(s, acts).jobs[id].exec.Some? && Exec(s, acts + [a]).jobs[id].exec.Some?
    ensures var before, after := Exec(s, acts), Exec(s, acts + [a]);
            after.jobs[id].exec.value.tx != before.jobs[id].exec.value.tx ==>
              && before.jobs[id].exec.value.phase == Renewing
              && after.jobs[id].exec.value.tx !in before.taken
              && after.jobs[id].exec.value.tx.to == before.jobs[id].token.to
  {
    assert (acts + [a])[..|acts|] == acts;
    RunKeepsBoth(s, acts);
    StepSwitches(Exec(s, acts), a, id);
  }

  lemma StepSwitches(s: State, a: Action, id: string)
    requires Inv(s) && Enabled(s, a) && id in s.jobs && s.jobs[id].exec.Some?
    requires id in Apply(s, a).jobs && Apply(s, a).jobs[id].exec.Some?
    ensures var tx, tx' := s.jobs[id].exec.value.tx, Apply(s, a).jobs[id].exec.value.tx;
            tx' != tx ==> s.jobs[id].exec.value.phase == Renewing && tx' !in s.taken && tx'.to == s.jobs[id].token.to
  {
    match a
    case Renew(x) => NextIsNew(s, s.jobs[x].token.to);
    case Restart(_, _) =>
    case Manage(_, _, _) =>
    case Start(_, _) =>
    case Send(_, _) =>
    case Remove(_) =>
  }

  /** Each execution of a reporter job sends at most three transactions. */
  lemma AtMostThreeSends(s: State, acts: seq<Action>, run: nat)
    requires Initial(s) && ValidRun(s, acts)
    ensures SendsOf(Exec(s, acts).log, run) <= 3
  {
    RunKeepsBoth(s, acts);
  }

  // ---------------------------------------------------------------- ten attempts

  function Starts(acts: seq<Action>, id: string): nat {
    if acts == [] then 0
    else Starts(acts[..|acts| - 1], id) + if acts[|acts| - 1].Start? && acts[|acts| - 1].id == id then 1 else 0
  }

  ghost predicate StartsInv(s: State, id: string, starts: nat) {
    if id !in s.jobs then starts == 0
    else starts + s.jobs[id].left <= 10 && (s.jobs[id].left > 0 ==> starts + s.jobs[id].left == 10)
  }

  lemma StepKeepsStarts(s: State, a: Action, id: string, starts: nat)
    requires Inv(s) && Enabled(s, a) && StartsInv(s, id, starts) && a != Remove(id)
    ensures StartsInv(Apply(s, a), id, starts + if a.Start? && a.id == id then 1 else 0)
  {
  }

  /**
   * As long as its queue keeps the job, it is started at most ten times, and a job that may
   * still be started has been started ten times less what is left to it.
   */
  lemma {:induction false} JobsStartTenTimes(s: State, acts: seq<Action>, id: string)
    requires Initial(s) && ValidRun(s, acts) && Remove(id) !in acts
    ensures Starts(acts, id) <= 10
    ensures id in Exec(s, acts).jobs && Exec(s, acts).jobs[id].left > 0 ==> Starts(acts, id) + Exec(s, acts).jobs[id].left == 10
    ensures StartsInv(Exec(s, acts), id, Starts(acts, id))
  {
    if acts != [] {
      var front, last := acts[..|acts| - 1], acts[|acts| - 1];
      assert last in acts && forall a :: a in front ==> a in acts;
      JobsStartTenTimes(s, front, id);
      RunKeepsBoth(s, front);
      StepKeepsStarts(Exec(s, front), last, id, Starts(front, id));
    }
  }

  // ---------------------------------------------------------------- traces

  /** Which actions lead to which state. */
  type Trace = (seq<Action>, State) -> bool

  ghost predicate Closed(run: Trace) {
    forall acts: seq<Action>, s: State, a: Action {:trigger acts + [a], Apply(s, a)} ::
      run(acts, s) && Inv(s) && Enabled(s, a) ==> run(acts + [a], Apply(s, a))
  }

  ghost function TracesFrom(s0: State): Trace {
    (acts: seq<Action>, s: State) => Reaches(s0, acts, s)
  }

  lemma TracesAreClosed(s0: State)
    ensures Closed(TracesFrom(s0)) && TracesFrom(s0)([], s0)
  {
    assert Reaches(s0, [], s0);
    forall acts: seq<Action>, s: State, a: Action | TracesFrom(s0)(acts, s) && Inv(s) && Enabled(s, a)
      ensures TracesFrom(s0)(acts + [a], Apply(s, a))
    {
      assert (acts + [a])[..|acts|] == acts;
    }
  }

  lemma Step(run: Trace, acts: seq<Action>, s: State, a: Action)
    requires Closed(run) && run(acts, s) && Inv(s) && Enabled(s, a)
    ensures run(acts + [a], Apply(s, a))
  {
  }
}
