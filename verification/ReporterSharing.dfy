/**
 * When retried jobs share a nonce. A refresh sets an address's counter to the transaction
 * count of its account, whatever the queued jobs still hold. If it sets it at or below a
 * number a job holds, that number is handed out again and both jobs send with it; if it never
 * does, no two jobs ever do.
 */
module ReporterSharing {
  import opened Wrappers
  import opened ReporterNonces
  import opened ReporterSafety

  /** The queue may yet start the job: attempts are left, and it is not about to return. */
  predicate MayStart(j: Job) {
    j.left > 0 && !(j.exec.Some? && j.exec.value.phase == Renewing && j.exec.value.trial == TRIALS)
  }

  /**
   * The job may still send number k to `to`: it was queued with it and may be started with it,
   * or is about to send it.
   */
  predicate Holds(j: Job, to: string, k: nat) {
    j.token.to == to &&
    ((j.token.nonce == k && MayStart(j)) || (j.exec.Some? && j.exec.value.phase == Sending && j.exec.value.tx.nonce == k))
  }

  /** Some job holds a number at or above n for `to`. */
  ghost predicate HeldFrom(s: State, to: string, n: nat) {
    exists id, k: nat :: id in s.jobs && k >= n && Holds(s.jobs[id], to, k)
  }

  predicate Rivals(a: SendEvent, b: SendEvent, to: string) {
    a.token.to == to && b.token.to == to && a.era == b.era && a.job != b.job
  }

  /** Two sends by different jobs to `to` between the same restarts carry different numbers. */
  ghost predicate NoClash(log: seq<SendEvent>, to: string) {
    forall i, j :: 0 <= i < |log| && 0 <= j < |log| && Rivals(log[i], log[j], to) ==>
      log[i].token.nonce != log[j].token.nonce
  }

  /** Every restart of `to` in the run sets the counter above all numbers held for it. */
  ghost predicate Careful(s: State, acts: seq<Action>, to: string)
    requires ValidRun(s, acts)
    decreases |acts|
  {
    acts == [] ||
    (var front, last := acts[..|acts| - 1], acts[|acts| - 1];
     Careful(s, front, to) && (last.Restart? && last.to == to ==> !HeldFrom(Exec(s, front), to, last.nonce)))
  }

  // ---------------------------------------------------------------- careful runs

  /** Number k of `to` is below the counter and no job but `id` holds it. */
  ghost predicate Only(s: State, id: string, to: string, k: nat) {
    to in s.nonces && k < s.nonces[to] && forall b :: b in s.jobs && b != id ==> !Holds(s.jobs[b], to, k)
  }

  ghost predicate NumInv(s: State, to: string) {
    && (forall id, k: nat :: id in s.jobs && Holds(s.jobs[id], to, k) ==> Only(s, id, to, k))
    && (forall i :: 0 <= i < |s.log| && s.log[i].token.to == to ==> s.log[i].era <= Era(s, to))
    && (forall i :: 0 <= i < |s.log| && s.log[i].token.to == to && s.log[i].era == Era(s, to) ==>
          Only(s, s.log[i].job, to, s.log[i].token.nonce))
    && NoClash(s.log, to)
  }

  /** A step that sends nothing, lowers no counter and makes no job hold an old number. */
  lemma QuietKeepsNum(s: State, s': State, to: string)
    requires NumInv(s, to) && s'.log == s.log && s'.epochs == s.epochs && s'.nonces.Keys == s.nonces.Keys
    requires to in s.nonces ==> s.nonces[to] <= s'.nonces[to]
    requires forall id, k: nat :: id in s'.jobs && Holds(s'.jobs[id], to, k) ==>
               || (id in s.jobs && Holds(s.jobs[id], to, k))
               || (to in s.nonces && k == s.nonces[to] < s'.nonces[to])
    requires forall a, b :: a in s'.jobs && b in s'.jobs && a != b && to in s.nonces && Holds(s'.jobs[a], to, s.nonces[to]) ==>
               !Holds(s'.jobs[b], to, s.nonces[to])
    ensures NumInv(s', to)
  {
    forall id, k: nat | to in s.nonces && k < s.nonces[to] && Only(s, id, to, k) ensures Only(s', id, to, k) {
    }
    forall id, k: nat | id in s'.jobs && Holds(s'.jobs[id], to, k) ensures Only(s', id, to, k) {
      if id in s.jobs && Holds(s.jobs[id], to, k) { assert Only(s, id, to, k); }
    }
  }

  /** A step that changes one job to hold no more than before. */
  lemma ShrinkKeepsNum(s: State, s': State, to: string)
    requires NumInv(s, to) && s'.log == s.log && s'.epochs == s.epochs && s'.nonces == s.nonces
    requires forall id, k: nat :: id in s'.jobs && Holds(s'.jobs[id], to, k) ==> id in s.jobs && Holds(s.jobs[id], to, k)
    ensures NumInv(s', to)
  {
    forall id, k: nat | Only(s, id, to, k) ensures Only(s', id, to, k) {
    }
  }

  lemma RestartKeepsNum(s: State, to: string, at: string, n: nat)
    requires Inv(s) && NumInv(s, to) && (at == to ==> !HeldFrom(s, to, n))
    ensures NumInv(OnRestart(s, at, n), to)
  {
    var s' := OnRestart(s, at, n);
    LoggedAddressIsKnown(s, to);
    forall id, k: nat | id in s'.jobs && Holds(s'.jobs[id], to, k) ensures Only(s', id, to, k) {
      assert Only(s, id, to, k);
      assert at == to ==> k < n;
    }
    forall i | 0 <= i < |s'.log| && s'.log[i].token.to == to && s'.log[i].era == Era(s', to)
      ensures Only(s', s'.log[i].job, to, s'.log[i].token.nonce)
    {
      assert Only(s, s.log[i].job, to, s.log[i].token.nonce);
    }
  }

  lemma LoggedAddressIsKnown(s: State, to: string)
    requires Inv(s)
    ensures forall i :: 0 <= i < |s.log| && s.log[i].token.to == to ==> to in s.epochs
  {
    forall i | 0 <= i < |s.log| && s.log[i].token.to == to ensures to in s.epochs {
      assert Spent(s, s.log[i].token);
    }
  }

  lemma ManageKeepsNum(s: State, to: string, id: string, at: string, queued: bool)
    requires Inv(s) && NumInv(s, to) && at in s.nonces
    ensures NumInv(OnManage(s, id, at, queued), to)
  {
    CounterIsFree(s, to);
    QuietKeepsNum(s, OnManage(s, id, at, queued), to);
  }

  lemma CounterIsFree(s: State, to: string)
    requires NumInv(s, to)
    ensures to in s.nonces ==> forall id :: id in s.jobs ==> !Holds(s.jobs[id], to, s.nonces[to])
  {
    if to in s.nonces {
      forall id | id in s.jobs ensures !Holds(s.jobs[id], to, s.nonces[to]) {
        assert !Only(s, id, to, s.nonces[to]);
      }
    }
  }

  lemma StartKeepsNum(s: State, to: string, id: string, walletActive: bool)
    requires NumInv(s, to) && Enabled(s, Start(id, walletActive))
    ensures NumInv(OnStart(s, id, walletActive), to)
  {
    ShrinkKeepsNum(s, OnStart(s, id, walletActive), to);
  }

  lemma RenewKeepsNum(s: State, to: string, id: string)
    requires Inv(s) && NumInv(s, to) && Enabled(s, Renew(id))
    ensures NumInv(OnRenew(s, id), to)
  {
    CounterIsFree(s, to);
    assert JobInv(s, id, s.jobs[id]);
    QuietKeepsNum(s, OnRenew(s, id), to);
  }

  lemma LogKeepsNum(s: State, s': State, to: string, id: string, e: Execution)
    requires NumInv(s, to) && id in s.jobs && s.jobs[id].exec == Some(e) && e.phase == Sending && e.tx.to == s.jobs[id].token.to
    requires s' == s.(log := s.log + [SendEvent(id, e.run, e.tx, Era(s, e.tx.to))])
    ensures NumInv(s', to)
  {
    if e.tx.to == to {
      assert Holds(s.jobs[id], to, e.tx.nonce) && Only(s, id, to, e.tx.nonce);
      forall i | 0 <= i < |s.log| && s.log[i].token.to == to && s.log[i].era == Era(s, to) && s.log[i].job != id
        ensures s.log[i].token.nonce != e.tx.nonce
      {
        assert Only(s, s.log[i].job, to, s.log[i].token.nonce);
      }
    }
    forall x, k: nat | Only(s, x, to, k) ensures Only(s', x, to, k) {
    }
  }

  lemma SendKeepsNum(s: State, to: string, id: string, result: SendResult)
    requires Inv(s) && NumInv(s, to) && Enabled(s, Send(id, result))
    ensures NumInv(OnSend(s, id, result), to)
  {
    var e := s.jobs[id].exec.value;
    assert JobInv(s, id, s.jobs[id]);
    var s1 := s.(log := s.log + [SendEvent(id, e.run, e.tx, Era(s, e.tx.to))]);
    LogKeepsNum(s, s1, to, id, e);
    ShrinkKeepsNum(s1, OnSend(s, id, result), to);
  }

  lemma StepKeepsNum(s: State, a: Action, to: string)
    requires Inv(s) && NumInv(s, to) && Enabled(s, a)
    requires a.Restart? && a.to == to ==> !HeldFrom(s, to, a.nonce)
    ensures NumInv(Apply(s, a), to)
  {
    match a
    case Restart(at, n) => RestartKeepsNum(s, to, at, n);
    case Manage(id, at, queued) => ManageKeepsNum(s, to, id, at, queued);
    case Start(id, walletActive) => StartKeepsNum(s, to, id, walletActive);
    case Send(id, result) => SendKeepsNum(s, to, id, result);
    case Renew(id) => RenewKeepsNum(s, to, id);
    case Remove(id) => ShrinkKeepsNum(s, s.(jobs := s.jobs - {id}), to);
  }

  lemma {:induction false} CarefulRunKeepsNum(s: State, acts: seq<Action>, to: string)
    requires Initial(s) && ValidRun(s, acts) && Careful(s, acts, to)
    ensures NumInv(Exec(s, acts), to)
  {
    if acts != [] {
      var front, last := acts[..|acts| - 1], acts[|acts| - 1];
      CarefulRunKeepsNum(s, front, to);
      RunKeepsBoth(s, front);
      StepKeepsNum(Exec(s, front), last, to);
    }
  }

  /**
   * If no restart of `to` ever sets the counter at or below a number a job holds for it, then
   * in every interleaving two sends by different jobs to `to` between the same restarts carry
   * different numbers, and so do the numbers any two jobs hold, all of them below the counter.
   */
  lemma JobsNeverShareNonces(s: State, acts: seq<Action>, to: string)
    requires Initial(s) && ValidRun(s, acts) && Careful(s, acts, to)
    ensures NoClash(Exec(s, acts).log, to)
    ensures var e := Exec(s, acts); forall a, k: nat :: a in e.jobs && Holds(e.jobs[a], to, k) ==> Only(e, a, to, k)
  {
    CarefulRunKeepsNum(s, acts, to);
  }

  // ---------------------------------------------------------------- careless restarts

  lemma OneMore(run: Trace, acts: seq<Action>, s: State, a: Action)
    requires Closed(run) && run(acts, s) && Inv(s) && Enabled(s, a)
    ensures run(acts + [a], Apply(s, a)) && Inv(Apply(s, a))
  {
    Step(run, acts, s, a);
    StepKeepsInv(s, a);
  }

  /** From `acts` on, the run restarts no counter. */
  ghost predicate Quiet(acts: seq<Action>, acts': seq<Action>) {
    acts <= acts' && forall i :: |acts| <= i < |acts'| ==> !acts'[i].Restart?
  }

  lemma {:induction false} LongestId(ids: set<string>) returns (n: nat)
    ensures forall id :: id in ids ==> |id| <= n
    decreases ids
  {
    n := 0;
    if id :| id in ids {
      var m := LongestId(ids - {id});
      n := if m < |id| then |id| else m;
    }
  }

  lemma FreshId(ids: set<string>) returns (id: string)
    ensures id !in ids
  {
    var n := LongestId(ids);
    id := seq(n + 1, _ => 'x');
  }

  /** What the nonce manager leaves alone while it hands out numbers. */
  ghost predicate SameBut(s: State, s': State, id: string) {
    && s'.epochs == s.epochs && s'.log == s.log && s.jobs.Keys <= s'.jobs.Keys
    && forall x :: x in s.jobs && x != id ==> s'.jobs[x] == s.jobs[x]
  }

  /** The nonce manager hands out numbers until the counter of `to` stands at k. */
  lemma {:induction false} CountsUpTo(run: Trace, acts: seq<Action>, s: State, id: string, to: string, k: nat)
    returns (acts': seq<Action>, s': State)
    requires Closed(run) && run(acts, s) && Inv(s) && to in s.nonces && s.nonces[to] <= k
    ensures run(acts', s') && Inv(s') && Quiet(acts, acts')
    ensures SameBut(s, s', id) && s'.jobs == s.jobs && to in s'.nonces && s'.nonces[to] == k
    decreases k - s.nonces[to]
  {
    acts', s' := acts, s;
    if s.nonces[to] < k {
      OneMore(run, acts, s, Manage(id, to, false));
      acts', s' := CountsUpTo(run, acts + [Manage(id, to, false)], OnManage(s, id, to, false), id, to, k);
    }
  }

  /** A new job is queued with number k. */
  lemma QueuesWith(run: Trace, acts: seq<Action>, s: State, id: string, to: string, k: nat)
    returns (acts': seq<Action>, s': State)
    requires Closed(run) && run(acts, s) && Inv(s) && to in s.nonces && s.nonces[to] <= k && id !in s.jobs
    ensures run(acts', s') && Inv(s') && Quiet(acts, acts') && SameBut(s, s', id)
    ensures id in s'.jobs && Holds(s'.jobs[id], to, k)
  {
    acts', s' := CountsUpTo(run, acts, s, id, to, k);
    OneMore(run, acts', s', Manage(id, to, true));
    acts', s' := acts' + [Manage(id, to, true)], OnManage(s', id, to, true);
  }

  /** Job `id` alone has moved, and nothing was restarted. */
  ghost predicate Moves(s: State, s': State, id: string) {
    && s'.epochs == s.epochs && s'.delegatedFee == s.delegatedFee && s.log <= s'.log && s'.jobs.Keys == s.jobs.Keys
    && (forall x :: x in s.jobs && x != id ==> s'.jobs[x] == s.jobs[x])
  }

  /** A send of job `id` with number k to `to` is the last entry of the log. */
  ghost predicate JustSent(s: State, s': State, id: string, to: string, k: nat) {
    && Moves(s, s', id) && |s.log| < |s'.log|
    && var v := s'.log[|s'.log| - 1]; v.job == id && v.token.to == to && v.token.nonce == k && v.era == Era(s, to)
  }

  lemma SendsNow(run: Trace, acts: seq<Action>, s: State, id: string, to: string, k: nat)
    returns (acts': seq<Action>, s': State)
    requires Closed(run) && run(acts, s) && Inv(s) && id in s.jobs && s.jobs[id].token.to == to
    requires s.jobs[id].exec.Some? && s.jobs[id].exec.value.phase == Sending && s.jobs[id].exec.value.tx.nonce == k
    ensures run(acts', s') && Inv(s') && Quiet(acts, acts') && JustSent(s, s', id, to, k)
  {
    assert JobInv(s, id, s.jobs[id]);
    OneMore(run, acts, s, Send(id, Sent));
    acts', s' := acts + [Send(id, Sent)], OnSend(s, id, Sent);
  }

  /** A sending job runs into an error that is not retried: at once, or after the delegator has failed. */
  lemma ThrowsNow(run: Trace, acts: seq<Action>, s: State, id: string) returns (acts': seq<Action>, s': State)
    requires Closed(run) && run(acts, s) && Inv(s) && id in s.jobs
    requires s.jobs[id].exec.Some? && s.jobs[id].exec.value.phase == Sending
    requires s.delegatedFee ==> !s.jobs[id].exec.value.delegatorOkay
    ensures run(acts', s') && Inv(s') && Quiet(acts, acts') && Moves(s, s', id) && s'.jobs[id] == s.jobs[id].(exec := None)
  {
    var a := Send(id, Failed(OtherError));
    OneMore(run, acts, s, a);
    acts', s' := acts + [a], OnSend(s, id, Failed(OtherError));
  }

  lemma ThrowsSoon(run: Trace, acts: seq<Action>, s: State, id: string) returns (acts': seq<Action>, s': State)
    requires Closed(run) && run(acts, s) && Inv(s) && id in s.jobs
    requires s.jobs[id].exec.Some? && s.jobs[id].exec.value.phase == Sending
    ensures run(acts', s') && Inv(s') && Quiet(acts, acts') && Moves(s, s', id) && s'.jobs[id] == s.jobs[id].(exec := None)
  {
    if s.delegatedFee && s.jobs[id].exec.value.delegatorOkay {
      assert JobInv(s, id, s.jobs[id]);
      var a := Send(id, Failed(OtherError));
      OneMore(run, acts, s, a);
      acts', s' := ThrowsNow(run, acts + [a], OnSend(s, id, Failed(OtherError)), id);
    } else {
      acts', s' := ThrowsNow(run, acts, s, id);
    }
  }

  /** A job that may be started again gets to wait for it: its execution throws, after a renewal if one is due. */
  lemma ComesToWait(run: Trace, acts: seq<Action>, s: State, id: string) returns (acts': seq<Action>, s': State)
    requires Closed(run) && run(acts, s) && Inv(s) && id in s.jobs && MayStart(s.jobs[id]) && s.jobs[id].exec.Some?
    ensures run(acts', s') && Inv(s') && Quiet(acts, acts') && Moves(s, s', id) && s'.jobs[id] == s.jobs[id].(exec := None)
  {
    if s.jobs[id].exec.value.phase == Sending {
      acts', s' := ThrowsSoon(run, acts, s, id);
    } else {
      assert JobInv(s, id, s.jobs[id]) && Spent(s, s.jobs[id].token);
      OneMore(run, acts, s, Renew(id));
      acts', s' := ThrowsSoon(run, acts + [Renew(id)], OnRenew(s, id), id);
    }
  }

  /** A waiting job starts and sends its own number. */
  lemma StartsAndSends(run: Trace, acts: seq<Action>, s: State, id: string, to: string, k: nat)
    returns (acts': seq<Action>, s': State)
    requires Closed(run) && run(acts, s) && Inv(s) && Enabled(s, Start(id, true))
    requires s.jobs[id].token.to == to && s.jobs[id].token.nonce == k
    ensures run(acts', s') && Inv(s') && Quiet(acts, acts') && JustSent(s, s', id, to, k)
  {
    OneMore(run, acts, s, Start(id, true));
    acts', s' := SendsNow(run, acts + [Start(id, true)], OnStart(s, id, true), id, to, k);
  }

  /** A job can send any number it holds. */
  lemma SendsHeld(run: Trace, acts: seq<Action>, s: State, id: string, to: string, k: nat)
    returns (acts': seq<Action>, s': State)
    requires Closed(run) && run(acts, s) && Inv(s) && id in s.jobs && Holds(s.jobs[id], to, k)
    ensures run(acts', s') && Inv(s') && Quiet(acts, acts') && JustSent(s, s', id, to, k)
  {
    if s.jobs[id].exec.None? {
      acts', s' := StartsAndSends(run, acts, s, id, to, k);
    } else if s.jobs[id].exec.value.phase == Sending && s.jobs[id].exec.value.tx.nonce == k {
      acts', s' := SendsNow(run, acts, s, id, to, k);
    } else {
      var acts1, s1 := ComesToWait(run, acts, s, id);
      acts', s' := StartsAndSends(run, acts1, s1, id, to, k);
    }
  }

  lemma SentTwice(s1: State, s2: State, s3: State, a: string, b: string, to: string, k: nat)
    requires JustSent(s1, s2, a, to, k) && JustSent(s2, s3, b, to, k) && a != b
    ensures !NoClash(s3.log, to)
  {
    var i, j := |s2.log| - 1, |s3.log| - 1;
    assert s3.log[i] == s2.log[i];
    assert Rivals(s3.log[i], s3.log[j], to);
  }

  /** After a restart at or below a held number, another job is given it and both send with it. */
  lemma BothSend(run: Trace, acts: seq<Action>, s: State, id: string, to: string, k: nat)
    returns (acts': seq<Action>, s': State)
    requires Closed(run) && run(acts, s) && Inv(s) && id in s.jobs && Holds(s.jobs[id], to, k)
    requires to in s.nonces && s.nonces[to] <= k
    ensures run(acts', s') && Quiet(acts, acts') && !NoClash(s'.log, to)
  {
    var other := FreshId(s.jobs.Keys);
    var acts1, s1 := QueuesWith(run, acts, s, other, to, k);
    var acts2, s2 := SendsHeld(run, acts1, s1, id, to, k);
    acts', s' := SendsHeld(run, acts2, s2, other, to, k);
    SentTwice(s1, s2, s', id, other, to, k);
  }

  // ---------------------------------------------------------------- the exact condition

  /** `acts'` continues the run `acts` by a restart of `to` at n and restarts nothing after it. */
  ghost predicate Continues(s: State, acts: seq<Action>, to: string, n: nat, acts': seq<Action>) {
    ValidRun(s, acts') && Quiet(acts + [Restart(to, n)], acts')
  }

  lemma {:induction false} QuietIsCareful(s: State, acts: seq<Action>, acts': seq<Action>, to: string)
    requires ValidRun(s, acts) && ValidRun(s, acts') && Careful(s, acts, to) && Quiet(acts, acts')
    ensures Careful(s, acts', to)
    decreases |acts'|
  {
    if |acts'| == |acts| {
      assert acts' == acts;
    } else {
      QuietIsCareful(s, acts, acts'[..|acts'| - 1], to);
    }
  }

  /**
   * The exact condition. After a run that has been careful so far, a restart of `to` at n is
   * safe - whatever follows it up to the next restart, no two jobs send one number - if and
   * only if no job holds a number at or above n for `to`.
   */
  lemma RestartIsSafe(s: State, acts: seq<Action>, to: string, n: nat)
    requires Initial(s) && ValidRun(s, acts) && Careful(s, acts, to)
    ensures (forall acts' :: Continues(s, acts, to, n, acts') ==> NoClash(Exec(s, acts').log, to))
            <==> !HeldFrom(Exec(s, acts), to, n)
  {
    var m := Exec(s, acts);
    RunKeepsBoth(s, acts);
    RestartIsARun(s, acts, to, n);
    if HeldFrom(m, to, n) {
      var acts' := CarelessRestartShares(s, acts, to, n);
      assert Continues(s, acts, to, n, acts') && !NoClash(Exec(s, acts').log, to);
    } else {
      forall acts' | Continues(s, acts, to, n, acts') ensures NoClash(Exec(s, acts').log, to) {
        assert (acts + [Restart(to, n)])[..|acts|] == acts;
        QuietIsCareful(s, acts + [Restart(to, n)], acts', to);
        CarefulRunKeepsNum(s, acts', to);
      }
    }
  }

  lemma RestartIsARun(s: State, acts: seq<Action>, to: string, n: nat)
    requires Initial(s) && ValidRun(s, acts)
    ensures ValidRun(s, acts + [Restart(to, n)])
  {
    RunKeepsBoth(s, acts);
    TracesAreClosed(s);
    OneMore(TracesFrom(s), acts, Exec(s, acts), Restart(to, n));
  }

  /** From every reachable state: a restart at or below a held number leads to two jobs sending one number. */
  lemma CarelessRestartShares(s: State, acts: seq<Action>, to: string, n: nat) returns (acts': seq<Action>)
    requires Initial(s) && ValidRun(s, acts) && HeldFrom(Exec(s, acts), to, n)
    ensures Continues(s, acts, to, n, acts') && !NoClash(Exec(s, acts').log, to)
  {
    var m := Exec(s, acts);
    RunKeepsBoth(s, acts);
    TracesAreClosed(s);
    OneMore(TracesFrom(s), acts, m, Restart(to, n));
    var id, k: nat :| id in m.jobs && k >= n && Holds(m.jobs[id], to, k);
    var s';
    acts', s' := BothSend(TracesFrom(s), acts + [Restart(to, n)], OnRestart(m, to, n), id, to, k);
  }

  lemma QueueOne(run: Trace, s: State, id: string, to: string) returns (acts: seq<Action>, s': State)
    requires Closed(run) && run([], s) && Inv(s) && to in s.nonces && id !in s.jobs
    ensures run(acts, s') && HeldFrom(s', to, s.nonces[to])
  {
    OneMore(run, [], s, Manage(id, to, true));
    acts, s' := [] + [Manage(id, to, true)], OnManage(s, id, to, true);
    assert Holds(s'.jobs[id], to, s.nonces[to]);
  }

  /** The shortest such run: a job is queued with number n, the counter is refreshed to n. */
  lemma RefreshSharesANonce(to: string, n: nat) returns (s: State, acts: seq<Action>)
    ensures Initial(s) && ValidRun(s, acts) && !NoClash(Exec(s, acts).log, to)
  {
    s := State(true, map[to := n], map[to := 0], map[], 0, [], map[]);
    TracesAreClosed(s);
    var queued, m := QueueOne(TracesFrom(s), s, "job", to);
    acts := CarelessRestartShares(s, queued, to, n);
  }
}
