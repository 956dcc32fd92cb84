/**
 * The reporter job and the nonce state it works on, as the source writes them. What an
 * uninterrupted execution sends and takes is what its own steps in the interleaved system
 * log and take.
 */
module ReporterJob {
  import opened Wrappers
  import opened ReporterNonces
  import opened ReporterSafety

  /**
   * Execution `run` of job `id` to address `to` has made `trial` sends and holds `nonce`; the
   * job may be started `left` times more.
   */
  ghost predicate Executing(s: State, id: string, left: nat, run: nat, to: string, trial: nat, nonce: nat, okay: bool,
                            phase: Phase) {
    && Inv(s) && id in s.jobs && s.jobs[id].token.to == to && s.jobs[id].left == left && s.jobs[id].exec.Some?
    && var e := s.jobs[id].exec.value;
       e.run == run && e.trial == trial && e.tx.to == to && e.tx.nonce == nonce && e.delegatorOkay == okay && e.phase == phase
  }

  /** Job `id` is not running and may be started `left` times; none when it is done. */
  ghost predicate Idle(s: State, id: string, left: nat) {
    Inv(s) && id in s.jobs && s.jobs[id].exec.None? && s.jobs[id].left == left
  }

  /** The sends that `after` has beyond `before`, all by one execution of one job. */
  ghost predicate Logged(before: seq<SendEvent>, after: seq<SendEvent>, id: string, run: nat, to: string, sent: seq<nat>) {
    && |after| == |before| + |sent| && before <= after
    && (forall k :: |before| <= k < |after| ==>
          && after[k].job == id && after[k].run == run
          && after[k].token.to == to && after[k].token.nonce == sent[k - |before|])
  }

  lemma LoggedMore(before: seq<SendEvent>, log: seq<SendEvent>, id: string, run: nat, t: Token, era: nat, sent: seq<nat>)
    requires Logged(before, log, id, run, t.to, sent)
    ensures Logged(before, log + [SendEvent(id, run, t, era)], id, run, t.to, sent + [t.nonce])
  {
  }

  lemma SendEffect(s: State, id: string, left: nat, run: nat, to: string, trial: nat, nonce: nat, okay: bool, result: SendResult,
                   before: seq<SendEvent>, sent: seq<nat>)
    requires Executing(s, id, left, run, to, trial, nonce, okay, Sending) && Logged(before, s.log, id, run, to, sent)
    ensures var s' := OnSend(s, id, result);
            var okay' := okay && !s.delegatedFee;
            && trial < TRIALS && s'.nonces == s.nonces && s'.delegatedFee == s.delegatedFee
            && Logged(before, s'.log, id, run, to, sent + [nonce])
            && if result.Sent? then Idle(s', id, 0)
               else if !Retried(s.delegatedFee, okay, result.code) then Idle(s', id, left)
               else if result.code == TxNonceExpired then Executing(s', id, left, run, to, trial + 1, nonce, okay', Renewing)
               else if trial + 1 < TRIALS then Executing(s', id, left, run, to, trial + 1, nonce, okay', Sending)
               else Idle(s', id, 0)
  {
    assert JobInv(s, id, s.jobs[id]);
    SendKeepsInv(s, id, result);
    LoggedMore(before, s.log, id, run, s.jobs[id].exec.value.tx, Era(s, to), sent);
  }

  lemma StartEffect(s: State, id: string, left: nat, walletActive: bool)
    requires Idle(s, id, left) && left > 0
    ensures var s', token := OnStart(s, id, walletActive), s.jobs[id].token;
            && s'.log == s.log && s'.nonces == s.nonces && s'.delegatedFee == s.delegatedFee
            && if walletActive then Executing(s', id, left - 1, s.runs, token.to, 0, token.nonce, true, Sending)
               else Idle(s', id, left - 1)
  {
    StartKeepsInv(s, id, walletActive);
  }

  lemma RenewEffect(s: State, id: string, left: nat, run: nat, to: string, trial: nat, nonce: nat, okay: bool)
    requires Executing(s, id, left, run, to, trial, nonce, okay, Renewing)
    ensures Enabled(s, Renew(id))
    ensures var s' := OnRenew(s, id);
            && s'.nonces == s.nonces[to := s.nonces[to] + 1] && s'.log == s.log && s'.delegatedFee == s.delegatedFee
            && if trial < TRIALS then Executing(s', id, left, run, to, trial, s.nonces[to], okay, Sending) else Idle(s', id, 0)
  {
    assert JobInv(s, id, s.jobs[id]) && Spent(s, s.jobs[id].token);
    RenewKeepsInv(s, id);
  }

  predicate IsExpired(result: SendResult) {
    result == Failed(TxNonceExpired)
  }

  /** One trial of the loop: a send, and the renewal after it if it was refused as expired. */
  lemma TrialEffect(run: Trace, acts0: seq<Action>, s0: State, id: string, left: nat, number: nat, to: string, trial: nat,
                    nonce: nat, okay: bool, result: SendResult, before: seq<SendEvent>, sent: seq<nat>)
    returns (acts: seq<Action>, s: State)
    requires Closed(run) && run(acts0, s0) && Executing(s0, id, left, number, to, trial, nonce, okay, Sending)
    requires Logged(before, s0.log, id, number, to, sent)
    ensures run(acts, s) && s.delegatedFee == s0.delegatedFee && Logged(before, s.log, id, number, to, sent + [nonce])
    ensures to in s0.nonces && s.nonces == s0.nonces[to := s0.nonces[to] + if IsExpired(result) then 1 else 0]
    ensures if result.Failed? && !Retried(s0.delegatedFee, okay, result.code) then Idle(s, id, left)
            else if result.Sent? || trial + 1 == TRIALS then Idle(s, id, 0)
            else Executing(s, id, left, number, to, trial + 1, if IsExpired(result) then s0.nonces[to] else nonce,
                           okay && !s0.delegatedFee, Sending)
  {
    AddressIsKnown(s0, id);
    acts, s := SendsOnce(run, acts0, s0, id, left, number, to, trial, nonce, okay, result, before, sent);
    if IsExpired(result) {
      acts, s := RenewsOnce(run, acts, s, id, left, number, to, trial + 1, nonce, okay && !s0.delegatedFee);
    } else {
      assert s0.nonces[to := s0.nonces[to] + 0] == s0.nonces;
    }
  }

  /** How a send leaves the job. */
  ghost predicate AfterOne(s: State, id: string, left: nat, number: nat, to: string, trial: nat, nonce: nat, okay: bool,
                           delegatedFee: bool, result: SendResult) {
    if result.Sent? then Idle(s, id, 0)
    else if !Retried(delegatedFee, okay, result.code) then Idle(s, id, left)
    else if IsExpired(result) then Executing(s, id, left, number, to, trial + 1, nonce, okay && !delegatedFee, Renewing)
    else if trial + 1 < TRIALS then Executing(s, id, left, number, to, trial + 1, nonce, okay && !delegatedFee, Sending)
    else Idle(s, id, 0)
  }

  lemma SendsOnce(run: Trace, acts0: seq<Action>, s0: State, id: string, left: nat, number: nat, to: string, trial: nat,
                  nonce: nat, okay: bool, result: SendResult, before: seq<SendEvent>, sent: seq<nat>)
    returns (acts: seq<Action>, s: State)
    requires Closed(run) && run(acts0, s0) && Executing(s0, id, left, number, to, trial, nonce, okay, Sending)
    requires Logged(before, s0.log, id, number, to, sent)
    ensures run(acts, s) && trial < TRIALS && s.nonces == s0.nonces && s.delegatedFee == s0.delegatedFee
    ensures Logged(before, s.log, id, number, to, sent + [nonce])
    ensures AfterOne(s, id, left, number, to, trial, nonce, okay, s0.delegatedFee, result)
  {
    SendEffect(s0, id, left, number, to, trial, nonce, okay, result, before, sent);
    Step(run, acts0, s0, Send(id, result));
    acts, s := acts0 + [Send(id, result)], OnSend(s0, id, result);
  }

  lemma RenewsOnce(run: Trace, acts0: seq<Action>, s0: State, id: string, left: nat, number: nat, to: string, trial: nat,
                   nonce: nat, okay: bool)
    returns (acts: seq<Action>, s: State)
    requires Closed(run) && run(acts0, s0) && Executing(s0, id, left, number, to, trial, nonce, okay, Renewing)
    ensures run(acts, s) && to in s0.nonces && s.nonces == s0.nonces[to := s0.nonces[to] + 1] && s.log == s0.log
    ensures s.delegatedFee == s0.delegatedFee
    ensures if trial < TRIALS then Executing(s, id, left, number, to, trial, s0.nonces[to], okay, Sending) else Idle(s, id, 0)
  {
    RenewEffect(s0, id, left, number, to, trial, nonce, okay);
    Step(run, acts0, s0, Renew(id));
    acts, s := acts0 + [Renew(id)], OnRenew(s0, id);
  }

  lemma AddressIsKnown(s: State, id: string)
    requires Inv(s) && id in s.jobs
    ensures s.jobs[id].token.to in s.nonces
  {
    assert JobInv(s, id, s.jobs[id]) && Spent(s, s.jobs[id].token);
  }

  /** What an execution sends, where it leaves the counter, and whether it throws. */
  datatype Outcome = Outcome(sent: seq<nat>, counter: nat, threw: bool)

  /** How an execution that has sent `sent` and now holds `nonce` ends. */
  function Rest(delegatedFee: bool, sent: seq<nat>, nonce: nat, okay: bool, counter: nat, results: seq<SendResult>): Outcome
    requires |sent| <= TRIALS == |results|
    decreases TRIALS - |sent|
  {
    if |sent| == TRIALS then Outcome(sent, counter, false)
    else
      var result := results[|sent|];
      if result.Sent? then Outcome(sent + [nonce], counter, false)
      else if !Retried(delegatedFee, okay, result.code) then Outcome(sent + [nonce], counter, true)
      else if result.code == TxNonceExpired then
        Rest(delegatedFee, sent + [nonce], counter, okay && !delegatedFee, counter + 1, results)
      else Rest(delegatedFee, sent + [nonce], nonce, okay && !delegatedFee, counter, results)
  }

  /** How many of the first n sends were refused as expired. */
  function Expired(results: seq<SendResult>, n: nat): nat
    requires n <= |results|
  {
    if n == 0 then 0 else Expired(results, n - 1) + (if IsExpired(results[n - 1]) then 1 else 0)
  }

  /**
   * The nonce of an execution's i-th send: its own first, and after each expired one the next
   * of the counter that stood at `counter`.
   */
  function NonceAt(nonce: nat, counter: nat, results: seq<SendResult>, i: nat): nat
    requires i <= |results|
  {
    if i == 0 then nonce
    else if IsExpired(results[i - 1]) then counter + Expired(results, i - 1)
    else NonceAt(nonce, counter, results, i - 1)
  }

  ghost predicate NoncesOf(sent: seq<nat>, nonce: nat, counter: nat, results: seq<SendResult>) {
    |sent| <= |results| && forall i :: 0 <= i < |sent| ==> sent[i] == NonceAt(nonce, counter, results, i)
  }

  lemma OneMoreNonce(nonce: nat, counter: nat, results: seq<SendResult>, sent: seq<nat>, local: nat)
    requires |sent| < |results| && NoncesOf(sent, nonce, counter, results) && local == NonceAt(nonce, counter, results, |sent|)
    ensures NoncesOf(sent + [local], nonce, counter, results)
    ensures Expired(results, |sent| + 1) == Expired(results, |sent|) + if IsExpired(results[|sent|]) then 1 else 0
    ensures NonceAt(nonce, counter, results, |sent| + 1)
            == if IsExpired(results[|sent|]) then counter + Expired(results, |sent|) else local
  {
  }

  /**
   * For every outcome of its sends: an execution sends one to three times, first with its own
   * nonce and after each expired one with the next of the counter; it takes exactly one nonce
   * per expired send; and it stops early only when a send succeeded or it throws.
   */
  lemma {:induction false} RestNonces(delegatedFee: bool, nonce: nat, counter: nat, results: seq<SendResult>, sent: seq<nat>,
                                      local: nat, okay: bool)
    requires |sent| <= TRIALS == |results|
    requires NoncesOf(sent, nonce, counter, results) && local == NonceAt(nonce, counter, results, |sent|)
    ensures var r := Rest(delegatedFee, sent, local, okay, counter + Expired(results, |sent|), results);
            && (if |sent| < TRIALS then |sent| < |r.sent| <= TRIALS else r.sent == sent) && NoncesOf(r.sent, nonce, counter, results)
            && r.counter == counter + Expired(results, |r.sent|)
            && (|sent| < |r.sent| < TRIALS ==> results[|r.sent| - 1].Sent? || r.threw)
    decreases TRIALS - |sent|
  {
    if |sent| < TRIALS {
      var result := results[|sent|];
      OneMoreNonce(nonce, counter, results, sent, local);
      if result.Failed? && Retried(delegatedFee, okay, result.code) {
        RestNonces(delegatedFee, nonce, counter, results, sent + [local], NonceAt(nonce, counter, results, |sent| + 1),
                   okay && !delegatedFee);
      }
    }
  }

  /**
   * The i-th send ends in an error that is not retried. From the delegator every error is; after
   * it, a failed or expired transaction; without fee delegation, one that was not mined, whose
   * response failed or is missing, or that expired.
   */
  predicate Fatal(delegatedFee: bool, i: nat, result: SendResult) {
    result.Failed? &&
    if delegatedFee then i > 0 && result.code !in {CaverTxTransactionFailed, TxNonceExpired}
    else result.code !in {TxNotMined, TxProcessingResponseError, TxMissingResponseError, TxNonceExpired}
  }

  /** The send neither succeeded nor ended in a fatal error. */
  predicate GoesAgain(delegatedFee: bool, i: nat, result: SendResult) {
    result.Failed? && !Fatal(delegatedFee, i, result)
  }

  /**
   * An execution sends until a send succeeds or ends in a fatal error, at most three times, and
   * throws exactly in the second case.
   */
  lemma {:induction false} RestEnds(delegatedFee: bool, sent: seq<nat>, nonce: nat, counter: nat, results: seq<SendResult>)
    requires |sent| <= |results| == 3 && forall i :: 0 <= i < |sent| ==> GoesAgain(delegatedFee, i, results[i])
    ensures var r := Rest(delegatedFee, sent, nonce, sent == [] || !delegatedFee, counter, results);
            && |sent| <= |r.sent| <= 3 && (|sent| < 3 ==> |sent| < |r.sent|)
            && (forall i :: 0 <= i < |r.sent| - 1 ==> GoesAgain(delegatedFee, i, results[i]))
            && (|r.sent| < 3 ==> !GoesAgain(delegatedFee, |r.sent| - 1, results[|r.sent| - 1]))
            && (r.threw <==> Fatal(delegatedFee, |r.sent| - 1, results[|r.sent| - 1]))
    decreases TRIALS - |sent|
  {
    if |sent| < TRIALS && GoesAgain(delegatedFee, |sent|, results[|sent|]) {
      if results[|sent|].code == TxNonceExpired {
        RestEnds(delegatedFee, sent + [nonce], counter, counter + 1, results);
      } else {
        RestEnds(delegatedFee, sent + [nonce], nonce, counter, results);
      }
    }
  }

  class ReporterState {
    const delegatedFee: bool
    var nonces: map<string, nat>
    var broken: set<string>    // addresses whose entry is NaN
    var wallets: set<string>

    /** add and refresh set an address's counter together with its wallet; remove drops the wallet only. */
    predicate Valid()
      reads this
    {
      wallets <= nonces.Keys
    }

    constructor (delegatedFee: bool, nonces: map<string, nat>, wallets: set<string>)
      requires wallets <= nonces.Keys
      ensures Valid() && this.delegatedFee == delegatedFee && this.nonces == nonces && this.wallets == wallets && broken == {}
    {
      this.delegatedFee, this.nonces, this.wallets, broken := delegatedFee, nonces, wallets, {};
    }

    /** An address that was never added has no counter: the result and its entry are no number from then on. */
    method GetAndIncrementNonce(oracleAddress: string) returns (nonce: Option<nat>)
      modifies this`nonces, this`broken
      ensures oracleAddress in old(nonces) ==>
                && nonce == Some(old(nonces[oracleAddress])) && broken == old(broken)
                && nonces == old(nonces)[oracleAddress := nonce.value + 1]
      ensures oracleAddress !in old(nonces) ==>
                nonce == None && nonces == old(nonces) && broken == old(broken) + {oracleAddress}
    {
      if oracleAddress in nonces {
        nonce := Some(nonces[oracleAddress]);
        nonces := nonces[oracleAddress := nonce.value + 1];
      } else {
        nonce := None;
        broken := broken + {oracleAddress};
      }
    }

    ghost predicate Matches(s: State)
      reads this
    {
      s.delegatedFee == delegatedFee && s.nonces == nonces
    }

    /** One trial of the loop; `next` and `okay'` are what the loop goes on with. */
    method Trial(ghost run: Trace, ghost acts0: seq<Action>, ghost s0: State, ghost id: string, ghost left: nat, ghost number: nat,
                 to: string, nonce: nat, okay: bool, results: seq<SendResult>, ghost before: seq<SendEvent>, sent: seq<nat>)
      returns (ghost acts: seq<Action>, ghost s: State, next: nat, okay': bool, over: bool, threw: bool)
      requires Closed(run) && run(acts0, s0) && Matches(s0) && Executing(s0, id, left, number, to, |sent|, nonce, okay, Sending)
      requires |sent| < TRIALS == |results| && to in nonces && Logged(before, s0.log, id, number, to, sent)
      modifies this`nonces, this`broken
      ensures run(acts, s) && Matches(s) && Logged(before, s.log, id, number, to, sent + [nonce])
      ensures to in nonces && nonces == old(nonces)[to := nonces[to]]
      ensures Rest(delegatedFee, sent, nonce, okay, old(nonces)[to], results)
              == if over then Outcome(sent + [nonce], nonces[to], threw)
                 else Rest(delegatedFee, sent + [nonce], next, okay', nonces[to], results)
      ensures if over || |sent| + 1 == TRIALS then Idle(s, id, if threw then left else 0)
              else Executing(s, id, left, number, to, |sent| + 1, next, okay', Sending)
      ensures !over ==> !threw
    {
      var result := results[|sent|];
      acts, s := TrialEffect(run, acts0, s0, id, left, number, to, |sent|, nonce, okay, result, before, sent);
      next, okay', over, threw := nonce, okay && !delegatedFee, result.Sent?, false;
      if result.Failed? {
        if !Retried(delegatedFee, okay, result.code) {
          over, threw := true, true;
        } else if result.code == TxNonceExpired {
          var taken := GetAndIncrementNonce(to);
          next := taken.value;
        }
      }
    }

    /** The retry loop of an execution that has started. */
    method Retry(ghost run: Trace, ghost acts0: seq<Action>, ghost s0: State, ghost id: string, ghost left: nat, ghost number: nat,
                 to: string, nonce: nat, results: seq<SendResult>)
      returns (ghost acts: seq<Action>, ghost s: State, sent: seq<nat>, threw: bool)
      requires Closed(run) && run(acts0, s0) && Matches(s0) && Executing(s0, id, left, number, to, 0, nonce, true, Sending)
      requires to in nonces && |results| == TRIALS
      modifies this`nonces, this`broken
      ensures run(acts, s) && Matches(s) && Idle(s, id, if threw then left else 0) && Logged(s0.log, s.log, id, number, to, sent)
      ensures to in nonces && nonces == old(nonces)[to := nonces[to]]
      ensures Outcome(sent, nonces[to], threw) == Rest(delegatedFee, [], nonce, true, old(nonces)[to], results)
    {
      acts, s, sent, threw := acts0, s0, [], false;
      var delegatorOkay, localNonce, over := true, nonce, false;
      ghost var was, whole := nonces, Rest(delegatedFee, [], nonce, true, nonces[to], results);
      for i := 0 to TRIALS
        invariant i == |sent| && run(acts, s) && Matches(s) && !over && !threw && to in nonces
        invariant Logged(s0.log, s.log, id, number, to, sent) && nonces == was[to := nonces[to]]
        invariant whole == Rest(delegatedFee, sent, localNonce, delegatorOkay, nonces[to], results)
        invariant if i == TRIALS then Idle(s, id, 0) else Executing(s, id, left, number, to, i, localNonce, delegatorOkay, Sending)
      {
        var sentNonce := localNonce;
        acts, s, localNonce, delegatorOkay, over, threw :=
          Trial(run, acts, s, id, left, number, to, localNonce, delegatorOkay, results, s0.log, sent);
        sent := sent + [sentNonce];
        if over { return; }
      }
    }

    method ReportIn(ghost run: Trace, ghost s0: State, ghost id: string, ghost left: nat, to: string, nonce: nat, results: seq<SendResult>)
      returns (ghost acts: seq<Action>, ghost s: State, sent: seq<nat>, threw: bool)
      requires |results| == TRIALS && Valid() && Closed(run) && run([], s0)
      requires Matches(s0) && Idle(s0, id, left) && left > 0 && s0.jobs[id].token.to == to && s0.jobs[id].token.nonce == nonce
      modifies this`nonces, this`broken
      ensures Valid() && run(acts, s) && Matches(s) && Idle(s, id, if threw then left - 1 else 0)
      ensures Logged(s0.log, s.log, id, s0.runs, to, sent)
      ensures to !in wallets ==> threw && sent == [] && nonces == old(nonces)
      ensures to in wallets ==> nonces == old(nonces)[to := nonces[to]]
                                && Outcome(sent, nonces[to], threw) == Rest(delegatedFee, [], nonce, true, old(nonces)[to], results)
    {
      Step(run, [], s0, Start(id, to in wallets));
      StartEffect(s0, id, left, to in wallets);
      acts, s := [] + [Start(id, to in wallets)], OnStart(s0, id, to in wallets);
      if to !in wallets {
        return acts, s, [], true;
      }
      acts, s, sent, threw := Retry(run, acts, s, id, left - 1, s0.runs, to, nonce, results);
    }

    /**
     * One execution of a reporter job; `results` says how each send ends. What it sends and
     * takes is what its own steps in the interleaved system log and take, and its queue may run
     * the job again exactly if it throws and attempts are left.
     */
    method Report(ghost s0: State, ghost id: string, ghost left: nat, to: string, nonce: nat, results: seq<SendResult>)
      returns (ghost acts: seq<Action>, ghost s: State, sent: seq<nat>, threw: bool)
      requires |results| == TRIALS && Valid()
      requires Matches(s0) && Idle(s0, id, left) && left > 0 && s0.jobs[id].token.to == to && s0.jobs[id].token.nonce == nonce
      modifies this`nonces, this`broken
      ensures Valid() && Reaches(s0, acts, s) && Matches(s) && Idle(s, id, if threw then left - 1 else 0)
      ensures Logged(s0.log, s.log, id, s0.runs, to, sent)
      ensures to !in wallets ==> threw && sent == [] && nonces == old(nonces)
      ensures to in wallets ==> nonces == old(nonces)[to := nonces[to]]
                                && Outcome(sent, nonces[to], threw) == Rest(delegatedFee, [], nonce, true, old(nonces)[to], results)
    {
      TracesAreClosed(s0);
      acts, s, sent, threw := ReportIn(TracesFrom(s0), s0, id, left, to, nonce, results);
    }
  }
}
