/**
 * Nonces of the TypeScript reporter (core/src/reporter): the nonce manager attaches one to
 * each job, and the reporter job sends up to three times, taking a new nonce whenever the
 * one in hand has expired. Jobs interleave freely. A job whose execution throws is run again
 * by its queue, with the nonce it was queued with, up to ten times; one whose execution
 * returns - after a success or after the third trial - is not. A refresh or add restarts an
 * address's counter: a new epoch of that address.
 */
module ReporterNonces {
  import opened Wrappers

  const TRIALS: nat := 3
  const ATTEMPTS: nat := 10

  /** A nonce together with the address and the epoch it was taken in. */
  datatype Token = Token(to: string, epoch: nat, nonce: nat)

  datatype ErrorCode =
    | TxNonceExpired | CaverTxTransactionFailed | TxNotMined
    | TxProcessingResponseError | TxMissingResponseError | OtherError

  /** How one send ends. */
  datatype SendResult = Sent | Failed(code: ErrorCode)

  /** Where a running reporter job is: about to send, or about to take a new nonce. */
  datatype Phase = Sending | Renewing

  /** `trial` counts the sends of this execution; `tx` is the nonce of the next send. */
  datatype Execution = Execution(run: nat, trial: nat, tx: Token, delegatorOkay: bool, phase: Phase)

  /** A reporter job: its own nonce, how often it may yet be started, and its execution while it runs. */
  datatype Job = Job(token: Token, left: nat, exec: Option<Execution>)

  /** A transaction sent; `era` counts the restarts of the address's counter at that time. */
  datatype SendEvent = SendEvent(job: string, run: nat, token: Token, era: nat)

  datatype State = State(
    delegatedFee: bool,
    nonces: map<string, nat>,
    epochs: map<string, nat>,
    jobs: map<string, Job>,
    runs: nat,
    log: seq<SendEvent>,
    taken: map<Token, string>) // history: which job took which nonce

  ghost predicate Initial(s: State) {
    s.jobs == map[] && s.log == [] && s.taken == map[] && s.runs == 0
    && s.epochs.Keys == s.nonces.Keys
  }

  datatype Action =
    | Restart(to: string, nonce: nat)                    // refresh or add
    | Manage(id: string, to: string, queued: bool)       // one attempt of a nonce manager job
    | Start(id: string, walletActive: bool)
    | Send(id: string, result: SendResult)
    | Renew(id: string)
    | Remove(id: string)                                 // the queue drops a finished or failed job

  predicate Enabled(s: State, a: Action) {
    match a
    case Restart(_, _) => true
    case Manage(_, to, _) => to in s.nonces
    case Start(id, _) => id in s.jobs && s.jobs[id].exec.None? && s.jobs[id].left > 0
    case Send(id, _) => id in s.jobs && s.jobs[id].exec.Some? && s.jobs[id].exec.value.phase == Sending
    case Renew(id) => id in s.jobs && s.jobs[id].exec.Some? && s.jobs[id].exec.value.phase == Renewing
                      && s.jobs[id].token.to in s.nonces
    case Remove(id) => id in s.jobs && s.jobs[id].exec.None? && s.jobs[id].left == 0
  }

  /** getAndIncrementNonce on behalf of a job. */
  function Next(s: State, to: string): Token
    requires to in s.nonces && to in s.epochs
  {
    Token(to, s.epochs[to], s.nonces[to])
  }

  function Take(s: State, to: string, id: string): State
    requires to in s.nonces && to in s.epochs
  {
    s.(nonces := s.nonces[to := s.nonces[to] + 1], taken := s.taken[Next(s, to) := id])
  }

  /** A retried error, in each of the three sending modes. */
  predicate Retried(delegatedFee: bool, delegatorOkay: bool, code: ErrorCode) {
    if delegatedFee && delegatorOkay then true
    else if delegatedFee then code == CaverTxTransactionFailed || code == TxNonceExpired
    else code != CaverTxTransactionFailed && code != OtherError
  }

  /** The loop's end: the next trial, or the job returns after the third. */
  function NextTrial(e: Execution): Option<Execution> {
    if e.trial < TRIALS then Some(e.(phase := Sending)) else None
  }

  /** The execution after one send: over, sending again, or about to renew its nonce. */
  function AfterSend(delegatedFee: bool, e: Execution, result: SendResult): Option<Execution> {
    match result
    case Sent => None
    case Failed(code) =>
      if !Retried(delegatedFee, e.delegatorOkay, code) then None
      else
        var e1 := e.(trial := e.trial + 1, delegatorOkay := e.delegatorOkay && !delegatedFee);
        if code == TxNonceExpired then Some(e1.(phase := Renewing)) else NextTrial(e1)
  }

  predicate Throws(delegatedFee: bool, e: Execution, result: SendResult) {
    result.Failed? && !Retried(delegatedFee, e.delegatorOkay, result.code)
  }

  /** The job goes on as `next`; it is done when its execution is over without a throw. */
  function GoesOn(j: Job, next: Option<Execution>, threw: bool): Job {
    j.(exec := next, left := if next.None? && !threw then 0 else j.left)
  }

  function OnRestart(s: State, to: string, nonce: nat): State {
    s.(nonces := s.nonces[to := nonce], epochs := s.epochs[to := if to in s.epochs then s.epochs[to] + 1 else 0])
  }

  function OnManage(s: State, id: string, to: string, queued: bool): State
    requires to in s.nonces && to in s.epochs
  {
    var s1 := Take(s, to, id);
    if !queued || id in s.jobs then s1 else s1.(jobs := s1.jobs[id := Job(Next(s, to), ATTEMPTS, None)])
  }

  function OnStart(s: State, id: string, walletActive: bool): State
    requires id in s.jobs && s.jobs[id].left > 0
  {
    var j := s.jobs[id].(left := s.jobs[id].left - 1);
    if !walletActive then s.(jobs := s.jobs[id := j])
    else s.(jobs := s.jobs[id := j.(exec := Some(Execution(s.runs, 0, j.token, true, Sending)))], runs := s.runs + 1)
  }

  /** How often the counter of `to` has been restarted. */
  function Era(s: State, to: string): nat {
    if to in s.epochs then s.epochs[to] else 0
  }

  function OnSend(s: State, id: string, result: SendResult): State
    requires id in s.jobs && s.jobs[id].exec.Some?
  {
    var e := s.jobs[id].exec.value;
    s.(jobs := s.jobs[id := GoesOn(s.jobs[id], AfterSend(s.delegatedFee, e, result), Throws(s.delegatedFee, e, result))],
       log := s.log + [SendEvent(id, e.run, e.tx, Era(s, e.tx.to))])
  }

  function OnRenew(s: State, id: string): State
    requires id in s.jobs && s.jobs[id].exec.Some? && s.jobs[id].token.to in s.nonces && s.jobs[id].token.to in s.epochs
  {
    var j := s.jobs[id];
    var s1 := Take(s, j.token.to, id);
    s1.(jobs := s1.jobs[id := GoesOn(j, NextTrial(j.exec.value.(tx := Next(s, j.token.to))), false)])
  }

  function Apply(s: State, a: Action): State
    requires Enabled(s, a) && s.epochs.Keys == s.nonces.Keys
  {
    match a
    case Restart(to, nonce) => OnRestart(s, to, nonce)
    case Manage(id, to, queued) => OnManage(s, id, to, queued)
    case Start(id, walletActive) => OnStart(s, id, walletActive)
    case Send(id, result) => OnSend(s, id, result)
    case Renew(id) => OnRenew(s, id)
    case Remove(id) => s.(jobs := s.jobs - {id})
  }

  predicate ValidRun(s: State, acts: seq<Action>)
    decreases |acts|, 0
  {
    acts == [] ||
    (ValidRun(s, acts[..|acts| - 1])
     && var m := Exec(s, acts[..|acts| - 1]); m.epochs.Keys == m.nonces.Keys && Enabled(m, acts[|acts| - 1]))
  }

  function Exec(s: State, acts: seq<Action>): State
    requires ValidRun(s, acts)
    decreases |acts|, 1
  {
    if acts == [] then s else Apply(Exec(s, acts[..|acts| - 1]), acts[|acts| - 1])
  }

  ghost predicate Reaches(s0: State, acts: seq<Action>, s: State) {
    ValidRun(s0, acts) && Exec(s0, acts) == s
  }
}
