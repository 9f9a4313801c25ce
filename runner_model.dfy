/**
 * The transaction/connection runner of gomodules/database/runner.go, as
 * functions of its state.
 *
 * The runner's fields are `tx`, `conn` and `txCount`. The driver behind
 * them (`sql.DB`, `sql.Conn`, `sql.Tx`) is abstract: it hands out numbered
 * handles and records every begin, commit, rollback, acquire, close and
 * statement in a log, and the answers it gives (a failed begin, a commit
 * error, the context's error, a failed acquisition, a close error) are part
 * of the call being modelled.
 *
 * A callback is data: the actions it performs through the runner (nested
 * `Transact` and `Conn` calls, statements) and what it returns (nil, an
 * error, or a panic). A callback either ignores the errors its actions
 * return, or is `checked` and returns the first one (`if err != nil { return err }`).
 * A panic of an action always propagates out of the callback.
 */
module RunnerModel {
  import opened Wrappers
  import opened Errors

  datatype TxOptions = TxOptions(isolation: nat, readOnly: bool)

  /** Values a panic can carry: one raised by a callback, or the runner's own. */
  datatype PanicValue =
    | UserPanic(tag: nat)
    | AlreadyFinished   // "Transanction is already rolledback or commited"

  /** How a call ends: nil error, an error, or a panic that propagates. */
  datatype Outcome = Ok | Fail(err: Error) | Panic(value: PanicValue)

  datatype Op = Query | QueryRow | Exec | Prepare

  /** Who receives a statement or a begin: a transaction, a pinned connection, or the pool. */
  datatype Executor = OnTx(tx: nat) | OnConn(conn: nat) | OnDb

  datatype Event =
    | Begin(tx: nat, on: Executor, opts: TxOptions)
    | Commit(tx: nat)
    | Rollback(tx: nat)
    | Acquire(conn: nat)
    | AcquireFailed(err: Error)
    | Close(conn: nat)
    | Statement(op: Op, target: Executor)

  /** A `Transact` call with the driver's answers to it. */
  datatype TxCall = TxCall(opts: TxOptions, beginErr: Option<Error>, commitErr: Option<Error>,
                           ctxErr: Option<Error>, body: Body)

  /** A `Conn` call with the driver's answers to it: both acquisitions and the close. */
  datatype ConnCall = ConnCall(acquireErr: Option<Error>, retryErr: Option<Error>,
                               closeErr: Option<Error>, body: Body)

  datatype Action = DoTransact(tc: TxCall) | DoConn(cc: ConnCall) | DoStatement(op: Op)

  datatype Body = Body(actions: seq<Action>, checked: bool, result: Outcome)

  /** The runner's fields, the driver's log, and the next free handle number. */
  datatype State = State(tx: Option<nat>, conn: Option<nat>, txCount: int, log: seq<Event>, next: nat)

  /** `Query`, `QueryRow` and `Exec` go to the transaction if any, else to the pool. */
  function StatementTarget(s: State): (e: Executor)
    ensures e.OnTx? <==> s.tx.Some?
    ensures e.OnTx? ==> e.tx == s.tx.value
    ensures !e.OnConn?
  {
    if s.tx.Some? then OnTx(s.tx.value)
    else if s.conn.Some? then OnDb   // a pinned connection is not used
    else OnDb
  }

  /** `Prepare` goes to the transaction, else the pinned connection, else the pool. */
  function PrepareTarget(s: State): (e: Executor)
    ensures e.OnTx? <==> s.tx.Some?
    ensures e.OnTx? ==> e.tx == s.tx.value
    ensures e.OnConn? <==> s.tx.None? && s.conn.Some?
    ensures e.OnConn? ==> e.conn == s.conn.value
  {
    if s.tx.Some? then OnTx(s.tx.value)
    else if s.conn.Some? then OnConn(s.conn.value)
    else OnDb
  }

  function Target(s: State, op: Op): Executor
  {
    if op == Prepare then PrepareTarget(s) else StatementTarget(s)
  }

  /**
   * The error of a final commit: a commit that failed because the
   * transaction was already done reports the context's cancellation or
   * deadline instead, when the context has one.
   */
  function CommitResult(commitErr: Option<Error>, ctxErr: Option<Error>): (o: Outcome)
    ensures o.Ok? <==> commitErr.None?
    ensures !o.Panic?
    ensures commitErr == Some(SentinelError(TxDone))
            && ctxErr in {Some(SentinelError(Canceled)), Some(SentinelError(DeadlineExceeded))}
            ==> o == Fail(ctxErr.value)
    ensures commitErr.Some?
            && !(commitErr == Some(SentinelError(TxDone))
                 && ctxErr in {Some(SentinelError(Canceled)), Some(SentinelError(DeadlineExceeded))})
            ==> o == Fail(commitErr.value)
  {
    match commitErr
    case None => Ok
    case Some(e) =>
      if e == SentinelError(TxDone)
         && (ctxErr == Some(SentinelError(Canceled)) || ctxErr == Some(SentinelError(DeadlineExceeded)))
      then Fail(ctxErr.value)
      else Fail(e)
  }

  /** The state once `Transact` has begun or joined a transaction, or the begin error. */
  function Enter(s: State, c: TxCall): (r: Result<State, Error>)
    ensures r.Failure? <==> s.tx.None? && c.beginErr.Some?
    ensures r.Failure? ==> r.error == c.beginErr.value
    ensures s.tx.Some? ==> r == Success(s.(txCount := s.txCount + 1))
    ensures s.tx.None? && r.Success? ==>
              r.value.tx == Some(s.next) && r.value.txCount == 1 && r.value.conn == s.conn
              && r.value.next == s.next + 1
              && r.value.log == s.log + [Begin(s.next, if s.conn.Some? then OnConn(s.conn.value) else OnDb, c.opts)]
  {
    if s.tx.None? then
      var on := if s.conn.Some? then OnConn(s.conn.value) else OnDb;
      if c.beginErr.Some? then Failure(c.beginErr.value)
      else Success(s.(tx := Some(s.next), txCount := 1, log := s.log + [Begin(s.next, on, c.opts)],
                      next := s.next + 1))
    else
      Success(s.(txCount := s.txCount + 1))
  }

  /** The deferred block of `Transact`, run on the state and outcome the body left. */
  function Settle(s: State, o: Outcome, c: TxCall): (r: (State, Outcome))
    ensures r.0.conn == s.conn && r.0.next == s.next
    ensures !o.Ok? ==> r.1 == o && r.0.tx.None?
    ensures !o.Ok? && s.tx.Some? ==> r.0.txCount == 0 && r.0.log == s.log + [Rollback(s.tx.value)]
    ensures !o.Ok? && s.tx.None? ==> r.0 == s
    ensures o.Ok? && s.tx.None? ==> r == (s, Panic(AlreadyFinished))
    ensures o.Ok? && s.tx.Some? && s.txCount == 1 ==>
              r.0.tx.None? && r.0.txCount == 0 && r.0.log == s.log + [Commit(s.tx.value)]
              && r.1 == CommitResult(c.commitErr, c.ctxErr)
    ensures o.Ok? && s.tx.Some? && s.txCount != 1 ==> r == (s.(txCount := s.txCount - 1), Ok)
  {
    var s1 := if !o.Ok? && s.tx.Some?
              then s.(tx := None, txCount := 0, log := s.log + [Rollback(s.tx.value)])
              else s;
    if o.Panic? || o.Fail? then (s1, o)
    else if s1.tx.None? then (s1, Panic(AlreadyFinished))
    else if s1.txCount - 1 == 0 then
      (s1.(tx := None, txCount := 0, log := s1.log + [Commit(s1.tx.value)]), CommitResult(c.commitErr, c.ctxErr))
    else
      (s1.(txCount := s1.txCount - 1), Ok)
  }

  /** `Transact`. */
  function RunTransact(s: State, c: TxCall): (r: (State, Outcome))
    ensures s.tx.None? && c.beginErr.Some? ==> r == (s, Fail(c.beginErr.value))
    ensures s.log <= r.0.log && s.next <= r.0.next && r.0.conn == s.conn
    decreases c, 1
  {
    match Enter(s, c)
    case Failure(e) => (s, Fail(e))
    case Success(s1) =>
      var (s2, o) := RunBody(s1, c.body);
      Settle(s2, o, c)
  }

  /** One attempt at `db.Conn`: a fresh handle, or the error (and no connection). */
  function AcquireOnce(s: State, err: Option<Error>): (r: (State, Option<Error>))
    ensures r.1 == err && r.0.tx == s.tx && r.0.txCount == s.txCount
    ensures err.None? ==> r.0.conn == Some(s.next) && r.0.next == s.next + 1 && r.0.log == s.log + [Acquire(s.next)]
    ensures err.Some? ==> r.0.conn.None? && r.0.next == s.next && r.0.log == s.log + [AcquireFailed(err.value)]
  {
    if err.None? then (s.(conn := Some(s.next), log := s.log + [Acquire(s.next)], next := s.next + 1), None)
    else (s.(conn := None, log := s.log + [AcquireFailed(err.value)]), err)
  }

  /** Acquisition with the single retry on a bad connection. */
  function AcquireConn(s: State, c: ConnCall): (r: (State, Option<Error>))
    ensures r.1.None? <==> r.0.conn.Some?
    ensures r.1 == (if c.acquireErr == Some(SentinelError(BadConn)) then c.retryErr else c.acquireErr)
    ensures r.0.tx == s.tx && r.0.txCount == s.txCount
    ensures c.acquireErr != Some(SentinelError(BadConn)) ==> r.0 == AcquireOnce(s, c.acquireErr).0
    ensures c.acquireErr == Some(SentinelError(BadConn)) ==>
              s.log + [AcquireFailed(SentinelError(BadConn))] <= r.0.log
              && r.0 == AcquireOnce(s.(log := s.log + [AcquireFailed(SentinelError(BadConn))]), c.retryErr).0
  {
    var (s1, e1) := AcquireOnce(s, c.acquireErr);
    if e1 == Some(SentinelError(BadConn)) then AcquireOnce(s1, c.retryErr) else (s1, e1)
  }

  /**
   * `Conn`. The deferred close replaces the error of a failing callback by
   * the close result, which may be nil; a successful callback keeps its nil.
   */
  function RunConn(s: State, c: ConnCall): (r: (State, Outcome))
    ensures s.log <= r.0.log && s.next <= r.0.next && r.0.conn == s.conn
    ensures s.tx.None? && s.conn.None? && AcquireConn(s, c).1.Some? ==>
              r == (AcquireConn(s, c).0, Fail(AcquireConn(s, c).1.value))
    decreases c, 1
  {
    if s.tx.Some? || s.conn.Some? then RunBody(s, c.body)
    else
      var (s1, err) := AcquireConn(s, c);
      if err.Some? then (s1, Fail(err.value))
      else
        var id := s1.conn.value;
        var (s2, o) := RunBody(s1, c.body);
        var s3 := s2.(conn := None, log := s2.log + [Close(id)]);
        match o
        case Ok => (s3, Ok)
        case Fail(_) => (s3, if c.closeErr.None? then Ok else Fail(c.closeErr.value))
        case Panic(p) => (s3, Panic(p))
  }

  function RunAction(s: State, a: Action): (r: (State, Outcome))
    ensures s.log <= r.0.log && s.next <= r.0.next && r.0.conn == s.conn
    decreases a, 2
  {
    match a
    case DoTransact(tc) => RunTransact(s, tc)
    case DoConn(cc) => RunConn(s, cc)
    case DoStatement(op) => (s.(log := s.log + [Statement(op, Target(s, op))]), Ok)
  }

  /** The actions of a callback from the `i`-th on, then its return. */
  function RunActions(s: State, b: Body, i: nat): (r: (State, Outcome))
    requires i <= |b.actions|
    ensures s.log <= r.0.log && s.next <= r.0.next && r.0.conn == s.conn
    decreases b, 0, |b.actions| - i
  {
    if i == |b.actions| then (s, b.result)
    else
      var (s1, o1) := RunAction(s, b.actions[i]);
      if o1.Panic? || (b.checked && o1.Fail?) then (s1, o1)
      else RunActions(s1, b, i + 1)
  }

  function RunBody(s: State, b: Body): (r: (State, Outcome))
    ensures s.log <= r.0.log && s.next <= r.0.next && r.0.conn == s.conn
    ensures b.actions == [] ==> r == (s, b.result)
    decreases b, 1
  {
    RunActions(s, b, 0)
  }
}
