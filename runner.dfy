/**
 * The runner itself (`dbRunner` of gomodules/database/runner.go): a class
 * whose fields `tx`, `conn` and `txCount` its methods update in place, over
 * an abstract driver that hands out numbered handles and records what it is
 * asked to do. Each method is proved to leave exactly the state, and return
 * exactly the outcome, that the functions of RunnerModel give, so the
 * lemmas of RunnerProofs and RunnerLog hold of it.
 */
module Runner {
  import opened Wrappers
  import opened Errors
  import opened RunnerModel
  import opened RunnerLog
  import opened RunnerProofs

  class DbRunner {
    var tx: Option<nat>
    var conn: Option<nat>
    var txCount: int
    /** The abstract driver: what it has been asked to do, and the next handle number it hands out. */
    var log: seq<Event>
    var next: nat

    function Snapshot(): State
      reads this
    {
      State(tx, conn, txCount, log, next)
    }

    ghost predicate Valid()
      reads this
    {
      Good(Snapshot())
    }

    constructor ()
      ensures Valid() && Snapshot() == State(None, None, 0, [], 0)
    {
      tx, conn, txCount, log, next := None, None, 0, [], 0;
    }

    /** `IsInTransaction`: whether the counter is positive, which is whether a transaction is active. */
    method IsInTransaction() returns (b: bool)
      ensures b <==> txCount > 0
      ensures Inv(Snapshot()) ==> (b <==> tx.Some?)
    {
      b := txCount > 0;
    }

    /** `Query`: the active transaction, else the pool (a pinned connection is not used). */
    method Query() returns (target: Executor)
      ensures target.OnTx? <==> tx.Some?
      ensures target.OnTx? ==> target.tx == tx.value
      ensures !target.OnConn?
    {
      if tx.Some? {
        target := OnTx(tx.value);
      } else if conn.Some? {
        target := OnDb;
      } else {
        target := OnDb;
      }
    }

    /** `QueryRow`: the active transaction, else the pool (a pinned connection is not used). */
    method QueryRow() returns (target: Executor)
      ensures target.OnTx? <==> tx.Some?
      ensures target.OnTx? ==> target.tx == tx.value
      ensures !target.OnConn?
    {
      if tx.Some? {
        target := OnTx(tx.value);
      } else if conn.Some? {
        target := OnDb;
      } else {
        target := OnDb;
      }
    }

    /** `Exec`: the active transaction, else the pool (a pinned connection is not used). */
    method Exec() returns (target: Executor)
      ensures target.OnTx? <==> tx.Some?
      ensures target.OnTx? ==> target.tx == tx.value
      ensures !target.OnConn?
    {
      if tx.Some? {
        target := OnTx(tx.value);
      } else if conn.Some? {
        target := OnDb;
      } else {
        target := OnDb;
      }
    }

    /** `Prepare`: the active transaction, else the pinned connection, else the pool. */
    method Prepare() returns (target: Executor)
      ensures target.OnTx? <==> tx.Some?
      ensures target.OnTx? ==> target.tx == tx.value
      ensures target.OnConn? <==> tx.None? && conn.Some?
      ensures target.OnConn? ==> target.conn == conn.value
    {
      if tx.Some? {
        target := OnTx(tx.value);
      } else if conn.Some? {
        target := OnConn(conn.value);
      } else {
        target := OnDb;
      }
    }

    /** `Transact`: begin or join, run the callback, then the deferred rollback or commit. */
    method Transact(c: TxCall) returns (o: Outcome)
      requires Valid()
      modifies this
      ensures Valid()
      ensures (Snapshot(), o) == RunTransact(old(Snapshot()), c)
      decreases c, 1
    {
      ghost var s0 := Snapshot();
      TransactSound(s0, c);
      if tx.None? {
        var on := if conn.Some? then OnConn(conn.value) else OnDb;
        if c.beginErr.Some? {
          o := Fail(c.beginErr.value);
          return;
        }
        log := log + [Begin(next, on, c.opts)];
        tx := Some(next);
        next := next + 1;
        txCount := 1;
      } else {
        txCount := txCount + 1;
      }
      assert Snapshot() == Enter(s0, c).value;
      EnterGood(s0, c);
      o := Run(c.body);
      ghost var s2 := Snapshot();
      assert RunTransact(s0, c) == Settle(s2, o, c);

      // the deferred function
      if !o.Ok? && tx.Some? {
        log := log + [Rollback(tx.value)];   // its error is ignored
        tx := None;
        txCount := 0;
      }
      if o.Panic? || o.Fail? {
        return;
      }
      if tx.None? {
        o := Panic(AlreadyFinished);
        return;
      }
      txCount := txCount - 1;
      if txCount == 0 {
        o := CommitResult(c.commitErr, c.ctxErr);
        log := log + [Commit(tx.value)];
        tx := None;
      }
    }

    /** One call to `db.Conn`: the connection is the handle or nil. */
    method TryAcquire(err: Option<Error>)
      modifies this
      ensures Snapshot() == AcquireOnce(old(Snapshot()), err).0
    {
      if err.None? {
        conn := Some(next);
        log := log + [Acquire(next)];
        next := next + 1;
      } else {
        conn := None;
        log := log + [AcquireFailed(err.value)];
      }
    }

    /** `db.Conn`, retried once when the first attempt reports a bad connection. */
    method AcquireWithRetry(c: ConnCall) returns (err: Option<Error>)
      requires Valid() && conn.None?
      modifies this
      ensures Valid()
      ensures (Snapshot(), err) == AcquireConn(old(Snapshot()), c)
    {
      ghost var s0 := Snapshot();
      AcquireSound(s0, c.acquireErr);
      TryAcquire(c.acquireErr);
      err := c.acquireErr;
      if err == Some(SentinelError(BadConn)) {
        AcquireSound(Snapshot(), c.retryErr);
        TryAcquire(c.retryErr);
        err := c.retryErr;
      }
    }

    /** `Conn`: reuse what is active, or acquire (retrying a bad connection once), run, close. */
    method Conn(c: ConnCall) returns (o: Outcome)
      requires Valid()
      modifies this
      ensures Valid()
      ensures (Snapshot(), o) == RunConn(old(Snapshot()), c)
      decreases c, 1
    {
      ghost var s0 := Snapshot();
      ConnSound(s0, c);
      if tx.Some? || conn.Some? {
        o := Run(c.body);
        return;
      }
      var err := AcquireWithRetry(c);
      if err.Some? {
        o := Fail(err.value);
        return;
      }
      ghost var s1 := Snapshot();
      BodySound(s1, c.body);
      o := Run(c.body);

      o := CloseDeferred(o, c.closeErr);
    }

    /** The function `Conn` defers: close and unpin the connection; a failing callback's error becomes the close result. */
    method CloseDeferred(o: Outcome, errClose: Option<Error>) returns (r: Outcome)
      requires conn.Some?
      modifies this
      ensures Snapshot() == old(Snapshot()).(conn := None, log := old(log) + [Close(old(conn).value)])
      ensures o.Fail? ==> r == (if errClose.None? then Ok else Fail(errClose.value))
      ensures !o.Fail? ==> r == o
    {
      log := log + [Close(conn.value)];
      conn := None;
      r := o;
      if o.Fail? {
        r := if errClose.None? then Ok else Fail(errClose.value);
      }
    }

    method RunAction(a: Action) returns (o: Outcome)
      requires Valid()
      modifies this
      ensures Valid()
      ensures (Snapshot(), o) == RunnerModel.RunAction(old(Snapshot()), a)
      decreases a, 2
    {
      ActionSound(Snapshot(), a);
      match a
      case DoTransact(tc) =>
        o := Transact(tc);
      case DoConn(cc) =>
        o := Conn(cc);
      case DoStatement(op) =>
        var target;
        match op {
          case Query => target := Query();
          case QueryRow => target := QueryRow();
          case Exec => target := Exec();
          case Prepare => target := Prepare();
        }
        log := log + [Statement(op, target)];
        o := Ok;
    }

    /** A callback: its actions in order until a panic (or, when checked, an error), then its result. */
    method Run(b: Body) returns (o: Outcome)
      requires Valid()
      modifies this
      ensures Valid()
      ensures (Snapshot(), o) == RunBody(old(Snapshot()), b)
      decreases b, 1
    {
      var i := 0;
      while i < |b.actions|
        invariant 0 <= i <= |b.actions|
        invariant Valid()
        invariant RunActions(Snapshot(), b, i) == RunBody(old(Snapshot()), b)
      {
        o := RunAction(b.actions[i]);
        if o.Panic? || (b.checked && o.Fail?) {
          return;
        }
        i := i + 1;
      }
      o := b.result;
    }
  }
}
