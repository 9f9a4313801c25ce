/**
 * What every `Transact` and `Conn` call keeps, however the callbacks nest:
 * the counter invariant `txCount > 0` iff `tx != nil`, a well-formed driver
 * log whose open handles are exactly the runner's `tx` and `conn`, and the
 * shape of the state a call leaves behind.
 */
module RunnerProofs {
  import opened Wrappers
  import opened Errors
  import opened RunnerModel
  import opened RunnerLog

  function OptSet(o: Option<nat>): set<nat>
  {
    if o.Some? then {o.value} else {}
  }

  /** The counter invariant of the runner. */
  predicate Inv(s: State)
  {
    s.txCount >= 0 && (s.txCount > 0 <==> s.tx.Some?)
  }

  /** The counter invariant together with the log discipline. */
  predicate Good(s: State)
  {
    && Inv(s)
    && LogOk(s.log)
    && OpenTx(s.log) == OptSet(s.tx)
    && OpenConns(s.log) == OptSet(s.conn)
    && (forall id :: id in Used(s.log) ==> id < s.next)
  }

  /**
   * What a call from `s` that ended in `t` preserves: the invariants, the
   * log so far, the pinned connection; and the transaction is either as it
   * was or gone with the counter at zero.
   */
  predicate Sound(s: State, t: State)
  {
    && Good(t)
    && s.log <= t.log
    && s.next <= t.next
    && t.conn == s.conn
    && ((t.tx == s.tx && t.txCount == s.txCount) || (t.tx.None? && t.txCount == 0))
  }

  lemma SoundTrans(a: State, b: State, c: State)
    requires Sound(a, b) && Sound(b, c)
    ensures Sound(a, c)
  {
  }

  lemma {:induction false} TransactSound(s: State, c: TxCall)
    requires Good(s)
    ensures Sound(s, RunTransact(s, c).0)
    ensures RunTransact(s, c).1.Ok? ==> RunTransact(s, c).0.tx == s.tx && RunTransact(s, c).0.txCount == s.txCount
    decreases c, 1
  {
    if Enter(s, c).Success? {
      var s1 := Enter(s, c).value;
      EnterGood(s, c);
      BodySound(s1, c.body);
      var (s2, o) := RunBody(s1, c.body);
      SettleSound(s, s2, o, c);
    }
  }

  /** The deferred block of `Transact` ends in a sound state, given what the callback can have left. */
  lemma SettleSound(s: State, s2: State, o: Outcome, c: TxCall)
    requires Good(s) && Good(s2) && s.log <= s2.log && s.next <= s2.next && s2.conn == s.conn
    requires s.tx.None? ==> (s2.tx.Some? && s2.txCount == 1) || (s2.tx.None? && s2.txCount == 0)
    requires s.tx.Some? ==> (s2.tx == s.tx && s2.txCount == s.txCount + 1) || (s2.tx.None? && s2.txCount == 0)
    ensures Sound(s, Settle(s2, o, c).0)
    ensures Settle(s2, o, c).1.Ok? ==> Settle(s2, o, c).0.tx == s.tx && Settle(s2, o, c).0.txCount == s.txCount
  {
    if !o.Ok? && s2.tx.Some? {
      Snoc(s2.log, Rollback(s2.tx.value));
    } else if o.Ok? && s2.tx.Some? && s2.txCount - 1 == 0 {
      Snoc(s2.log, Commit(s2.tx.value));
    }
  }

  lemma {:induction false} ConnSound(s: State, c: ConnCall)
    requires Good(s)
    ensures Sound(s, RunConn(s, c).0)
    decreases c, 1
  {
    if s.tx.Some? || s.conn.Some? {
      BodySound(s, c.body);
    } else {
      var (s0, e0) := AcquireOnce(s, c.acquireErr);
      AcquireSound(s, c.acquireErr);
      if e0 == Some(SentinelError(BadConn)) {
        AcquireSound(s0, c.retryErr);
      }
      var (s1, err) := AcquireConn(s, c);
      if err.None? {
        BodySound(s1, c.body);
        CloseSound(s, s1, RunBody(s1, c.body).0);
      }
    }
  }

  /** Closing the connection `Conn` acquired returns to a sound state. */
  lemma CloseSound(s: State, s1: State, s2: State)
    requires Good(s) && s.conn.None? && Good(s1) && s1.conn.Some? && s.log <= s1.log && s.next <= s1.next
    requires s1.tx == s.tx && s1.txCount == s.txCount && Sound(s1, s2)
    ensures Sound(s, s2.(conn := None, log := s2.log + [Close(s1.conn.value)]))
  {
    Snoc(s2.log, Close(s1.conn.value));
  }

  lemma AcquireSound(s: State, err: Option<Error>)
    requires Good(s) && s.conn.None?
    ensures var (t, e) := AcquireOnce(s, err);
            Good(t) && s.log <= t.log && s.next <= t.next && t.tx == s.tx && t.txCount == s.txCount
            && (e.None? <==> t.conn.Some?) && e == err
  {
    if err.None? {
      Snoc(s.log, Acquire(s.next));
    } else {
      Snoc(s.log, AcquireFailed(err.value));
    }
  }

  lemma {:induction false} ActionSound(s: State, a: Action)
    requires Good(s)
    ensures Sound(s, RunAction(s, a).0)
    decreases a, 2
  {
    match a
    case DoTransact(tc) => TransactSound(s, tc);
    case DoConn(cc) => ConnSound(s, cc);
    case DoStatement(op) => Snoc(s.log, Statement(op, Target(s, op)));
  }

  lemma {:induction false} ActionsSound(s: State, b: Body, i: nat)
    requires Good(s) && i <= |b.actions|
    ensures Sound(s, RunActions(s, b, i).0)
    decreases b, 0, |b.actions| - i
  {
    if i < |b.actions| {
      ActionSound(s, b.actions[i]);
      var (s1, o1) := RunAction(s, b.actions[i]);
      if !(o1.Panic? || (b.checked && o1.Fail?)) {
        ActionsSound(s1, b, i + 1);
        SoundTrans(s, s1, RunActions(s1, b, i + 1).0);
      }
    }
  }

  lemma {:induction false} BodySound(s: State, b: Body)
    requires Good(s)
    ensures Sound(s, RunBody(s, b).0)
    decreases b, 1
  {
    ActionsSound(s, b, 0);
  }

  /**
   * The outermost `Transact` (none active on entry) always returns with no
   * transaction and the counter at zero, whatever it returns: every
   * transaction it began is committed or rolled back by then, so each handle
   * opened is either released or the pinned connection.
   */
  lemma OutermostTransactReleasesAll(s: State, c: TxCall)
    requires Good(s) && s.tx.None?
    ensures var t := RunTransact(s, c).0;
            && t.tx.None? && t.txCount == 0 && OpenTx(t.log) == {}
            && Used(t.log) == OptSet(t.conn) + ReleasedSet(t.log)
  {
    TransactSound(s, c);
    LogFacts(RunTransact(s, c).0.log);
  }

  /**
   * A nested `Transact` that succeeds leaves the outer transaction open and
   * the counter as it found it: only the call that reaches zero commits.
   */
  lemma NestedSuccessDoesNotCommit(s: State, c: TxCall)
    requires Good(s) && s.tx.Some? && RunTransact(s, c).1.Ok?
    ensures var t := RunTransact(s, c).0;
            && t.tx == s.tx && t.txCount == s.txCount && s.tx.value in OpenTx(t.log)
            && s.tx.value !in ReleasedSet(t.log)
  {
    TransactSound(s, c);
    LogFacts(RunTransact(s, c).0.log);
  }

  /** A begin that fails returns its error and changes nothing: the callback does not run. */
  lemma BeginFailureChangesNothing(s: State, c: TxCall)
    requires s.tx.None? && c.beginErr.Some?
    ensures RunTransact(s, c) == (s, Fail(c.beginErr.value))
  {
  }

  /** When a transaction is active, `Transact` joins it: its options play no part. */
  lemma JoinIgnoresOptions(s: State, c: TxCall, opts: TxOptions)
    requires s.tx.Some?
    ensures Enter(s, c) == Success(s.(txCount := s.txCount + 1))
    ensures RunTransact(s, c) == RunTransact(s, c.(opts := opts))
  {
  }

  lemma EnterGood(s: State, c: TxCall)
    requires Good(s) && Enter(s, c).Success?
    ensures Good(Enter(s, c).value)
  {
    if s.tx.None? {
      Snoc(s.log, Begin(s.next, if s.conn.Some? then OnConn(s.conn.value) else OnDb, c.opts));
    }
  }

  /** The deferred block on a failed or panicking callback. */
  lemma SettleFailure(s2: State, o: Outcome, c: TxCall)
    requires Inv(s2) && !o.Ok?
    ensures var (t, r) := Settle(s2, o, c);
            && r == o && t.tx.None? && t.txCount == 0
            && (s2.tx.Some? ==> t.log == s2.log + [Rollback(s2.tx.value)])
            && (s2.tx.None? ==> t.log == s2.log)
  {
  }

  /**
   * A callback that fails or panics rolls the transaction back if it is
   * still open, leaves no transaction and a zero counter at any depth, and
   * its error or panic comes out unchanged.
   */
  lemma FailureRollsBack(s: State, c: TxCall)
    requires Good(s) && Enter(s, c).Success?
    requires !RunBody(Enter(s, c).value, c.body).1.Ok?
    ensures var (s2, o) := RunBody(Enter(s, c).value, c.body);
            var (t, r) := RunTransact(s, c);
            && r == o && t.tx.None? && t.txCount == 0
            && (s2.tx.Some? ==> t.log == s2.log + [Rollback(s2.tx.value)])
            && (s2.tx.None? ==> t.log == s2.log)
  {
    var s1 := Enter(s, c).value;
    assert Good(s1) by { EnterGood(s, c); }
    BodySound(s1, c.body);
    var (s2, o) := RunBody(s1, c.body);
    assert RunTransact(s, c) == Settle(s2, o, c);
    SettleFailure(s2, o, c);
  }

  /**
   * A callback that returns nil after an inner call has already rolled the
   * transaction back makes `Transact` panic instead of committing.
   */
  lemma NilAfterRollbackPanics(s: State, c: TxCall)
    requires Enter(s, c).Success?
    requires var (s2, o) := RunBody(Enter(s, c).value, c.body); o.Ok? && s2.tx.None?
    ensures RunTransact(s, c) == (RunBody(Enter(s, c).value, c.body).0, Panic(AlreadyFinished))
  {
  }

  /** The call that began a transaction and sees its callback succeed commits it, and clears `tx` even if the commit fails. */
  lemma OutermostSuccessCommits(s: State, c: TxCall)
    requires Good(s) && s.tx.None? && Enter(s, c).Success?
    requires RunBody(Enter(s, c).value, c.body).1.Ok?
    requires RunBody(Enter(s, c).value, c.body).0.tx.Some?
    ensures var s2 := RunBody(Enter(s, c).value, c.body).0;
            && s2.tx == Some(s.next) && s2.txCount == 1
            && RunTransact(s, c) == (s2.(tx := None, txCount := 0, log := s2.log + [Commit(s.next)]),
                                    CommitResult(c.commitErr, c.ctxErr))
  {
    var s1 := Enter(s, c).value;
    Snoc(s.log, Begin(s.next, if s.conn.Some? then OnConn(s.conn.value) else OnDb, c.opts));
    BodySound(s1, c.body);
  }

  /** `Conn` with a transaction or a pinned connection already in place just runs the callback. */
  lemma ConnDelegates(s: State, c: ConnCall)
    requires s.tx.Some? || s.conn.Some?
    ensures RunConn(s, c) == RunBody(s, c.body)
  {
  }

  /** Only a bad connection is retried, and only once. */
  lemma ConnRetriesOnlyBadConn(s: State, c: ConnCall)
    requires s.tx.None? && s.conn.None?
    ensures c.acquireErr.Some? && c.acquireErr != Some(SentinelError(BadConn)) ==>
              RunConn(s, c) == (s.(log := s.log + [AcquireFailed(c.acquireErr.value)]), Fail(c.acquireErr.value))
    ensures c.acquireErr == Some(SentinelError(BadConn)) && c.retryErr.Some? ==>
              RunConn(s, c) == (s.(log := s.log + [AcquireFailed(SentinelError(BadConn)), AcquireFailed(c.retryErr.value)]),
                                Fail(c.retryErr.value))
  {
    if c.acquireErr == Some(SentinelError(BadConn)) && c.retryErr.Some? {
      assert s.log + [AcquireFailed(SentinelError(BadConn))] + [AcquireFailed(c.retryErr.value)]
          == s.log + [AcquireFailed(SentinelError(BadConn)), AcquireFailed(c.retryErr.value)];
    }
  }

  /**
   * A connection that `Conn` acquires is closed exactly once, as the last
   * thing it does, and is no longer pinned afterwards.
   */
  lemma ConnClosesOnce(s: State, c: ConnCall)
    requires Good(s) && s.tx.None? && s.conn.None? && AcquireConn(s, c).1.None?
    ensures var id := AcquireConn(s, c).0.conn.value;
            var t := RunConn(s, c).0;
            && t.conn.None? && t.log != [] && Last(t.log) == Close(id)
            && id in ReleasedSet(t.log) && id !in OpenConns(t.log)
            && forall j :: 0 <= j < |t.log| - 1 && IsRelease(t.log[j]) ==> Released(t.log[j]) != id
  {
    ConnSound(s, c);
    var t := RunConn(s, c).0;
    var id := AcquireConn(s, c).0.conn.value;
    assert Last(t.log) == Close(id);
    assert IsRelease(t.log[|t.log| - 1]) && Released(t.log[|t.log| - 1]) == id;
    ReleaseRemembered(t.log, |t.log| - 1, |t.log|);
    assert t.log[..|t.log|] == t.log;
    forall j | 0 <= j < |t.log| - 1 && IsRelease(t.log[j])
      ensures Released(t.log[j]) != id
    {
      AtMostOneRelease(t.log, j, |t.log| - 1);
    }
  }

  /**
   * The close result replaces a failing callback's error: when the close
   * succeeds, the callback's error is lost and `Conn` returns nil; a
   * successful callback's nil is kept whatever the close returns.
   */
  lemma ConnCloseResultWins(s: State, c: ConnCall)
    requires s.tx.None? && s.conn.None? && AcquireConn(s, c).1.None?
    ensures var o := RunBody(AcquireConn(s, c).0, c.body).1;
            && (o.Fail? && c.closeErr.None? ==> RunConn(s, c).1 == Ok)
            && (o.Fail? && c.closeErr.Some? ==> RunConn(s, c).1 == Fail(c.closeErr.value))
            && (o.Ok? ==> RunConn(s, c).1 == Ok)
            && (o.Panic? ==> RunConn(s, c).1 == o)
  {
  }

  /**
   * Two nested calls whose inner callback fails: the one physical
   * transaction is rolled back once, nothing is committed, and the outer
   * call reports the inner error if its callback passes it on, or panics if
   * its callback returns nil.
   */
  lemma NestedInnerFailureScenario(e: Error, opts: TxOptions)
    ensures var s0 := State(None, None, 0, [], 0);
            var inner := TxCall(opts, None, None, None, Body([DoStatement(Exec)], false, Fail(e)));
            var log := [Begin(0, OnDb, opts), Statement(Exec, OnTx(0)), Statement(Exec, OnTx(0)), Rollback(0)];
            && RunTransact(s0, TxCall(opts, None, None, None, Body([DoStatement(Exec), DoTransact(inner)], true, Ok)))
               == (State(None, None, 0, log, 1), Fail(e))
            && RunTransact(s0, TxCall(opts, None, None, None, Body([DoStatement(Exec), DoTransact(inner)], false, Ok)))
               == (State(None, None, 0, log, 1), Panic(AlreadyFinished))
  {
    var s0 := State(None, None, 0, [], 0);
    var inner := TxCall(opts, None, None, None, Body([DoStatement(Exec)], false, Fail(e)));
    var ib := inner.body;
    var s1 := State(Some(0), None, 1, [Begin(0, OnDb, opts)], 1);
    var s2 := s1.(log := s1.log + [Statement(Exec, OnTx(0))]);
    var s3 := s2.(txCount := 2);
    var s4 := s3.(log := s3.log + [Statement(Exec, OnTx(0))]);
    var s5 := State(None, None, 0, s4.log + [Rollback(0)], 1);
    // the inner call
    assert RunAction(s3, DoStatement(Exec)) == (s4, Ok);
    assert RunActions(s4, ib, 1) == (s4, Fail(e));
    assert RunActions(s3, ib, 0) == (s4, Fail(e));
    assert Enter(s2, inner) == Success(s3);
    assert Settle(s4, Fail(e), inner) == (s5, Fail(e));
    assert RunTransact(s2, inner) == (s5, Fail(e));
    // the outer call, with a checked and with an unchecked callback
    assert RunAction(s1, DoStatement(Exec)) == (s2, Ok);
    var bc := Body([DoStatement(Exec), DoTransact(inner)], true, Ok);
    var bu := Body([DoStatement(Exec), DoTransact(inner)], false, Ok);
    assert RunAction(s2, bc.actions[1]) == (s5, Fail(e));
    assert RunActions(s2, bc, 1) == (s5, Fail(e));
    assert RunActions(s1, bc, 0) == (s5, Fail(e));
    assert RunActions(s5, bu, 2) == (s5, Ok);
    assert RunActions(s2, bu, 1) == (s5, Ok);
    assert RunActions(s1, bu, 0) == (s5, Ok);
    var outerC := TxCall(opts, None, None, None, bc);
    var outerU := TxCall(opts, None, None, None, bu);
    assert s0.log + [Begin(0, OnDb, opts)] == [Begin(0, OnDb, opts)];
    assert Enter(s0, outerC) == Success(s1);
    assert Enter(s0, outerU) == Success(s1);
    assert Settle(s5, Fail(e), outerC) == (s5, Fail(e));
    assert Settle(s5, Ok, outerU) == (s5, Panic(AlreadyFinished));
    assert s5.log == [Begin(0, OnDb, opts), Statement(Exec, OnTx(0)), Statement(Exec, OnTx(0)), Rollback(0)];
  }

  /**
   * After an inner call has rolled the transaction back, an outer callback
   * that carries on sends its statements to the pool, and a further nested
   * `Transact` begins and commits a second physical transaction; the outer
   * call then panics.
   */
  lemma ContinueAfterRollbackScenario(e: Error, opts: TxOptions)
    ensures var s0 := State(None, None, 0, [], 0);
            var failing := TxCall(opts, None, None, None, Body([], false, Fail(e)));
            var passing := TxCall(opts, None, None, None, Body([], false, Ok));
            var body := Body([DoTransact(failing), DoStatement(Exec), DoTransact(passing)], false, Ok);
            var log := [Begin(0, OnDb, opts), Rollback(0), Statement(Exec, OnDb), Begin(1, OnDb, opts), Commit(1)];
            RunTransact(s0, TxCall(opts, None, None, None, body)) == (State(None, None, 0, log, 2), Panic(AlreadyFinished))
  {
    var s0 := State(None, None, 0, [], 0);
    var failing := TxCall(opts, None, None, None, Body([], false, Fail(e)));
    var passing := TxCall(opts, None, None, None, Body([], false, Ok));
    var body := Body([DoTransact(failing), DoStatement(Exec), DoTransact(passing)], false, Ok);
    var outer := TxCall(opts, None, None, None, body);
    var s1 := State(Some(0), None, 1, [Begin(0, OnDb, opts)], 1);
    assert s0.log + [Begin(0, OnDb, opts)] == [Begin(0, OnDb, opts)];
    assert Enter(s0, outer) == Success(s1);
    // the failing inner call rolls back
    var a1 := s1.(txCount := 2);
    var s2 := State(None, None, 0, [Begin(0, OnDb, opts), Rollback(0)], 1);
    assert Enter(s1, failing) == Success(a1);
    assert RunBody(a1, failing.body) == (a1, Fail(e));
    assert a1.log + [Rollback(0)] == s2.log;
    assert Settle(a1, Fail(e), failing) == (s2, Fail(e));
    assert RunAction(s1, body.actions[0]) == (s2, Fail(e));
    // the statement goes to the pool
    var s3 := s2.(log := s2.log + [Statement(Exec, OnDb)]);
    assert RunAction(s2, body.actions[1]) == (s3, Ok);
    // the passing inner call begins and commits a new transaction
    var b1 := State(Some(1), None, 1, s3.log + [Begin(1, OnDb, opts)], 2);
    var s4 := b1.(tx := None, txCount := 0, log := b1.log + [Commit(1)]);
    assert Enter(s3, passing) == Success(b1);
    assert RunBody(b1, passing.body) == (b1, Ok);
    assert Settle(b1, Ok, passing) == (s4, Ok);
    assert RunAction(s3, body.actions[2]) == (s4, Ok);
    assert RunActions(s4, body, 3) == (s4, Ok);
    assert RunActions(s3, body, 2) == (s4, Ok);
    assert RunActions(s2, body, 1) == (s4, Ok);
    assert RunActions(s1, body, 0) == (s4, Ok);
    assert Settle(s4, Ok, outer) == (s4, Panic(AlreadyFinished));
    assert s4.log == [Begin(0, OnDb, opts), Rollback(0), Statement(Exec, OnDb), Begin(1, OnDb, opts), Commit(1)];
  }
}
