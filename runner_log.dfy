/**
 * The discipline of the driver log: every handle (transaction or
 * connection) is opened once under a fresh number, released at most once
 * and only while open, and statements and begins only reach handles that
 * are open.
 */
module RunnerLog {
  import opened RunnerModel

  function Init(log: seq<Event>): seq<Event>
    requires log != []
  {
    log[..|log| - 1]
  }

  function Last(log: seq<Event>): Event
    requires log != []
  {
    log[|log| - 1]
  }

  /** Transactions begun and not yet committed or rolled back. */
  function OpenTx(log: seq<Event>): set<nat>
  {
    if log == [] then {}
    else
      match Last(log)
      case Begin(id, _, _) => OpenTx(Init(log)) + {id}
      case Commit(id) => OpenTx(Init(log)) - {id}
      case Rollback(id) => OpenTx(Init(log)) - {id}
      case _ => OpenTx(Init(log))
  }

  /** Connections acquired and not yet closed. */
  function OpenConns(log: seq<Event>): set<nat>
  {
    if log == [] then {}
    else
      match Last(log)
      case Acquire(id) => OpenConns(Init(log)) + {id}
      case Close(id) => OpenConns(Init(log)) - {id}
      case _ => OpenConns(Init(log))
  }

  predicate IsRelease(e: Event)
  {
    e.Commit? || e.Rollback? || e.Close?
  }

  function Released(e: Event): nat
    requires IsRelease(e)
  {
    match e
    case Commit(id) => id
    case Rollback(id) => id
    case Close(id) => id
  }

  /** Handles that were ever opened. */
  function Used(log: seq<Event>): set<nat>
  {
    if log == [] then {}
    else
      match Last(log)
      case Begin(id, _, _) => Used(Init(log)) + {id}
      case Acquire(id) => Used(Init(log)) + {id}
      case _ => Used(Init(log))
  }

  /** Handles that were released (committed, rolled back or closed). */
  function ReleasedSet(log: seq<Event>): set<nat>
  {
    if log == [] then {}
    else if IsRelease(Last(log)) then ReleasedSet(Init(log)) + {Released(Last(log))}
    else ReleasedSet(Init(log))
  }

  predicate ReachesOpen(log: seq<Event>, target: Executor)
  {
    (target.OnTx? ==> target.tx in OpenTx(log)) && (target.OnConn? ==> target.conn in OpenConns(log))
  }

  /** Whether event `e` may follow the events `log`. */
  predicate EventOk(log: seq<Event>, e: Event)
  {
    match e
    case Begin(id, on, _) => id !in Used(log) && !on.OnTx? && ReachesOpen(log, on)
    case Commit(id) => id in OpenTx(log)
    case Rollback(id) => id in OpenTx(log)
    case Acquire(id) => id !in Used(log)
    case AcquireFailed(_) => true
    case Close(id) => id in OpenConns(log)
    case Statement(_, target) => ReachesOpen(log, target)
  }

  predicate LogOk(log: seq<Event>)
  {
    log == [] || (LogOk(Init(log)) && EventOk(Init(log), Last(log)))
  }

  /** Appending one event, unfolded. */
  lemma Snoc(log: seq<Event>, e: Event)
    ensures Init(log + [e]) == log && Last(log + [e]) == e
    ensures LogOk(log + [e]) <==> LogOk(log) && EventOk(log, e)
  {
    assert Init(log + [e]) == log;
  }

  /** What a well-formed log guarantees about its handles, at every length. */
  lemma {:induction false} LogFacts(log: seq<Event>)
    requires LogOk(log)
    ensures OpenTx(log) <= Used(log) && OpenConns(log) <= Used(log) && ReleasedSet(log) <= Used(log)
    ensures OpenTx(log) !! ReleasedSet(log) && OpenConns(log) !! ReleasedSet(log)
    ensures OpenTx(log) !! OpenConns(log)
    ensures Used(log) == OpenTx(log) + OpenConns(log) + ReleasedSet(log)
  {
    if log != [] {
      LogFacts(Init(log));
    }
  }

  lemma {:induction false} PrefixOk(log: seq<Event>, k: nat)
    requires LogOk(log) && k <= |log|
    ensures LogOk(log[..k])
    decreases |log| - k
  {
    if k < |log| {
      assert Init(log[..k + 1]) == log[..k];
      PrefixOk(log, k + 1);
    } else {
      assert log[..k] == log;
    }
  }

  /** A handle released at position `i` is in the released set of every longer prefix. */
  lemma {:induction false} ReleaseRemembered(log: seq<Event>, i: nat, k: nat)
    requires i < k <= |log| && IsRelease(log[i])
    ensures Released(log[i]) in ReleasedSet(log[..k])
    decreases k
  {
    assert Last(log[..k]) == log[k - 1];
    assert Init(log[..k]) == log[..k - 1];
    if i < k - 1 {
      ReleaseRemembered(log, i, k - 1);
    }
  }

  /**
   * At most one release per handle: no transaction is committed or rolled
   * back twice (nor both), and no connection is closed twice.
   */
  lemma AtMostOneRelease(log: seq<Event>, i: nat, j: nat)
    requires LogOk(log) && i < j < |log|
    requires IsRelease(log[i]) && IsRelease(log[j])
    ensures Released(log[i]) != Released(log[j])
  {
    PrefixOk(log, j + 1);
    var p := log[..j + 1];
    assert Init(p) == log[..j] && Last(p) == log[j];
    LogFacts(log[..j]);
    ReleaseRemembered(log, i, j);
  }

  /** A release names a handle that was opened earlier and is still open. */
  lemma ReleaseFollowsOpen(log: seq<Event>, j: nat)
    requires LogOk(log) && j < |log| && IsRelease(log[j])
    ensures Released(log[j]) in Used(log[..j])
    ensures log[j].Close? ==> Released(log[j]) in OpenConns(log[..j])
    ensures !log[j].Close? ==> Released(log[j]) in OpenTx(log[..j])
  {
    PrefixOk(log, j + 1);
    var p := log[..j + 1];
    assert Init(p) == log[..j] && Last(p) == log[j];
    LogFacts(log[..j]);
  }
}
