/**
 * The connection a context runs its statements on, and the gate that opens
 * it: a bounded number of attempts with a linearly growing pause between
 * failed ones.
 */
module ConnectionGate {
  import opened Common
  import opened Data

  /** The attempt limit a fresh process starts with. */
  const DefaultMaxConnectionAttempts: int := 5

  /** Pause after failed attempt `a` (milliseconds). */
  function PauseAfter(a: nat): nat
  {
    a * 1000
  }

  /**
   * An engine connection. `history` is every statement sent on it so far,
   * oldest first; the engine's answers are functions of that history.
   */
  class Connection {
    var isOpen: bool
    var history: seq<Execution>
    const dataSource: string

    constructor (dataSource: string)
      ensures !isOpen && history == [] && this.dataSource == dataSource
    {
      this.dataSource := dataSource;
      isOpen := false;
      history := [];
    }

    /** ExecuteReader: the rows of the statement's result set; refused on a closed connection. */
    method ExecuteReader(provider: Provider, cmd: Command) returns (r: Result<seq<Row>, Error>)
      modifies this`history
      ensures !isOpen ==> r == Failure(ConnectionClosed) && history == old(history)
      ensures isOpen ==> history == old(history) + [Execution(ReaderKind, cmd)]
      ensures isOpen ==> r == Engine(provider.reader(old(history), cmd))
    {
      if !isOpen {
        return Failure(ConnectionClosed);
      }
      r := Engine(provider.reader(history, cmd));
      history := history + [Execution(ReaderKind, cmd)];
    }

    /** ExecuteNonQuery: the number of rows the statement affected. */
    method ExecuteNonQuery(provider: Provider, cmd: Command) returns (r: Result<int, Error>)
      modifies this`history
      ensures !isOpen ==> r == Failure(ConnectionClosed) && history == old(history)
      ensures isOpen ==> history == old(history) + [Execution(NonQueryKind, cmd)]
      ensures isOpen ==> r == Engine(provider.nonQuery(old(history), cmd))
    {
      if !isOpen {
        return Failure(ConnectionClosed);
      }
      r := Engine(provider.nonQuery(history, cmd));
      history := history + [Execution(NonQueryKind, cmd)];
    }

    /** ExecuteScalar: the first column of the first row. */
    method ExecuteScalar(provider: Provider, cmd: Command) returns (r: Result<Value, Error>)
      modifies this`history
      ensures !isOpen ==> r == Failure(ConnectionClosed) && history == old(history)
      ensures isOpen ==> history == old(history) + [Execution(ScalarKind, cmd)]
      ensures isOpen ==> r == Engine(provider.scalar(old(history), cmd))
    {
      if !isOpen {
        return Failure(ConnectionClosed);
      }
      r := Engine(provider.scalar(history, cmd));
      history := history + [Execution(ScalarKind, cmd)];
    }
  }

  /** An engine answer seen through the library: an engine failure surfaces as an exception. */
  function Engine<T>(a: Result<T, DbError>): (r: Result<T, Error>)
    ensures r.Ok? <==> a.Ok?
    ensures r.Ok? ==> r.value == a.value
    ensures r.Failure? ==> r.error == EngineError(a.error)
  {
    match a
    case Ok(v) => Ok(v)
    case Failure(e) => Failure(EngineError(e))
  }

  /** What a call of the gate does: whether the connection ends open, the exception it throws, the pauses it takes. */
  datatype OpenOutcome = OpenOutcome(nowOpen: bool, failure: Option<Error>, pauses: seq<nat>)

  /**
   * Attempts `a`, `a + 1`, ... up to `max` on a closed connection, where
   * `opens(k)` says whether attempt k succeeds. Failing the last attempt
   * throws; failing an earlier one pauses and tries again.
   */
  function AttemptFrom(a: nat, max: int, opens: nat -> bool, dataSource: string): (r: OpenOutcome)
    decreases max - a
    ensures r.nowOpen ==> r.failure.None?
    ensures r.failure.Some? ==> a <= max && r.failure.value == ConnectionFailed(max, dataSource)
    ensures !r.nowOpen && r.failure.None? ==> a > max && r.pauses == []
  {
    if a > max then OpenOutcome(false, None, [])
    else if opens(a) then OpenOutcome(true, None, [])
    else if a == max then OpenOutcome(false, Some(ConnectionFailed(a, dataSource)), [])
    else
      var rest := AttemptFrom(a + 1, max, opens, dataSource);
      rest.(pauses := [PauseAfter(a)] + rest.pauses)
  }

  /** TryOpenConnection: nothing to do on an open connection, else attempts 1 to `max`. */
  function OpenPlan(alreadyOpen: bool, max: int, opens: nat -> bool, dataSource: string): (r: OpenOutcome)
    ensures r.failure.Some? ==>
      !alreadyOpen && !r.nowOpen && 1 <= max && r.failure.value == ConnectionFailed(max, dataSource)
    ensures !r.nowOpen && r.failure.None? ==> !alreadyOpen && max < 1
  {
    if alreadyOpen then OpenOutcome(true, None, [])
    else AttemptFrom(1, max, opens, dataSource)
  }

  /** A failed attempt before the last pauses, then the attempts go on from the next one. */
  lemma AttemptAgain(a: nat, max: int, opens: nat -> bool, dataSource: string)
    requires a < max && !opens(a)
    ensures var rest := AttemptFrom(a + 1, max, opens, dataSource);
      AttemptFrom(a, max, opens, dataSource) == rest.(pauses := [PauseAfter(a)] + rest.pauses)
  {
  }

  method TryOpenConnection(conn: Connection, maxAttempts: int, opens: nat -> bool)
    returns (failure: Option<Error>, pauses: seq<nat>)
    modifies conn`isOpen
    ensures var plan := OpenPlan(old(conn.isOpen), maxAttempts, opens, conn.dataSource);
      conn.isOpen == plan.nowOpen && failure == plan.failure && pauses == plan.pauses
  {
    if conn.isOpen {
      return None, [];
    }
    failure, pauses := None, [];
    var attempts := 1;
    ghost var plan := AttemptFrom(1, maxAttempts, opens, conn.dataSource);
    while attempts <= maxAttempts
      invariant 1 <= attempts
      invariant !conn.isOpen && failure == None
      invariant var rest := AttemptFrom(attempts, maxAttempts, opens, conn.dataSource);
        plan.nowOpen == rest.nowOpen && plan.failure == rest.failure && plan.pauses == pauses + rest.pauses
      decreases maxAttempts - attempts
    {
      if opens(attempts) {
        assert AttemptFrom(attempts, maxAttempts, opens, conn.dataSource).nowOpen;
        conn.isOpen := true;
        return;
      }
      if attempts == maxAttempts {
        assert AttemptFrom(attempts, maxAttempts, opens, conn.dataSource)
            == OpenOutcome(false, Some(ConnectionFailed(attempts, conn.dataSource)), []);
        failure := Some(ConnectionFailed(attempts, conn.dataSource));
        return;
      }
      AttemptAgain(attempts, maxAttempts, opens, conn.dataSource);
      ghost var rest := AttemptFrom(attempts + 1, maxAttempts, opens, conn.dataSource);
      assert pauses + ([PauseAfter(attempts)] + rest.pauses) == (pauses + [PauseAfter(attempts)]) + rest.pauses;
      pauses := pauses + [PauseAfter(attempts)];
      attempts := attempts + 1;
    }
    assert AttemptFrom(attempts, maxAttempts, opens, conn.dataSource) == OpenOutcome(false, None, []);
  }

  /** Failed attempts 1 to n pause 1000, 2000, ..., n * 1000 milliseconds. */
  function Backoff(n: nat): (s: seq<nat>)
    ensures |s| == n
    ensures forall i :: 0 <= i < n ==> s[i] == PauseAfter(i + 1)
  {
    if n == 0 then [] else Backoff(n - 1) + [PauseAfter(n)]
  }

  predicate FirstSuccess(opens: nat -> bool, a: nat, k: nat)
  {
    a <= k && opens(k) && forall j :: a <= j < k ==> !opens(j)
  }

  /**
   * From attempt a: the connection opens iff some attempt up to max
   * succeeds, and then after pausing once per earlier failure; when every
   * attempt fails the exception reports max attempts after max - a pauses.
   */
  lemma {:induction false} AttemptFromOutcome(a: nat, max: int, opens: nat -> bool, dataSource: string)
    requires 1 <= a
    ensures var o := AttemptFrom(a, max, opens, dataSource);
      (o.nowOpen <==> exists k :: a <= k <= max && opens(k))
      && (forall k :: a <= k <= max && FirstSuccess(opens, a, k) ==>
            o.failure == None && |o.pauses| == k - a
            && forall i :: 0 <= i < |o.pauses| ==> o.pauses[i] == PauseAfter(a + i))
      && (o.failure.Some? <==> a <= max && forall k :: a <= k <= max ==> !opens(k))
      && (o.failure.Some? ==>
            o.failure.value == ConnectionFailed(max, dataSource) && |o.pauses| == max - a
            && forall i :: 0 <= i < |o.pauses| ==> o.pauses[i] == PauseAfter(a + i))
      && (a > max ==> o == OpenOutcome(false, None, []))
    decreases max - a
  {
    if a <= max && !opens(a) && a < max {
      AttemptFromOutcome(a + 1, max, opens, dataSource);
      var o := AttemptFrom(a, max, opens, dataSource);
      var rest := AttemptFrom(a + 1, max, opens, dataSource);
      assert o.pauses == [PauseAfter(a)] + rest.pauses;
      forall k | a <= k <= max && FirstSuccess(opens, a, k)
        ensures FirstSuccess(opens, a + 1, k)
      {
      }
      if o.nowOpen {
        var k :| a + 1 <= k <= max && opens(k);
        assert a <= k <= max;
      }
    }
  }

  /** The gate's contract on a closed connection, attempts counted from 1. */
  lemma OpenPlanFromClosed(max: int, opens: nat -> bool, dataSource: string)
    ensures var o := OpenPlan(false, max, opens, dataSource);
      (o.nowOpen <==> exists k :: 1 <= k <= max && opens(k))
      && (forall k :: 1 <= k <= max && FirstSuccess(opens, 1, k) ==> o.failure == None && o.pauses == Backoff(k - 1))
      && (o.failure.Some? <==> 1 <= max && forall k :: 1 <= k <= max ==> !opens(k))
      && (o.failure.Some? ==> o.failure.value == ConnectionFailed(max, dataSource) && o.pauses == Backoff(max - 1))
      && (max <= 0 ==> !o.nowOpen && o.failure == None && o.pauses == [])
  {
    AttemptFromOutcome(1, max, opens, dataSource);
  }

  /** An open connection is left alone: no attempt, no pause, no exception. */
  lemma OpenConnectionUntouched(max: int, opens: nat -> bool, dataSource: string)
    ensures OpenPlan(true, max, opens, dataSource) == OpenOutcome(true, None, [])
  {
  }

  function TotalPause(s: seq<nat>): nat
  {
    if s == [] then 0 else TotalPause(s[..|s| - 1]) + s[|s| - 1]
  }

  /** Failing n times in a row costs 1 + 2 + ... + n seconds of pauses. */
  lemma {:induction false} BackoffTotal(n: nat)
    ensures TotalPause(Backoff(n)) == 500 * n * (n + 1)
  {
    if n > 0 {
      var s := Backoff(n);
      assert s[..|s| - 1] == Backoff(n - 1);
      BackoffTotal(n - 1);
    }
  }

  /** With the default limit, a database that never opens is given up on after ten seconds of pauses. */
  lemma DefaultLimitGivesUpAfterTenSeconds(opens: nat -> bool, dataSource: string)
    requires forall k :: 1 <= k <= DefaultMaxConnectionAttempts ==> !opens(k)
    ensures var o := OpenPlan(false, DefaultMaxConnectionAttempts, opens, dataSource);
      !o.nowOpen && o.failure == Some(ConnectionFailed(5, dataSource)) && TotalPause(o.pauses) == 10000
  {
    OpenPlanFromClosed(DefaultMaxConnectionAttempts, opens, dataSource);
    BackoffTotal(4);
  }
}
