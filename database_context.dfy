/**
 * The database context: the statement runners that bind, execute and
 * materialise one query on an open connection, the identity flag, and the
 * multiple-query batch built on them.
 */
module Database {
  import opened Common
  import opened Data
  import opened ParameterBinder
  import opened RowMaterialiser
  import opened ConnectionGate
  import opened Batch

  /** The statement that reads back the identity of the last inserted record. */
  const IdentityQuery: string := "select @@identity"

  /** What a non-query returns; `identity` stays 0 unless it was requested. */
  datatype NonQueryResult = NonQueryResult(rowsAffected: int, identity: int)

  /**
   * The value stored under an item's id in a batch result. `DeferredRows`
   * is a row sequence that has not been enumerated: its statement has not
   * been bound or sent yet.
   */
  datatype QueryResult =
    | SingleRow(record: Option<Record>)
    | Rows(records: seq<Record>)
    | DeferredRows(query: string, parameters: ParamArray)
    | Affected(nonQuery: NonQueryResult)
    | ScalarValue(value: Value)

  /** A result together with the connection's statement history afterwards. */
  datatype Outcome<T> = Outcome(result: Result<T, Error>, history: seq<Execution>)

  function ReaderStep(isOpen: bool, history: seq<Execution>, p: Provider, cmd: Command): Outcome<seq<Row>>
  {
    if !isOpen then Outcome(Failure(ConnectionClosed), history)
    else Outcome(Engine(p.reader(history, cmd)), history + [Execution(ReaderKind, cmd)])
  }

  function NonQueryStep(isOpen: bool, history: seq<Execution>, p: Provider, cmd: Command): Outcome<int>
  {
    if !isOpen then Outcome(Failure(ConnectionClosed), history)
    else Outcome(Engine(p.nonQuery(history, cmd)), history + [Execution(NonQueryKind, cmd)])
  }

  function ScalarStep(isOpen: bool, history: seq<Execution>, p: Provider, cmd: Command): Outcome<Value>
  {
    if !isOpen then Outcome(Failure(ConnectionClosed), history)
    else Outcome(Engine(p.scalar(history, cmd)), history + [Execution(ScalarKind, cmd)])
  }

  /**
   * BuildAndExecuteSingle: bind, read, and materialise the first row; a
   * failure while materialising yields null, a binding or engine failure
   * propagates. At most one statement is sent.
   */
  function SingleSpec(isOpen: bool, history: seq<Execution>, p: Provider, query: string, parameters: ParamArray)
    : (o: Outcome<Option<Record>>)
    ensures history <= o.history && |o.history| <= |history| + 1
  {
    match BindParameters(query, parameters)
    case Failure(e) => Outcome(Failure(e), history)
    case Ok(bound) =>
      var read := ReaderStep(isOpen, history, p, Command(query, bound));
      match read.result
      case Failure(e) => Outcome(Failure(e), read.history)
      case Ok(rows) => Outcome(Ok(FirstRecord(rows, p.changeType)), read.history)
  }

  /** BuildAndExecuteMany, enumerated to the end: one record per row, in row order. */
  function ManySpec(isOpen: bool, history: seq<Execution>, p: Provider, query: string, parameters: ParamArray)
    : (o: Outcome<seq<Record>>)
    ensures history <= o.history && |o.history| <= |history| + 1
  {
    match BindParameters(query, parameters)
    case Failure(e) => Outcome(Failure(e), history)
    case Ok(bound) =>
      var read := ReaderStep(isOpen, history, p, Command(query, bound));
      match read.result
      case Failure(e) => Outcome(Failure(e), read.history)
      case Ok(rows) => Outcome(MaterialiseAll(rows, p.changeType), read.history)
  }

  /**
   * BuildAndExecuteNonQuery: the rows affected, then, when the identity is
   * wanted, the identity query on the same command (same parameters) and
   * its answer converted to a 64-bit integer.
   */
  function NonQuerySpec(returnIdentity: bool, isOpen: bool, history: seq<Execution>, p: Provider,
                        query: string, parameters: ParamArray): (o: Outcome<NonQueryResult>)
    ensures history <= o.history && |o.history| <= |history| + 2
  {
    match BindParameters(query, parameters)
    case Failure(e) => Outcome(Failure(e), history)
    case Ok(bound) =>
      var run := NonQueryStep(isOpen, history, p, Command(query, bound));
      match run.result
      case Failure(e) => Outcome(Failure(e), run.history)
      case Ok(n) =>
        if !returnIdentity then Outcome(Ok(NonQueryResult(n, 0)), run.history)
        else
          var ident := ScalarStep(isOpen, run.history, p, Command(IdentityQuery, bound));
          match ident.result
          case Failure(e) => Outcome(Failure(e), ident.history)
          case Ok(v) =>
            match p.toInt64(v)
            case None => Outcome(Failure(IdentityConversion), ident.history)
            case Some(id) => Outcome(Ok(NonQueryResult(n, id)), ident.history)
  }

  /** BuildAndExecuteScalar: the engine's scalar answer, unconverted. */
  function ScalarSpec(isOpen: bool, history: seq<Execution>, p: Provider, query: string, parameters: ParamArray)
    : (o: Outcome<Value>)
    ensures history <= o.history && |o.history| <= |history| + 1
  {
    match BindParameters(query, parameters)
    case Failure(e) => Outcome(Failure(e), history)
    case Ok(bound) => ScalarStep(isOpen, history, p, Command(query, bound))
  }

  /**
   * The identity flag's effect: rows affected is the engine's count either
   * way; without the flag one statement is sent and the identity stays 0;
   * with it the identity query follows on the same parameters and the
   * identity is its converted answer.
   */
  lemma NonQueryIdentity(returnIdentity: bool, isOpen: bool, history: seq<Execution>, p: Provider,
                         query: string, parameters: ParamArray)
    requires isOpen && BindParameters(query, parameters).Ok?
    ensures var o := NonQuerySpec(returnIdentity, isOpen, history, p, query, parameters);
      var cmd := Command(query, BindParameters(query, parameters).value);
      var h1 := history + [Execution(NonQueryKind, cmd)];
      var identCmd := Command(IdentityQuery, cmd.parameters);
      (o.result.Ok? ==> o.result.value.rowsAffected == p.nonQuery(history, cmd).value)
      && (!returnIdentity ==>
            o.history == h1
            && (o.result.Ok? <==> p.nonQuery(history, cmd).Ok?)
            && (o.result.Ok? ==> o.result.value.identity == 0))
      && (returnIdentity && o.result.Ok? ==>
            o.history == h1 + [Execution(ScalarKind, identCmd)]
            && p.toInt64(p.scalar(h1, identCmd).value) == Some(o.result.value.identity))
      && (returnIdentity && p.nonQuery(history, cmd).Ok? && p.scalar(h1, identCmd).Ok?
            && p.toInt64(p.scalar(h1, identCmd).value).Some? ==>
            o.result == Ok(NonQueryResult(p.nonQuery(history, cmd).value,
                                          p.toInt64(p.scalar(h1, identCmd).value).value)))
      && (returnIdentity && p.nonQuery(history, cmd).Ok? && p.scalar(h1, identCmd).Failure? ==>
            o.result == Failure(EngineError(p.scalar(h1, identCmd).error))
            && o.history == h1 + [Execution(ScalarKind, identCmd)])
      && (returnIdentity && p.nonQuery(history, cmd).Ok? && p.scalar(h1, identCmd).Ok?
            && p.toInt64(p.scalar(h1, identCmd).value).None? ==>
            o.result == Failure(IdentityConversion))
      && (p.nonQuery(history, cmd).Failure? ==>
            o.result == Failure(EngineError(p.nonQuery(history, cmd).error)) && o.history == h1)
  {
  }

  /** BuildAndExecuteSingle on a connection. */
  method BuildAndExecuteSingle(conn: Connection, p: Provider, query: string, parameters: ParamArray)
    returns (r: Result<Option<Record>, Error>)
    modifies conn`history
    ensures Outcome(r, conn.history) == SingleSpec(conn.isOpen, old(conn.history), p, query, parameters)
  {
    var cmd := BuildCommand(query, parameters);
    if cmd.Failure? {
      return Failure(cmd.error);
    }
    var rows := conn.ExecuteReader(p, cmd.value);
    if rows.Failure? {
      return Failure(rows.error);
    }
    var hasRows := rows.value != [];
    var built := BuildDynamicResult(hasRows, if hasRows then rows.value[0] else [], p.changeType);
    // a materialisation exception is swallowed and null returned
    r := if built.Ok? then Ok(built.value) else Ok(None);
    if hasRows {
      MaterialiseShape(rows.value[0], p.changeType);
    }
  }

  /** BuildAndExecuteMany on a connection, enumerated to the end. */
  method BuildAndExecuteMany(conn: Connection, p: Provider, query: string, parameters: ParamArray)
    returns (r: Result<seq<Record>, Error>)
    modifies conn`history
    ensures Outcome(r, conn.history) == ManySpec(conn.isOpen, old(conn.history), p, query, parameters)
  {
    var cmd := BuildCommand(query, parameters);
    if cmd.Failure? {
      return Failure(cmd.error);
    }
    var read := conn.ExecuteReader(p, cmd.value);
    if read.Failure? {
      return Failure(read.error);
    }
    r := DrainRows(read.value, p.changeType);
  }

  /** Enumerating the reader to the end: one record per row, stopping at the first row that throws. */
  method DrainRows(rows: seq<Row>, changeType: (Value, FieldType) -> Option<Value>) returns (r: Result<seq<Record>, Error>)
    ensures r == MaterialiseAll(rows, changeType)
  {
    var records: seq<Record> := [];
    var i := 0;
    while i < |rows|
      invariant 0 <= i <= |rows|
      invariant MaterialiseAll(rows[..i], changeType) == Ok(records)
    {
      assert rows[..i + 1][..i] == rows[..i] && rows[..i + 1][i] == rows[i];
      var built := BuildDynamicResult(true, rows[i], changeType);
      if built.Failure? {
        assert MaterialiseAll(rows[..i + 1], changeType) == Failure(built.error);
        MaterialiseAllPrefixFailure(rows, changeType, i + 1);
        return Failure(built.error);
      }
      records := records + [built.value.value];
      i := i + 1;
    }
    assert rows[..i] == rows;
    r := Ok(records);
  }

  /** Once a prefix of the rows fails to materialise, so does the whole drain, with the same exception. */
  lemma {:induction false} MaterialiseAllPrefixFailure(rows: seq<Row>, changeType: (Value, FieldType) -> Option<Value>, n: nat)
    requires n <= |rows| && MaterialiseAll(rows[..n], changeType).Failure?
    ensures MaterialiseAll(rows, changeType) == MaterialiseAll(rows[..n], changeType)
    decreases |rows| - n
  {
    if n < |rows| {
      assert rows[..n + 1][..n] == rows[..n];
      MaterialiseAllPrefixFailure(rows, changeType, n + 1);
    } else {
      assert rows[..n] == rows;
    }
  }

  /** BuildAndExecuteScalar on a connection. */
  method BuildAndExecuteScalar(conn: Connection, p: Provider, query: string, parameters: ParamArray)
    returns (r: Result<Value, Error>)
    modifies conn`history
    ensures Outcome(r, conn.history) == ScalarSpec(conn.isOpen, old(conn.history), p, query, parameters)
  {
    var cmd := BuildCommand(query, parameters);
    if cmd.Failure? {
      return Failure(cmd.error);
    }
    r := conn.ExecuteScalar(p, cmd.value);
  }

  function AsSingle(o: Outcome<Option<Record>>): Outcome<QueryResult>
  {
    Outcome(if o.result.Ok? then Ok(SingleRow(o.result.value)) else Failure(o.result.error), o.history)
  }

  function AsRows(o: Outcome<seq<Record>>): Outcome<QueryResult>
  {
    Outcome(if o.result.Ok? then Ok(Rows(o.result.value)) else Failure(o.result.error), o.history)
  }

  function AsAffected(o: Outcome<NonQueryResult>): Outcome<QueryResult>
  {
    Outcome(if o.result.Ok? then Ok(Affected(o.result.value)) else Failure(o.result.error), o.history)
  }

  function AsScalar(o: Outcome<Value>): Outcome<QueryResult>
  {
    Outcome(if o.result.Ok? then Ok(ScalarValue(o.result.value)) else Failure(o.result.error), o.history)
  }

  /**
   * One batch item: validated against the ids already holding results,
   * then dispatched on its kind. With `drain` unset a many-rows item is
   * stored unenumerated. Statements are only ever appended to the history.
   */
  function RunItem(item: MultipleQuery, taken: set<int>, drain: bool, returnIdentity: bool,
                   isOpen: bool, history: seq<Execution>, p: Provider): (o: Outcome<QueryResult>)
    ensures history <= o.history
    ensures Validate(item, taken).Some? ==> o == Outcome(Failure(Validate(item, taken).value), history)
    ensures Validate(item, taken).None? && item.queryType.value.Undefined? ==>
      o == Outcome(Failure(UnsupportedQueryType), history)
  {
    match Validate(item, taken)
    case Some(e) => Outcome(Failure(e), history)
    case None =>
      var q := item.query.value;
      match item.queryType.value
      case ExecuteSingle => AsSingle(SingleSpec(isOpen, history, p, q, item.parameters))
      case ExecuteMany =>
        if drain then AsRows(ManySpec(isOpen, history, p, q, item.parameters))
        else Outcome(Ok(DeferredRows(q, item.parameters)), history)
      case ExecuteNonQuery => AsAffected(NonQuerySpec(returnIdentity, isOpen, history, p, q, item.parameters))
      case ExecuteScalar => AsScalar(ScalarSpec(isOpen, history, p, q, item.parameters))
      case Undefined(_) => Outcome(Failure(UnsupportedQueryType), history)
  }

  /** The batch over `items`, item by item: the first item that fails ends it with that item's exception. */
  function BatchSpec(items: seq<MultipleQuery>, drain: bool, returnIdentity: bool,
                     isOpen: bool, history: seq<Execution>, p: Provider): (o: Outcome<map<int, QueryResult>>)
    ensures history <= o.history
  {
    if items == [] then Outcome(Ok(map[]), history)
    else
      var before := BatchSpec(items[..|items| - 1], drain, returnIdentity, isOpen, history, p);
      match before.result
      case Failure(e) => before
      case Ok(results) =>
        var item := items[|items| - 1];
        var o := RunItem(item, results.Keys, drain, returnIdentity, isOpen, before.history, p);
        match o.result
        case Failure(e) => Outcome(Failure(e), o.history)
        case Ok(v) => Outcome(Ok(results[item.id := v]), o.history)
  }

  /** One more item on top of a successful prefix: its outcome decides the batch's. */
  lemma BatchStep(items: seq<MultipleQuery>, drain: bool, returnIdentity: bool,
                  isOpen: bool, history: seq<Execution>, p: Provider, i: nat, results: map<int, QueryResult>, h: seq<Execution>)
    requires i < |items| && BatchSpec(items[..i], drain, returnIdentity, isOpen, history, p) == Outcome(Ok(results), h)
    ensures var o := RunItem(items[i], results.Keys, drain, returnIdentity, isOpen, h, p);
      BatchSpec(items[..i + 1], drain, returnIdentity, isOpen, history, p)
      == if o.result.Ok? then Outcome(Ok(results[items[i].id := o.result.value]), o.history)
         else Outcome(Failure(o.result.error), o.history)
  {
    assert items[..i + 1][..i] == items[..i] && items[..i + 1][i] == items[i];
  }

  /**
   * A successful batch has exactly one result per item, keyed by the item's
   * id: every item passed its checks, ids are non-zero and pairwise
   * distinct, and the keys are exactly the ids.
   */
  lemma {:induction false} BatchResultKeys(items: seq<MultipleQuery>, drain: bool, returnIdentity: bool,
                                           isOpen: bool, history: seq<Execution>, p: Provider)
    ensures var o := BatchSpec(items, drain, returnIdentity, isOpen, history, p);
      o.result.Ok? ==>
        var res := o.result.value;
        (forall k :: 0 <= k < |items| ==>
           items[k].id in res && items[k].id != 0 && HasQuery(items[k]) && items[k].queryType.Some?)
        && (forall id :: id in res ==> exists k :: 0 <= k < |items| && items[k].id == id)
        && (forall j, k :: 0 <= j < k < |items| ==> items[j].id != items[k].id)
  {
    if items != [] {
      var n := |items| - 1;
      var init := items[..n];
      BatchResultKeys(init, drain, returnIdentity, isOpen, history, p);
      assert forall k :: 0 <= k < n ==> init[k] == items[k];
      var before := BatchSpec(init, drain, returnIdentity, isOpen, history, p);
      if before.result.Ok? {
        var results := before.result.value;
        var item := items[n];
        var o := RunItem(item, results.Keys, drain, returnIdentity, isOpen, before.history, p);
        if o.result.Ok? {
          assert Validate(item, results.Keys) == None;
          ValidationOrder(item, results.Keys);
          var res := results[item.id := o.result.value];
          assert BatchSpec(items, drain, returnIdentity, isOpen, history, p).result == Ok(res);
          forall j, k | 0 <= j < k < |items| ensures items[j].id != items[k].id {
            if k == n {
              assert init[j].id in results;
            }
          }
          forall id | id in res ensures exists k :: 0 <= k < |items| && items[k].id == id {
            if id != item.id {
              var k :| 0 <= k < n && init[k].id == id;
              assert items[k].id == id;
            }
          }
        }
      }
    }
  }

  /**
   * Each result is linked to the id its item was passed in with: the value
   * under `items[k].id` is exactly what item k produced when it ran after
   * the items before it, which had all succeeded.
   */
  lemma {:induction false} BatchResultValues(items: seq<MultipleQuery>, drain: bool, returnIdentity: bool,
                                             isOpen: bool, history: seq<Execution>, p: Provider)
    ensures var o := BatchSpec(items, drain, returnIdentity, isOpen, history, p);
      o.result.Ok? ==>
        forall k :: 0 <= k < |items| ==>
          var before := BatchSpec(items[..k], drain, returnIdentity, isOpen, history, p);
          before.result.Ok?
          && var step := RunItem(items[k], before.result.value.Keys, drain, returnIdentity, isOpen, before.history, p);
          step.result.Ok? && items[k].id in o.result.value && o.result.value[items[k].id] == step.result.value
  {
    if items != [] {
      var n := |items| - 1;
      var init := items[..n];
      var before := BatchSpec(init, drain, returnIdentity, isOpen, history, p);
      if before.result.Ok? {
        var results := before.result.value;
        var item := items[n];
        var o := RunItem(item, results.Keys, drain, returnIdentity, isOpen, before.history, p);
        if o.result.Ok? {
          var res := results[item.id := o.result.value];
          assert BatchSpec(items, drain, returnIdentity, isOpen, history, p).result == Ok(res);
          BatchResultValues(init, drain, returnIdentity, isOpen, history, p);
          BatchResultKeys(items, drain, returnIdentity, isOpen, history, p);
          forall k | 0 <= k < |items|
            ensures var b := BatchSpec(items[..k], drain, returnIdentity, isOpen, history, p);
              b.result.Ok?
              && var step := RunItem(items[k], b.result.value.Keys, drain, returnIdentity, isOpen, b.history, p);
              step.result.Ok? && items[k].id in res && res[items[k].id] == step.result.value
          {
            if k < n {
              assert init[..k] == items[..k] && init[k] == items[k];
              assert items[k].id != item.id;
            } else {
              assert items[..k] == init;
            }
          }
        }
      }
    }
  }

  /**
   * The drained batch holds no unenumerated rows; the other one holds every
   * many-rows item unenumerated, with the text and parameters it was given.
   */
  lemma {:induction false} BatchRowsDrainedOrDeferred(items: seq<MultipleQuery>, drain: bool, returnIdentity: bool,
                                                      isOpen: bool, history: seq<Execution>, p: Provider)
    ensures var o := BatchSpec(items, drain, returnIdentity, isOpen, history, p);
      o.result.Ok? ==>
        var res := o.result.value;
        (drain ==> forall id :: id in res ==> !res[id].DeferredRows?)
        && (!drain ==> forall k :: 0 <= k < |items| && items[k].queryType == Some(ExecuteMany) ==>
              HasQuery(items[k]) && items[k].id in res && res[items[k].id] == DeferredRows(items[k].query.value, items[k].parameters))
  {
    if items != [] {
      var n := |items| - 1;
      var init := items[..n];
      BatchRowsDrainedOrDeferred(init, drain, returnIdentity, isOpen, history, p);
      BatchResultKeys(items, drain, returnIdentity, isOpen, history, p);
      assert forall k :: 0 <= k < n ==> init[k] == items[k];
      var before := BatchSpec(init, drain, returnIdentity, isOpen, history, p);
      if before.result.Ok? {
        var results := before.result.value;
        assert drain ==> forall id :: id in results ==> !results[id].DeferredRows?;
        var item := items[n];
        var o := RunItem(item, results.Keys, drain, returnIdentity, isOpen, before.history, p);
        if o.result.Ok? {
          var res := results[item.id := o.result.value];
          assert BatchSpec(items, drain, returnIdentity, isOpen, history, p).result == Ok(res);
          if drain {
            assert !o.result.value.DeferredRows?;
            forall id | id in res ensures !res[id].DeferredRows? {
              if id != item.id {
                assert id in results && res[id] == results[id];
                assert !results[id].DeferredRows?;
              } else {
                assert res[id] == o.result.value;
              }
            }
          }
        }
      }
    }
  }

  /**
   * Items run in order and later items never undo earlier ones: the history
   * after any prefix of the batch is a prefix of the final history, and a
   * prefix that fails is the whole batch's outcome (nothing after it is
   * checked or run).
   */
  lemma {:induction false} BatchPrefix(items: seq<MultipleQuery>, drain: bool, returnIdentity: bool,
                                       isOpen: bool, history: seq<Execution>, p: Provider, i: nat)
    requires i <= |items|
    ensures BatchSpec(items[..i], drain, returnIdentity, isOpen, history, p).history
         <= BatchSpec(items, drain, returnIdentity, isOpen, history, p).history
    ensures BatchSpec(items[..i], drain, returnIdentity, isOpen, history, p).result.Failure? ==>
      BatchSpec(items, drain, returnIdentity, isOpen, history, p) == BatchSpec(items[..i], drain, returnIdentity, isOpen, history, p)
    decreases |items| - i
  {
    if i == |items| {
      assert items[..i] == items;
    } else {
      BatchPrefix(items, drain, returnIdentity, isOpen, history, p, i + 1);
      assert items[..i + 1][..i] == items[..i];
    }
  }

  /** Items before i succeeded, item i failed against the ids they claimed, and that failure is the batch's outcome. */
  predicate ItemFailedAfter(items: seq<MultipleQuery>, drain: bool, returnIdentity: bool,
                            isOpen: bool, history: seq<Execution>, p: Provider, i: nat)
    requires i < |items|
  {
    var before := BatchSpec(items[..i], drain, returnIdentity, isOpen, history, p);
    before.result.Ok?
    && var o := RunItem(items[i], before.result.value.Keys, drain, returnIdentity, isOpen, before.history, p);
       o.result.Failure?
       && BatchSpec(items, drain, returnIdentity, isOpen, history, p) == Outcome(Failure(o.result.error), o.history)
       && before.history <= o.history
  }

  /**
   * A failed batch failed at some item i: items before i all succeeded and
   * their statements stay in the history, and the exception is item i's
   * own, raised against the ids those earlier items claimed.
   */
  lemma {:induction false} BatchFailureLocated(items: seq<MultipleQuery>, drain: bool, returnIdentity: bool,
                                               isOpen: bool, history: seq<Execution>, p: Provider)
    requires BatchSpec(items, drain, returnIdentity, isOpen, history, p).result.Failure?
    ensures exists i :: 0 <= i < |items| && ItemFailedAfter(items, drain, returnIdentity, isOpen, history, p, i)
  {
    var n := |items| - 1;
    var init := items[..n];
    var before := BatchSpec(init, drain, returnIdentity, isOpen, history, p);
    if before.result.Failure? {
      BatchFailureLocated(init, drain, returnIdentity, isOpen, history, p);
      var i :| 0 <= i < |init| && ItemFailedAfter(init, drain, returnIdentity, isOpen, history, p, i);
      assert init[..i] == items[..i] && init[i] == items[i];
      assert ItemFailedAfter(items, drain, returnIdentity, isOpen, history, p, i);
    } else {
      assert items[..n] == init;
      assert ItemFailedAfter(items, drain, returnIdentity, isOpen, history, p, n);
    }
  }

  /** The database context; its only mutable state is the identity flag, which nothing clears. */
  class DatabaseContext {
    const connectionString: string
    const password: Option<string>
    var returnIdentity: bool

    constructor (connectionString: string, password: Option<string>)
      ensures this.connectionString == connectionString && this.password == password
      ensures !returnIdentity
    {
      this.connectionString := connectionString;
      this.password := password;
      returnIdentity := false;
    }

    /** ReturnIdentity: sets the flag and returns the same context for chaining. */
    method ReturnIdentity() returns (self: DatabaseContext)
      modifies this`returnIdentity
      ensures returnIdentity && self == this
    {
      returnIdentity := true;
      self := this;
    }

    /** BuildAndExecuteNonQuery on a connection, reading the flag at call time. */
    method BuildAndExecuteNonQuery(conn: Connection, p: Provider, query: string, parameters: ParamArray)
      returns (r: Result<NonQueryResult, Error>)
      modifies conn`history
      ensures Outcome(r, conn.history) == NonQuerySpec(returnIdentity, conn.isOpen, old(conn.history), p, query, parameters)
    {
      var cmd := BuildCommand(query, parameters);
      if cmd.Failure? {
        return Failure(cmd.error);
      }
      var n := conn.ExecuteNonQuery(p, cmd.value);
      if n.Failure? {
        return Failure(n.error);
      }
      if !returnIdentity {
        return Ok(NonQueryResult(n.value, 0));
      }
      // the same command, text replaced, parameters kept
      var v := conn.ExecuteScalar(p, Command(IdentityQuery, cmd.value.parameters));
      if v.Failure? {
        return Failure(v.error);
      }
      r := match p.toInt64(v.value)
        case None => Failure(IdentityConversion)
        case Some(id) => Ok(NonQueryResult(n.value, id));
    }

    /** One batch item on a connection: the checks, then the runner its kind selects. */
    method RunItemOn(conn: Connection, p: Provider, item: MultipleQuery, taken: set<int>, drain: bool)
      returns (r: Result<QueryResult, Error>)
      modifies conn`history
      ensures Outcome(r, conn.history) == RunItem(item, taken, drain, returnIdentity, conn.isOpen, old(conn.history), p)
    {
      var invalid := Validate(item, taken);
      if invalid.Some? {
        return Failure(invalid.value);
      }
      var q := item.query.value;
      match item.queryType.value {
        case ExecuteSingle =>
          var s := BuildAndExecuteSingle(conn, p, q, item.parameters);
          r := if s.Ok? then Ok(SingleRow(s.value)) else Failure(s.error);
        case ExecuteMany =>
          if drain {
            var m := BuildAndExecuteMany(conn, p, q, item.parameters);
            r := if m.Ok? then Ok(Rows(m.value)) else Failure(m.error);
          } else {
            // left unenumerated: nothing is bound or sent
            r := Ok(DeferredRows(q, item.parameters));
          }
        case ExecuteNonQuery =>
          var n := BuildAndExecuteNonQuery(conn, p, q, item.parameters);
          r := if n.Ok? then Ok(Affected(n.value)) else Failure(n.error);
        case ExecuteScalar =>
          var s := BuildAndExecuteScalar(conn, p, q, item.parameters);
          r := if s.Ok? then Ok(ScalarValue(s.value)) else Failure(s.error);
        case Undefined(_) =>
          r := Failure(UnsupportedQueryType);
      }
    }

    /** The loop shared by both batch entry points, on a connection the gate has already seen to. */
    method RunBatch(conn: Connection, p: Provider, items: seq<MultipleQuery>, drain: bool)
      returns (r: Result<map<int, QueryResult>, Error>)
      modifies conn`history
      ensures Outcome(r, conn.history) == BatchSpec(items, drain, returnIdentity, conn.isOpen, old(conn.history), p)
    {
      var results: map<int, QueryResult> := map[];
      var i := 0;
      while i < |items|
        invariant 0 <= i <= |items|
        invariant BatchSpec(items[..i], drain, returnIdentity, conn.isOpen, old(conn.history), p)
               == Outcome(Ok(results), conn.history)
      {
        var item := items[i];
        BatchStep(items, drain, returnIdentity, conn.isOpen, old(conn.history), p, i, results, conn.history);
        var v := RunItemOn(conn, p, item, results.Keys, drain);
        if v.Failure? {
          BatchPrefix(items, drain, returnIdentity, conn.isOpen, old(conn.history), p, i + 1);
          return Failure(v.error);
        }
        results := results[item.id := v.value];
        i := i + 1;
      }
      assert items[..i] == items;
      r := Ok(results);
    }

    /**
     * ExecuteMultipleQueries: a new connection to the context's database,
     * the gate, then every item with many-rows results enumerated in full.
     * The connection is returned so its statement history can be inspected.
     */
    method ExecuteMultipleQueries(p: Provider, items: seq<MultipleQuery>, maxAttempts: int, opens: nat -> bool)
      returns (r: Result<map<int, QueryResult>, Error>, conn: Connection)
      ensures fresh(conn) && conn.dataSource == connectionString
      ensures var plan := OpenPlan(false, maxAttempts, opens, connectionString);
        (plan.failure.Some? ==> r == Failure(plan.failure.value) && conn.history == [])
        && (plan.failure.None? ==> Outcome(r, conn.history) == BatchSpec(items, true, returnIdentity, plan.nowOpen, [], p))
    {
      conn := new Connection(connectionString);
      var failure, _ := TryOpenConnection(conn, maxAttempts, opens);
      if failure.Some? {
        return Failure(failure.value), conn;
      }
      r := RunBatch(conn, p, items, true);
    }

    /** ExecuteMultipleQueriesWithConnection: the caller's connection, many-rows results left unenumerated. */
    method ExecuteMultipleQueriesWithConnection(p: Provider, items: seq<MultipleQuery>, conn: Connection,
                                                maxAttempts: int, opens: nat -> bool)
      returns (r: Result<map<int, QueryResult>, Error>)
      modifies conn
      ensures old(conn.history) <= conn.history
      ensures var plan := OpenPlan(old(conn.isOpen), maxAttempts, opens, conn.dataSource);
        conn.isOpen == plan.nowOpen
        && (plan.failure.Some? ==> r == Failure(plan.failure.value) && conn.history == old(conn.history))
        && (plan.failure.None? ==> Outcome(r, conn.history) == BatchSpec(items, false, returnIdentity, plan.nowOpen, old(conn.history), p))
    {
      var failure, _ := TryOpenConnection(conn, maxAttempts, opens);
      if failure.Some? {
        return Failure(failure.value);
      }
      r := RunBatch(conn, p, items, false);
    }
  }
}
