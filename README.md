# JetToObjects in Dafny

This project models the decision logic of JetToObjects, a small .NET data-access library for Jet/Access databases over OleDb. It also proves properties of that model. It covers six parts:

- **Parameter binder** (`BuildCommand`). The library builds the alternation pattern `(n1\b|n2\b|...|nk)` from the declared parameter names. The regex engine scans the query text left to right and commits at each position to the first alternative, in declaration order. The binder then binds one parameter per match, in text order, through a `SingleOrDefault` lookup.
- **Connection gate** (`TryOpenConnection`). An open connection is left alone. Otherwise attempts 1 to `MaxConnectionAttempts` are made, with a pause of `attempt * 1000` ms after each failed attempt except the last. Failing the last attempt throws with the attempt count.
- **Statement runners** (`BuildAndExecuteSingle`, `Many`, `NonQuery`, `Scalar`). Each one binds, sends one statement on the connection, and materialises the rows that come back. A non-query sends a second statement (`select @@identity`) when the context's identity flag is set.
- **Row materialiser** (`BuildDynamicResult`, `GetDefaultValue`). It builds one record entry per column, in column order. A value whose conversion fails is replaced by the type's default. A reader with no rows gives null.
- **Multiple-query batch** (`ExecuteMultipleQueries`, `ExecuteMultipleQueriesWithConnection`). Each item is checked and then run, one item at a time. Results are keyed by the item's id.
- **Mapper** (`ObjectMapping`, `Mapper.Map`, `Mapper.MapMany`, `FindProperty`). A record is projected onto a destination's properties. Exclusions are applied first, then renames, then the key's own name, with property names matched ignoring case.

The database is represented by the history of statements sent on a connection, held in `Connection.history`. The engine's answers are oracle functions of that history and the command, carried in `Data.Provider`. Value conversion (`Convert.ChangeType`), conversion to a 64-bit identity (`Convert.ToInt64`) and the property setter (`SetValue`) are oracles as well. The connection's open attempts are a parameter `opens: nat -> bool`.

The code decides where it differs from its documentation:

- Ids are documented as having to be positive, but only an id of 0 is refused. `BatchExamples.NegativeIdAccepted` shows that a negative id is accepted.
- The batch checks each item just before running it, not all items up front. When a later item is rejected, the statements of the earlier items have already been sent (`BatchExamples.InvalidItemAfterValidOne`).
- `ExecuteMultipleQueries` enumerates many-rows results in full (`ToList`). The `WithConnection` variant stores the unenumerated sequence, so its statement is neither bound nor sent (`Database.QueryResult.DeferredRows`).
- A query without `@` is not checked for parameters at all. A null element in its parameter array passes the batch checks, then fails when the pattern is built from the parameter names (`BatchExamples.DrainedAndDeferredPartWays`).

Files:

- `common.dfy`: Option, Result and ASCII text helpers.
- `data.dfy`: the values, parameters, rows, records, commands, oracles and exceptions.
- `parameter_binder.dfy` and `binder_examples.dfy`: the binder.
- `row_materialiser.dfy`: the row materialiser.
- `connection_gate.dfy`: the connection and its gate.
- `batch.dfy`: batch items and their checks.
- `database_context.dfy`: the context, its runners and the batch.
- `batch_examples.dfy`: worked batches.
- `mapping.dfy` and `mapping_examples.dfy`: the mapper and the test suite's mapping.

## Model

| member | source | states |
|---|---|---|
| ParameterBinder.FirstAlt | src/JetToObjects/Database/DatabaseContext.cs:388-389 | At a position, the alternative the engine commits to is the first in declaration order that matches there, and no earlier one matches. None means no alternative matches. |
| ParameterBinder.Scan | src/JetToObjects/Database/DatabaseContext.cs:389 | Each position is tried at most once, so there are at most as many matches as positions from the start. The first match lies at or after the start, at a position where some alternative matches. |
| ParameterBinder.ScanSound | src/JetToObjects/Database/DatabaseContext.cs:389-391 | The matches are in increasing position order, do not overlap, and each is the alternative committed to at its position. |
| ParameterBinder.MatchesAreDeclaredOccurrences | src/JetToObjects/Database/DatabaseContext.cs:388-391 | Every match is a declared name that occurs in the text where it was found. It is followed by a word boundary unless it is the last declared name. |
| ParameterBinder.ScanComplete | src/JetToObjects/Database/DatabaseContext.cs:389-391 | No position where some alternative matches is skipped: each such position lies inside some match. |
| ParameterBinder.Lookup | src/JetToObjects/Database/DatabaseContext.cs:393-396 | `SingleOrDefault` by exact name. The result is nothing iff no parameter has the name, otherwise the parameter with that name. The lookup throws iff two or more parameters have the name. |
| ParameterBinder.BindMatches | src/JetToObjects/Database/DatabaseContext.cs:391-404 | A successful binding has at most one parameter per match, each taken from the declared parameters. A failed binding is always an ambiguous-name exception. |
| ParameterBinder.BindParameters | src/JetToObjects/Database/DatabaseContext.cs:386-405 | Building the parameters throws only on a null element or an ambiguous name. Every bound parameter is an element of the caller's array. |
| ParameterBinder.BindFailsIffAmbiguous | src/JetToObjects/Database/DatabaseContext.cs:391-396 | Binding the matches fails iff the name of some match is declared more than once. |
| ParameterBinder.BindOnePerMatch | src/JetToObjects/Database/DatabaseContext.cs:391-404 | When every match names a declared parameter, a successful binding has exactly one parameter per match, in match order, carrying the match's name. |
| ParameterBinder.BindInTextOrder | src/JetToObjects/Database/DatabaseContext.cs:386-405 | The k-th bound parameter is the one named by the k-th match in the text, and its name occurs at that match's position. Binding fails iff a matched name is declared twice. |
| ParameterBinder.AbsentNameNotBound | src/JetToObjects/Database/DatabaseContext.cs:388-405 | A declared name that occurs nowhere in the text is never bound. |
| ParameterBinder.NullOrEmptyBindsNothing | src/JetToObjects/Database/DatabaseContext.cs:386-388 | A null or empty parameter array binds nothing. A null element makes building the pattern throw. |
| ParameterBinder.BuildCommand | src/JetToObjects/Database/DatabaseContext.cs:382-409 | The command keeps the query text and appends the bound parameters one per match, or fails with the binding's exception. This is tied to `BindParameters` in both directions. |
| BinderExamples.SimilarNamesNotCrossBound | src/JetToObjects.Tests/Database/ExecuteNonQueryTests.cs:86-107 | `@Category`, when it is not the last name, does not match inside `@CategoryID`. Each token gets its own name. |
| BinderExamples.LastNameMatchesPrefix | src/JetToObjects/Database/DatabaseContext.cs:388 | The last declared name has no `\b`, so it matches the front of a longer token. |
| BinderExamples.FirstAlternativeWins | src/JetToObjects/Database/DatabaseContext.cs:388-389 | The first matching alternative is taken, not the longest. |
| BinderExamples.ScanFollowsText | src/JetToObjects/Database/DatabaseContext.cs:389 | With `@b` declared before `@a`, scanning `@a,@b` still finds `@a` first. |
| BinderExamples.BoundInTextOrderNotDeclarationOrder | src/JetToObjects.Tests/Database/ExecuteNonQueryTests.cs:42-60 | Parameters declared out of order are bound in the order their names occur in the text. |
| BinderExamples.RepeatedNameBoundTwice | src/JetToObjects/Database/DatabaseContext.cs:391-404 | A name that occurs twice in the text is bound twice. |
| BinderExamples.DuplicateNameThrows | src/JetToObjects/Database/DatabaseContext.cs:393 | Two parameters with the same matched name make the lookup throw. |
| RowMaterialiser.DefaultValue | src/JetToObjects/Database/DatabaseContext.cs:439-442 | The default is null iff the type is a reference type. Integral types give 0, Boolean gives false, and other value types give their zero. |
| RowMaterialiser.Materialise | src/JetToObjects/Database/DatabaseContext.cs:418-436 | A record has one entry per column, keyed by the column's name, in column order. The only exception is a repeated column name. |
| RowMaterialiser.MaterialiseShape | src/JetToObjects/Database/DatabaseContext.cs:418-436 | A row materialises iff its column names are distinct. The record then has one entry per column, in column order, holding the converted value or the type default. Otherwise the exception names a repeated column. |
| RowMaterialiser.BuildDynamicResult | src/JetToObjects/Database/DatabaseContext.cs:411-437 | No rows gives null. Otherwise the result is the record that `Materialise` defines for the current row, or its exception. |
| RowMaterialiser.MaterialiseAll | src/JetToObjects/Database/DatabaseContext.cs:322-325 | Draining the reader gives one record per row. The only exception is a repeated column name. |
| RowMaterialiser.MaterialiseAllShape | src/JetToObjects/Database/DatabaseContext.cs:322-325 | Draining succeeds iff every row materialises, and record k is row k's record. |
| RowMaterialiser.FirstRecord | src/JetToObjects/Database/DatabaseContext.cs:297-308 | A non-null record comes from a non-empty result set and has one entry per column of the first row. |
| RowMaterialiser.FirstRecordIsNullExactly | src/JetToObjects/Database/DatabaseContext.cs:297-308 | The single-row read gives null exactly when there are no rows or the first row's names repeat, because that exception is swallowed. Otherwise it gives the first row's record, column by column. |
| ConnectionGate.Connection.ExecuteReader | src/JetToObjects/Database/DatabaseContext.cs:295 | A closed connection refuses the statement and its history is unchanged. Otherwise the statement is appended to the history and the answer is the engine's answer to the prior history. |
| ConnectionGate.Connection.ExecuteNonQuery | src/JetToObjects/Database/DatabaseContext.cs:334 | As for `ExecuteReader`, for the count of affected rows. |
| ConnectionGate.Connection.ExecuteScalar | src/JetToObjects/Database/DatabaseContext.cs:349 | As for `ExecuteReader`, for the scalar answer. |
| ConnectionGate.TryOpenConnection | src/JetToObjects/Database/DatabaseContext.cs:358-380 | The final open state, the exception and the pauses taken are those of `OpenPlan` for the connection's state on entry. |
| ConnectionGate.Backoff | src/JetToObjects/Database/DatabaseContext.cs:377 | n failed attempts pause 1000, 2000, ..., n * 1000 ms. |
| ConnectionGate.AttemptFrom | src/JetToObjects/Database/DatabaseContext.cs:363-379 | An opened connection throws nothing. An exception comes only from an attempt within the limit and reports `max` attempts and the data source. The connection stays closed without an exception only when no attempt is left, and then nothing pauses. |
| ConnectionGate.OpenPlan | src/JetToObjects/Database/DatabaseContext.cs:358-380 | The gate throws only on a connection that was closed and stays closed, with a limit of at least 1. The exception reports the limit and the data source. The connection stays closed without an exception only when the limit is below 1. |
| ConnectionGate.AttemptFromOutcome | src/JetToObjects/Database/DatabaseContext.cs:363-379 | From attempt a, the connection opens iff some attempt up to max succeeds, and then it has paused once per earlier failure. It throws iff every attempt fails, reporting max attempts after max - a pauses. |
| ConnectionGate.OpenPlanFromClosed | src/JetToObjects/Database/DatabaseContext.cs:358-380 | On a closed connection, it opens iff some attempt in 1..max succeeds, after `Backoff(k - 1)` pauses for the first success k. It throws `ConnectionFailed(max)` iff max >= 1 and all attempts fail, after `Backoff(max - 1)`. With max <= 0 nothing is attempted and nothing is thrown. |
| ConnectionGate.OpenConnectionUntouched | src/JetToObjects/Database/DatabaseContext.cs:360-361 | An open connection is left open with no attempt, no pause and no exception. |
| ConnectionGate.BackoffTotal | src/JetToObjects/Database/DatabaseContext.cs:377 | n consecutive failed attempts pause 500 * n * (n + 1) ms in total. |
| ConnectionGate.DefaultLimitGivesUpAfterTenSeconds | src/JetToObjects/Database/Db.cs:29 | With the default limit of 5, a database that never opens throws after 5 attempts and 10 seconds of pauses. |
| Batch.Validate | src/JetToObjects/Database/DatabaseContext.cs:153-172 | An accepted item has a non-empty query, a non-zero id, a query type and an id not yet used. A refused item gets a missing-field exception, or the duplicate-key exception for its own id. |
| Batch.ValidationOrder | src/JetToObjects/Database/DatabaseContext.cs:153-172 | Each exception is raised exactly when every earlier check passed and its own check fails. The checks, in order: query, id, parameters, non-null parameters, query type, duplicate id. An item is accepted iff every check passes. |
| Batch.NoPlaceholderNeedsNoParameters | src/JetToObjects/Database/DatabaseContext.cs:158-165 | A query without `@` is accepted whatever its parameter array holds. |
| BatchExamples.InvalidItemAfterValidOne | src/JetToObjects/Database/DatabaseContext.cs:151-191 | When item 2 has no query, the batch throws, but item 1's statement has already been sent. |
| BatchExamples.UnknownQueryTypeAfterValidOne | src/JetToObjects/Database/DatabaseContext.cs:174-196 | An item of unknown kind after a valid one throws the unsupported-type exception, with the first item's statement already sent and nothing sent for the second. |
| BatchExamples.RepeatedIdRefused | src/JetToObjects/Database/DatabaseContext.cs:169-172 | A second item with an id already used is refused after the first has run. |
| BatchExamples.NegativeIdAccepted | src/JetToObjects/Database/DatabaseContext.cs:155-157 | Only id 0 is refused; id -3 passes the checks. |
| BatchExamples.DrainedAndDeferredPartWays | src/JetToObjects/Database/DatabaseContext.cs:180-182 | On a many-rows item with a null parameter and no `@`, the drained batch throws, while the lazy batch stores the unenumerated rows. In both, nothing is sent. |
| Database.SingleSpec | src/JetToObjects/Database/DatabaseContext.cs:291-311 | At most one statement is sent, and the history only grows. |
| Database.ManySpec | src/JetToObjects/Database/DatabaseContext.cs:313-328 | At most one statement is sent, and the history only grows. |
| Database.NonQuerySpec | src/JetToObjects/Database/DatabaseContext.cs:330-343 | At most two statements are sent, and the history only grows. |
| Database.ScalarSpec | src/JetToObjects/Database/DatabaseContext.cs:345-351 | At most one statement is sent, and the history only grows. |
| Database.NonQueryIdentity | src/JetToObjects/Database/DatabaseContext.cs:334-339 | The rows affected are the engine's count, and a failed non-query throws the engine's error after one statement. Without the flag, one statement is sent and the identity stays 0. With the flag, the identity query follows on the same parameters. When the non-query, the identity query and the conversion all succeed, the result is the count with the converted identity. A failed identity query throws the engine's error, and a failed conversion throws. |
| Database.BuildAndExecuteSingle | src/JetToObjects/Database/DatabaseContext.cs:291-311 | The result and the new history are `SingleSpec` of the old history. |
| Database.BuildAndExecuteMany | src/JetToObjects/Database/DatabaseContext.cs:313-328 | The result and the new history are `ManySpec` of the old history. |
| Database.DrainRows | src/JetToObjects/Database/DatabaseContext.cs:322-325 | Enumerating the reader gives `MaterialiseAll` of the rows: one record per row, stopping at the first row that throws. |
| Database.BuildAndExecuteScalar | src/JetToObjects/Database/DatabaseContext.cs:345-351 | The result and the new history are `ScalarSpec` of the old history. |
| Database.RunItem | src/JetToObjects/Database/DatabaseContext.cs:151-196 | An item that fails a check sends nothing and throws that check's exception. An accepted item whose query type is none of the four kinds sends nothing and throws the unsupported-type exception. Otherwise statements are only appended. |
| Database.BatchSpec | src/JetToObjects/Database/DatabaseContext.cs:151-199 | The batch only appends to the connection's history. |
| Database.BatchResultKeys | src/JetToObjects/Database/DatabaseContext.cs:169-191 | A successful batch has one key per item: every item's id is a key, every key is some item's id, ids are non-zero and pairwise distinct, and every item had a query and a query type. |
| Database.BatchResultValues | src/JetToObjects/Database/DatabaseContext.cs:141-191 | Each result is linked to the id its item was passed in with. The value under item k's id is what item k produced when it ran after items 0 to k-1, all of which succeeded. |
| Database.BatchRowsDrainedOrDeferred | src/JetToObjects/Database/DatabaseContext.cs:180-182 | In the drained variant no result is left unenumerated. |
| Database.BatchPrefix | src/JetToObjects/Database/DatabaseContext.cs:151-197 | The statements of any prefix of the batch stay at the front of the history. A failing prefix is the whole batch's outcome, so nothing after it is checked or run. |
| Database.BatchFailureLocated | src/JetToObjects/Database/DatabaseContext.cs:151-197 | A failed batch failed at some item i. The items before i all succeeded, and the exception is item i's own, raised against the ids they claimed. |
| Database.DatabaseContext.constructor | src/JetToObjects/Database/DatabaseContext.cs:23-27 | A new context keeps its connection string and password, with the identity flag unset. |
| Database.DatabaseContext.ReturnIdentity | src/JetToObjects/Database/DatabaseContext.cs:34-38 | Sets the flag and returns the same context. |
| Database.DatabaseContext.BuildAndExecuteNonQuery | src/JetToObjects/Database/DatabaseContext.cs:330-343 | The result and the new history are `NonQuerySpec` under the flag as it is at call time. |
| Database.DatabaseContext.RunItemOn | src/JetToObjects/Database/DatabaseContext.cs:151-196 | Checking and dispatching one item on the connection is `RunItem`. |
| Database.DatabaseContext.RunBatch | src/JetToObjects/Database/DatabaseContext.cs:151-199 | The loop over the items yields `BatchSpec`'s result and history. |
| Database.DatabaseContext.ExecuteMultipleQueries | src/JetToObjects/Database/DatabaseContext.cs:144-200 | It uses a fresh connection. If the gate throws, nothing is sent. Otherwise the outcome is the drained `BatchSpec` from an empty history. |
| Database.DatabaseContext.ExecuteMultipleQueriesWithConnection | src/JetToObjects/Database/DatabaseContext.cs:202-252 | It uses the caller's connection, opened by the gate. If the gate throws, nothing is sent. Otherwise the outcome is the lazy `BatchSpec` on top of the connection's history, which only grows. |
| Mapping.ObjectMapping.constructor | src/JetToObjects/Mapping/ObjectMapping.cs:7-8 | A new mapping has no renames and no exclusions. |
| Mapping.ObjectMapping.Map | src/JetToObjects/Mapping/ObjectMapping.cs:10-13 | A new source name is registered, after which `Get(from)` is `to`. An already registered name throws and leaves the renames unchanged. Other renames and all exclusions are untouched. |
| Mapping.ObjectMapping.Exclude | src/JetToObjects/Mapping/ObjectMapping.cs:21-24 | The field is appended to the exclusions and is then excluded, even if it was excluded before. Other fields and every rename are untouched. |
| Mapping.SingleMatch | src/JetToObjects/Mapping/Mapper.cs:45-46 | The result is nothing iff no property matches ignoring case, otherwise a matching property. It throws iff several properties match. |
| Mapping.FindProperty | src/JetToObjects/Mapping/Mapper.cs:39-47 | A resolved property is one of the destination's properties, and an excluded key never resolves to one. The only exception is an ambiguous property name. |
| Mapping.FindPropertyResolution | src/JetToObjects/Mapping/Mapper.cs:39-47 | An excluded key resolves to nothing, even with a rename. A rename that names a property decides the result. Otherwise the key's own name decides. The key resolves to nothing iff it is excluded or neither name matches. It throws iff the deciding name matches several properties. |
| Mapping.MapSpec | src/JetToObjects/Mapping/Mapper.cs:17-23 | A successful projection keeps every initial property of the destination. |
| Mapping.MapDomain | src/JetToObjects/Mapping/Mapper.cs:17-23 | A successful projection sets only the initial properties and those some entry resolves to. |
| Mapping.MapUntouched | src/JetToObjects/Mapping/Mapper.cs:17-23 | A property that no entry resolves to, for example one whose key is excluded, keeps its initial value. |
| Mapping.MapLastWriterWins | src/JetToObjects/Mapping/Mapper.cs:17-23 | A property holds the value of the last entry that resolves to it. |
| Mapping.MapFailsIffSomeEntryThrows | src/JetToObjects/Mapping/Mapper.cs:17-23 | The projection fails iff resolving some entry throws, or the property rejects the entry's value. |
| Mapping.Map | src/JetToObjects/Mapping/Mapper.cs:10-26 | The foreach over the record computes `MapSpec`, whose meaning the four lemmas above state. |
| Mapping.MapManyShape | src/JetToObjects/Mapping/Mapper.cs:28-37 | MapMany succeeds iff every record maps. Its list then has one element per record, in order, each the projection of its record. |
| Mapping.MapManySpec | src/JetToObjects/Mapping/Mapper.cs:28-37 | A successful MapMany has one destination per record. |
| Mapping.MapMany | src/JetToObjects/Mapping/Mapper.cs:28-37 | The loop appending one projection per record computes `MapManySpec`. |
| MappingExamples.NewFakeMapping | src/JetToObjects.Tests/Mapping/Data/FakeMapping.cs:5-11 | The test mapping's constructor throws nothing and leaves three renames and one exclusion. |
| MappingExamples.MappingNamesAreCaseSensitive | src/JetToObjects/Mapping/ObjectMapping.cs:15-19 | `Get` and `IsExcluded` compare names exactly, unlike property matching. |
| MappingExamples.FakeResolutions | src/JetToObjects/Mapping/Mapper.cs:42-46 | On the test mapping, the renamed keys resolve to their targets, the excluded key to nothing, and `Implicit` to itself. |
| MappingExamples.FakeProjection | src/JetToObjects.Tests/Mapping/MappingTests.cs:12-29 | Projecting the test record gives ID 42, SomeProperty "Test" and ThisIsATest true. ExcludedIsAdmin keeps false, and Implicit is "Implicit". |

## Left out

- `CompactRepair` is left out: it is COM interop and file replacement, pure I/O.
- The connection-string helper is left out, and so is building a connection from the context's settings. A fresh connection has the context's connection string as its data source.
- Engine execution is left out. Reading, executing, the scalar answer and the identity query are oracles of the statement history. Properties of the engine, such as identities growing from one insert to the next, are not stated.
- ConnectionGate.AttemptFrom: the last attempt's exception is not carried. The source wraps it as the inner exception of the final exception, under the data source (DatabaseContext.cs:374). The model's `opens` oracle says only whether an attempt succeeds, so `ConnectionFailed` holds the attempt count and the data source but not the cause.
- Sleeping is left out: pauses are recorded as a sequence of milliseconds, and none is taken.
- The public single-statement wrappers (`ExecuteSingle`, `ExecuteMany`, `ExecuteNonQuery`, `ExecuteScalar` and their `WithConnection` forms) are not modelled separately. Each one is the gate followed by the runner; the batch methods show that composition.
- Connection disposal (`using`) is not modelled, nor is the laziness of the standalone `ExecuteMany`. Results are finite sequences, and an unenumerated result is the value `DeferredRows`.
- Regular-expression semantics beyond the literal alternation with `\b` are not modelled. Names are taken literally, with no metacharacters, and `\w` is ASCII only.
- Case-insensitive matching is ASCII only. Culture-sensitive case folding is not modelled.
- `Convert.ChangeType`, `Convert.ToInt64` and `SetValue` are oracles. Their .NET conversion rules, floating point among them, are not modelled.
- `Db.MaxConnectionAttempts` is a mutable static in the library. Here it is a parameter of the gate, with the default of 5 as a constant.
- `dynamic`, `ExpandoObject` and reflection are not modelled. A record is an ordered list of key/value entries, and a destination is its property names plus a value map.
- Database.NonQuerySpec: the identity is an unbounded integer. The 64-bit range is left to the `toInt64` oracle.
- Mapping.Map: a null source, or one that is not a dictionary, throws a null-reference exception in the source (Mapper.cs:17 and 33). `ExecuteSingle`'s null result is the usual such input. The model's record is a value and is never null, so this path is not modelled.
- Mapping.Map: the source builds a fresh mapping with `Activator.CreateInstance<TMapping>()` on every call (Mapper.cs:14), so a mapping constructor that throws makes `Map` throw. The model takes a mapping that is already built. `MappingExamples.NewFakeMapping` builds the test mapping and shows that its constructor does not throw.
- Database.BatchSpec: a null `queries` enumerable or a null item throws a null-reference exception in the source (DatabaseContext.cs:151-153). Model items are values and are never null.
- Database.BatchSpec: the result dictionary's insertion order is not kept. `map<int, QueryResult>` keeps the id-to-result link but not the order of the ids.
- The mapper's destination is created and filled by the caller. Creating destinations with `Activator.CreateInstance` is left out, so `Mapping.Map` takes the destination's initial values as a parameter.
