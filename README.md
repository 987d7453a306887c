# SQLite user-defined function bridge — a Dafny model

This project models `SqliteFunction` from Mono.Data.Sqlite. That class lets
host code register user-defined scalar functions, aggregates and collating
sequences with SQLite, and dispatches SQLite's native callbacks back into the
overridden `Invoke`, `Step`, `Final` and `Compare` members. The model covers:

- **Values** (`values.dfy`): host objects (`HostValue`: null, `DBNull.Value`,
  long, double, string, byte array, DateTime, an Exception, any other object,
  possibly disposable), the engine's `TypeAffinity`, the faults a callback
  can raise, and the 32-bit step counter with C#'s unchecked wrap-around.
- **Native surface** (`native.dfy`): the connection object `_base`
  (`SQLiteBase`). Its readers and its date conversions are foreign code, so
  they are uninterpreted functions in a `Surface`. Everything the bridge does
  to the connection is appended to one ordered log: posted results, function
  and collation registrations, and disposals of user objects.
- **Conversion** (`conversion.dfy`): what `ConvertParams` makes of one
  argument cell and what `SetReturnValue` posts for a host value. It also
  proves the round trip between the two. The host runtime's own conversions
  (`SqliteConvert.TypeToAffinity`, `Convert.ToInt64`, `Convert.ToDouble`,
  `ToString()`) are static, so they form a separate `Host` value that a
  binding holds whether or not it is attached to a connection.
- **Aggregate store** (`aggregates.dfy`): `_contextDataList` as a map from
  aggregate token to `AggregateData`. It holds the transitions of Step,
  Final and Dispose and the lifecycle lemmas: step numbers are 1-based and
  consecutive, other tokens are untouched, Final sees the last data or null,
  and Dispose disposes every disposable entry exactly once.
- **Binding** (`functions.dfy`): the class `SqliteFunction` with its fields,
  `ConvertParams` as a loop over a copied argument array, `SetReturnValue`,
  the four callbacks, `Dispose(bool)`, `Dispose()`, the default overrides and
  `FunctionType`.
- **Registry** (`registry.dfy`): the catalog of registered functions as an
  explicit `FunctionRegistry` object, `RegisterFunction`, and
  `BindFunctions`.
- **Collation enums** (`collation.dfy`): `CollationTypeEnum` and
  `CollationEncodingEnum` with their declared values.
- **Scenarios** (`scenarios.dfy`): whole callback sequences checked through
  the class contracts. These are a SUM aggregate over rows 1, 2, 3, the same
  aggregate over no rows, a scalar call on a binding with no connection, and
  a reversing collation.
- **Findings** (`findings.dfy`): two behaviours of `Dispose(bool)`, each
  shown on a concrete binding.

Behaviours of the code that the model keeps as they are:

- `Dispose(true)` disposes the aggregate data first and only then clears the
  delegate fields (lines 383-395).
- A second `Dispose()` throws `NullReferenceException`, because the first one
  set `_contextDataList` to null (line 396). The IDisposable pattern asks for
  a second call to be ignored; see Findings.
- `SetReturnValue` posts nothing at all when a value's type maps to an
  affinity outside Null, Int64, Double, Text and Blob: the switch at lines
  265-282 has no default case.
- It throws `InvalidCastException` when a type other than `byte[]` maps to
  Blob (line 280). `FinalCallback` then skips disposing the removed data.
- On a binding with no connection, `SetReturnValue` still reaches the
  switch, so those two outcomes hold there too; every other value throws
  `NullReferenceException` at its `_base.Return*` call.
- An exception thrown by a user `Step`, or by the argument conversion before
  it, escapes the callback to the engine. The step counter still advances,
  because of the `finally` block at lines 345-348.
- The step counter is an `int` incremented without overflow checking, so
  after 2^31 - 1 steps of one aggregate the step number wraps to negative.

## Model

| member | source | states |
|---|---|---|
| `Values.Inc32` | Mono.Data.Sqlite/Store/SQLiteFunction.cs:347 | `_count++` on a C# `int`: one more below the maximum, wraps to the minimum at it |
| `Values.Wrap32` | Mono.Data.Sqlite/Store/SQLiteFunction.cs:347 | the `int` an unchecked count ends at: congruent to the mathematical count modulo 2^32, and equal to it inside the `int` range |
| `Values.IncWraps` | Mono.Data.Sqlite/Store/SQLiteFunction.cs:347 | incrementing a wrapped count with `++` gives the wrapped successor, so repeated increments agree with unchecked addition |
| `Conversion.ToHostValue` | Mono.Data.Sqlite/Store/SQLiteFunction.cs:200-231 | an argument becomes one of the five parameter shapes exactly when its cell has one of the five storage classes; it stays the null reference exactly for affinities the switch has no case for |
| `Conversion.ConvertAll` | Mono.Data.Sqlite/Store/SQLiteFunction.cs:196-232 | the converted array has one element per cell, and element i is cell i's conversion |
| `Native.SqliteBase.GetParamValueBytes` | Mono.Data.Sqlite/Store/SQLiteFunction.cs:221-223 | with a null buffer it reports the blob's length; with a buffer it copies the blob's leading bytes, touching nothing past them |
| `Functions.SqliteFunction.ConvertCell` | Mono.Data.Sqlite/Store/SQLiteFunction.cs:202-229 | one iteration of the switch yields the cell's host value; for a blob, probing the length and filling a buffer of exactly that length yields the cell's whole content |
| `Conversion.ConvertParamsSpec` | Mono.Data.Sqlite/Store/SQLiteFunction.cs:194-233 | succeeds exactly when the count lies between 0 and the array's length and either is 0 or a connection is attached, with `nArgs` values. It fails with Overflow exactly for a negative count (`new object[nArgs]`) and with ArgumentException exactly for a count beyond the array (`Array.Copy`) |
| `Functions.SqliteFunction.ConvertParams` | Mono.Data.Sqlite/Store/SQLiteFunction.cs:194-233 | returns what ConvertParamsSpec describes for the binding's connection: Overflow, ArgumentException, NullReference at the first cell read on an unbound binding, or the `nArgs` converted values, read from a copy of the caller's array, which it cannot write |
| `Conversion.ReturnFor` | Mono.Data.Sqlite/Store/SQLiteFunction.cs:240-283 | an engine error is posted exactly when the value is an Exception, carrying its message, and a DateTime is formatted exactly when the value is one. The cast fails exactly for a value other than null, DBNull, DateTime, Exception and `byte[]` whose type maps to Blob. Nothing is posted exactly when such a value's type maps outside the five affinities |
| `Conversion.PostEffects` | Mono.Data.Sqlite/Store/SQLiteFunction.cs:240-283 | SetReturnValue posts at most one result, exactly one when it decides to post, and a DateTime as the text the connection formats it to |
| `Conversion.SetReturnOutcome` | Mono.Data.Sqlite/Store/SQLiteFunction.cs:240-283 | SetReturnValue throws InvalidCast exactly when the byte-array cast fails, whether or not a connection is attached. It throws NullReference exactly when it would post on an unbound binding, and completes otherwise |
| `Conversion.PrecedenceOverAffinity` | Mono.Data.Sqlite/Store/SQLiteFunction.cs:242-253 | null and DBNull always post NULL and a DateTime is always posted as formatted text, whatever affinity its type has |
| `Conversion.ReadThenReturn` | Mono.Data.Sqlite/Store/SQLiteFunction.cs:200-216 | returning an argument unchanged posts back the native value that was read: null, the same integer, the same double bits, the same text, the same bytes |
| `Conversion.ArgumentsHaveParameterShapes` | Mono.Data.Sqlite/Store/SQLiteFunction.cs:186-216 | user functions only ever receive DBNull, long, double, string or byte array for cells of the five storage classes |
| `Functions.SqliteFunction.SetReturnValue` | Mono.Data.Sqlite/Store/SQLiteFunction.cs:240-283 | appends to the connection's log exactly the result ReturnFor decides, and ends as SetReturnOutcome says, also on a binding with no connection |
| `Functions.SqliteFunction.constructor` | Mono.Data.Sqlite/Store/SQLiteFunction.cs:104-107 | a new instance has an empty aggregate store, no connection and no trampolines, and uses the runtime's host conversions |
| `Functions.SqliteFunction.ScalarCallback` | Mono.Data.Sqlite/Store/SQLiteFunction.cs:291-295 | records the context and converts the arguments. It posts Invoke's result as SetReturnValue decides and ends as SetReturnOutcome says, with or without a connection. A conversion fault propagates and posts nothing |
| `Functions.CompareCallbacksAgree` | Mono.Data.Sqlite/Store/SQLiteFunction.cs:307-315 | both collation trampolines ignore the user data handle and the lengths and answer what Compare answers |
| `Aggregates.AfterStep` | Mono.Data.Sqlite/Store/SQLiteFunction.cs:333-348 | a step creates the token's entry if absent (counter 1, so 2 afterwards) or advances the existing counter by one. It keeps the data Step left and changes no other token |
| `Functions.SqliteFunction.StepCallback` | Mono.Data.Sqlite/Store/SQLiteFunction.cs:328-349 | calls Step with the entry's counter and data and stores the store AfterStep gives. The counter advances even when Step or the conversion threw. An unbound binding faults and changes nothing |
| `Aggregates.StepNumbersConsecutive` | Mono.Data.Sqlite/Store/SQLiteFunction.cs:340-348 | in a run of any length, the i-th step for one token receives the token's counter plus i, wrapped to a 32-bit `int` |
| `Aggregates.StepNumbersStartAtOne` | Mono.Data.Sqlite/Store/SQLiteFunction.cs:145 | for a new token the k-th Step receives stepNumber k, for every k up to the largest `int` |
| `Aggregates.RunStepsEffect` | Mono.Data.Sqlite/Store/SQLiteFunction.cs:328-349 | a run of any length of steps for one token leaves every other token's entry as it was. It ends with the last step's data and the counter advanced once per step, wrapped to a 32-bit `int` |
| `Aggregates.Take` | Mono.Data.Sqlite/Store/SQLiteFunction.cs:357-364 | Final removes exactly its own token, leaves every other entry unchanged, and receives null when no Step ran |
| `Aggregates.FinalAfterSteps` | Mono.Data.Sqlite/Store/SQLiteFunction.cs:158-160 | after any number of steps Final receives the last step's data (null after none) and the store is back to what it was. A second Final would receive null, never stale data |
| `Functions.SqliteFunction.FinalCallback` | Mono.Data.Sqlite/Store/SQLiteFunction.cs:355-371 | removes the token's entry and posts Final's result. Only after that does it dispose the removed data, once, and only if it is disposable and the post did not throw |
| `Aggregates.DisposalsExactlyOnce` | Mono.Data.Sqlite/Store/SQLiteFunction.cs:383-389 | in any enumeration order, Dispose(true) makes one disposal per live entry with disposable data, and every such entry's data is disposed |
| `Functions.SqliteFunction.Dispose` | Mono.Data.Sqlite/Store/SQLiteFunction.cs:377-398 | with `disposing` it disposes every live disposable entry, then nulls four delegate fields, `_base` and the store. `_CompareFunc16` is kept. On an already disposed binding it faults. Without `disposing` it does nothing |
| `Functions.SqliteFunction.DisposeBinding` | Mono.Data.Sqlite/Store/SQLiteFunction.cs:400-407 | the public Dispose() disposes, in some enumeration order, the context data of every aggregate still in progress, then detaches the binding as Dispose(true) does. It faults when called again |
| `Functions.SqliteFunction.DisposeGuarded` | Mono.Data.Sqlite/Store/SQLiteFunction.cs:377-398 | the corrected disposal: the same disposals, then all five delegate fields cleared. A second call changes nothing |
| `Functions.DefaultsPostNull` | Mono.Data.Sqlite/Store/SQLiteFunction.cs:133-181 | a class that overrides nothing posts NULL from Invoke and Final. Its Step keeps no state and throws nothing, and its Compare returns 0 |
| `Functions.WiringFor` | Mono.Data.Sqlite/Store/SQLiteFunction.cs:451-455 | a scalar gets only the Invoke trampoline, an aggregate only Step and Final, a collation only the two compare trampolines |
| `Functions.FunctionTypeValuesRoundTrip` | Mono.Data.Sqlite/Store/SQLiteFunction.cs:494-511 | the declared values 0, 1, 2 identify Scalar, Aggregate and Collation, and no other value names a kind |
| `Registry.RegistrationsOf` | Mono.Data.Sqlite/Store/SQLiteFunction.cs:416-428 | one catalog entry per attribute of the class, in order, each carrying the class. A class without attributes adds none |
| `Registry.FunctionRegistry.constructor` | Mono.Data.Sqlite/Store/SQLiteFunction.cs:99 | the catalog starts empty |
| `Registry.FunctionRegistry.RegisterFunction` | Mono.Data.Sqlite/Store/SQLiteFunction.cs:414-429 | the catalog becomes the old catalog followed by the class's entries |
| `Registry.BindEffect` | Mono.Data.Sqlite/Store/SQLiteFunction.cs:457-460 | a collation is registered by CreateCollation with both compare trampolines. Anything else is registered by CreateFunction with its name, argument count and SqliteFunctionEx flag, carrying Invoke exactly for a scalar and Step and Final exactly for an aggregate |
| `Registry.BindEffects` | Mono.Data.Sqlite/Store/SQLiteFunction.cs:447-464 | the registrations follow the catalog: one per entry, in catalog order |
| `Registry.BindOne` | Mono.Data.Sqlite/Store/SQLiteFunction.cs:449-463 | a fresh instance with the entry's overrides and the connection. It has an empty store and its kind's trampolines, and is registered with one call |
| `Registry.FunctionRegistry.BindFunctions` | Mono.Data.Sqlite/Store/SQLiteFunction.cs:442-470 | returns one fresh, distinct binding per catalog entry in catalog order, each bound as BindOne says. The connection's log gains exactly the registrations BindEffects lists |
| `Collation.CollationTypeValue` | Mono.Data.Sqlite/Store/SQLiteFunction.cs:542-560 | the declared values lie in 0..3, and 0 is Custom |
| `Collation.CollationTypeValuesRoundTrip` | Mono.Data.Sqlite/Store/SQLiteFunction.cs:542-560 | the values 0..3 identify Custom, Binary, NoCase and Reverse and no other value names a type |
| `Collation.CollationEncodingValue` | Mono.Data.Sqlite/Store/SQLiteFunction.cs:565-579 | the declared encoding values lie in 1..3 |
| `Collation.CollationEncodingValuesRoundTrip` | Mono.Data.Sqlite/Store/SQLiteFunction.cs:565-579 | the values 1..3 identify UTF8, UTF16LE and UTF16BE and no other value names an encoding |
| `Scenarios.SumOfOneTwoThree` | Mono.Data.Sqlite/Store/SQLiteFunction.cs:328-371 | a SUM aggregate over rows 1, 2, 3 sees step numbers 1, 2, 3. Final posts 6 and leaves no state for the token |
| `Scenarios.SumOfNoRows` | Mono.Data.Sqlite/Store/SQLiteFunction.cs:355-371 | over no rows, Final still runs once, receives null and posts NULL |
| `Scenarios.UnboundScalar` | Mono.Data.Sqlite/Store/SQLiteFunction.cs:265-282 | with no arguments and no connection, a scalar returning a class of no affinity completes, one whose class maps to Blob throws InvalidCast, and one returning a long throws NullReference |
| `Scenarios.ReversedCollation` | Mono.Data.Sqlite/Store/SQLiteFunction.cs:307-315 | a collation that reverses the order answers 1 for ("a", "b") through both trampolines |
| `Findings.SecondDisposeFaults` | Mono.Data.Sqlite/Store/SQLiteFunction.cs:383-396 | as written, the first Dispose(true) completes and the second throws NullReferenceException |
| `Findings.Compare16SurvivesDispose` | Mono.Data.Sqlite/Store/SQLiteFunction.cs:391-395 | as written, a disposed collation binding has released `_CompareFunc` but still holds `_CompareFunc16` |
| `Findings.GuardedDisposeIsIdempotent` | Mono.Data.Sqlite/Store/SQLiteFunction.cs:377-398 | with the corrected disposal, disposing twice is harmless and no trampoline remains |

## Left out

- The native surface behind `_base` is not modelled in its bodies, because it is foreign code not part of this model. This covers `GetParamValueType`, `GetParamValueInt64`, `GetParamValueDouble`, `GetParamValueText`, `AggregateContext`, `ToDateTime` and `ToString(DateTime)`, which are uninterpreted functions. It also covers the `Return*`, `CreateFunction` and `CreateCollation` calls, which are entries appended to the connection's log. `GetParamValueBytes` is given a simple copying body.
- `SqliteConvert.TypeToAffinity`, `Convert.ToInt64`, `Convert.ToDouble` and `ToString()` are uninterpreted. They are culture-dependent and declared outside the modelled file. Only the round-trip lemma assumes their standard behaviour on long, double, string, byte array and DBNull. Their own exceptions are not modelled.
- `CollationSequence` (its fields and both `Compare` overloads) and `SqliteFunctionEx.GetCollationSequence` are left out: they only forward to the engine's native collation routine, and nothing in the bridge reads them.
- ConvertParams: a null `argsptr`, which `Array.Copy` would reject with ArgumentNullException, is not modelled. The engine always passes an argument array, so the model takes a non-null array.
- A user object's `Dispose()` that throws is not modelled, neither inside Dispose(true) (lines 383-388) nor in FinalCallback (line 370). Disposing a user object is one log entry that always completes.
- The `SqliteConvert` property (a getter returning `_base`) is left out, because it has no behaviour.
- Reflection is not modelled. A class is a `FunctionClass` that lists its `SqliteFunctionAttribute`s and carries its overrides; `GetCustomAttributes` and `Activator.CreateInstance` are not modelled.
- The static `_registeredFunctions` list is an explicit `FunctionRegistry` object, and BindFunctions returns a sequence rather than an array.
- Exceptions thrown by user `Invoke`, `Final` and `Compare` are not modelled; those overrides are total functions. A throwing `Step` is modelled.
- The delegate declarations, the SILVERLIGHT type aliases and keeping delegates alive for the garbage collector are left out as platform plumbing. The delegate fields are modelled as which trampoline they hold.
- `AggregateData` entries are values in the map rather than shared objects, because no reference to one ever leaves the store.
- The `(int)` cast of the blob length is not modelled. Lengths are unbounded naturals, as SQLite's blob limit keeps them below 2^31.

## Findings

| source | as written | input that shows it | evidently intended | confidence | as-written member | corrected member |
|---|---|---|---|---|---|---|
| Mono.Data.Sqlite/Store/SQLiteFunction.cs:383-396 | `Dispose(true)` sets `_contextDataList` to null, so a second call dereferences null in the `foreach` | calling `Dispose()` twice on one binding | a second `Dispose` is ignored, as the IDisposable pattern requires | high; not executed | `Findings.SecondDisposeFaults` | `Functions.SqliteFunction.DisposeGuarded` |
| Mono.Data.Sqlite/Store/SQLiteFunction.cs:391-395 | `_CompareFunc16` is not cleared with the other four delegate fields | disposing a bound collation | every trampoline reference is released on disposal | medium; not executed | `Findings.Compare16SurvivesDispose` | `Functions.SqliteFunction.DisposeGuarded` |
