# libtabula core, modelled in Dafny

libtabula is a C++ wrapper over the MySQL C API. This project models the
parts of it that are pure logic over that API: the sequential state machines
and classifiers. The C API itself is not modelled. Its return codes and
results are inputs to the model.

The modules follow the library's structure:

- `Basics` (basics.dfy): nullable pointers, C integer widths, and the
  two's-complement `int(n)` conversion.
- `Exceptions` (exceptions.dfy): the exception classes and the exact `what()`
  texts that `BadConversion`, `BadFieldName` and `BadIndex` build. It also
  holds the `errnum()` accessors and the decimal rendering the messages use.
- `Options` (options.dfy): option kinds as a tag, with their argument, plus
  the `Option::Error` codes.
- `DBDriver` (dbdriver.dfy): the generic driver.
  - It holds the applied option list, the FIFO pending queue and the last
    option error.
  - `set_option` routes each option by the code its kind's handler returns.
  - `set_option_default` refuses to override.
  - `apply_pending_options` replays the queue, and the base `connect` hook
    uses it.
  - The per-kind handler is a parameter.
- `MySQLDriver` (mysql_driver.dfy): the MySQL leaf driver.
  - The compile-time configuration is a `Build` parameter: the C API
    version and whether SSL is available.
  - It models the `client_flag` validator, the per-kind option rules, and
    connect and disconnect.
  - It models `escape_string`'s argument resolution and the thin wrappers,
    with their zero-means-success inversions and version gates.
- `ConnectionPool` (pool.dfy): an abstract pool. Its only contract is the
  one the pool test asserts. `ScopedConnection` grabs from it on
  construction and releases on destruction.
- `Ipc` (ipc.dfy): `UnixDomainSocketConnection::is_socket` and `connect`,
  and `WindowsNamedPipeConnection::is_wnp` and `connect`. The filesystem
  facts and the platform are inputs.
- `FieldTypeInfo` (field_type.dfy): `FieldType`, which covers its identity,
  comparisons and quoting. It also models:
  - the generic type table;
  - `TypeMap`, where the last row wins;
  - `annotate()`'s best-match search.
- `MySQLFieldTypes` (mysql_ft.dfy): the MySQL refinement:
  - the C API type codes and their base types;
  - flag composition;
  - the MySQL type table and its native-type index;
  - `quote_q` and `escape_q`.
- `FieldTypes` (field_types.dfy): building the list of column types.
- `Rows` (row.dfy): `Row` construction, bounds-checked `at`, lookup by
  name, and assignment.
- `Results` (result.dfy): the result classes:
  - `SimpleResult`;
  - `ResultBase` construction, `copy`, the field cursor and `field_num`;
  - `StoreQueryResult` and `UseQueryResult`, including `fetch_row`'s error
    branches;
  - the driver's `store_result` and `use_result`.

C++ `type_info` objects are an enumeration of the C++ types the tables
name. A `typedef` alias shares its target's `type_info`: for example,
`sql_char` is `std::string` and the blob types are `String`. Because the
aliases are shared, "the last row wins" in the type maps has visible
consequences. Throwing is an `Outcome` value, either `Returned` or `Thrown`.
A C++ object with mutable members is a datatype value that the modelled
operation returns updated.

Where a header and its source file disagree, the model follows the source
file. `apply_pending_options` is declared with a `bool` parameter in
src/dbdriver.h:357 but defined without one in src/dbdriver.cpp:55-68. The
`DBDriver` constructor also differs between src/dbdriver.h:79 and
src/dbdriver.cpp:39-43. The native type index is `lookups` in
src/mysql/ft.h:259 and `native_to_mysql_type_map` in src/mysql/ft.cpp:229.
In each case the model follows the `.cpp` body.

## Model

| member | source | states |
|---|---|---|
| Basics.ToInt32 | src/row.cpp:51 | `int(n)` of an unsigned value is a 32-bit int congruent to n modulo 2^32, and n itself when n < 2^31 |
| Exceptions.IntToString | src/exceptions.h:192-193 | an integer is written with a leading minus sign exactly when it is negative |
| Exceptions.IntToStringRoundTrip | src/exceptions.h:192-193 | reading back what `<<` writes for an integer gives that integer |
| Exceptions.NumeralThenText | src/exceptions.h:192-193 | an integer followed by text that does not start with a digit reads back as that integer |
| Exceptions.BadConversionWhat | src/exceptions.h:106-118 | the message opens with `Bad type conversion: \"` and closes with `\" incompatible with \"`, the type name and `\" type` |
| Exceptions.BadConversionRoundTrip | src/exceptions.h:106-118 | the data (or `<NULL>`) and the type name can be read back from the message whenever the data holds no double quote, and a null data pointer gives the same message as the text `<NULL>` |
| Exceptions.NewBadConversion | src/exceptions.h:106-118 | the four-argument `BadConversion` keeps type name, data, retrieved and actual sizes; its message is the one built from the type name and data, and the data and type name read back from it |
| Exceptions.NewBadConversionWith | src/exceptions.h:127-135 | the five-argument `BadConversion` keeps the finished message and every other argument as given |
| Exceptions.NewBadConversionMessage | src/exceptions.h:142-149 | the message-only `BadConversion` keeps its message (empty by default) and has type name `unknown`, empty data and zero sizes |
| Exceptions.NewBadFieldName | src/exceptions.h:167-170 | the message is `Unknown field name: ` followed by the name |
| Exceptions.BadFieldNameRoundTrip | src/exceptions.h:167-170 | the field name can be read back from a `BadFieldName` message |
| Exceptions.NewBadIndex | src/exceptions.h:188-195 | the message reads `Index b on w out of range, max legal index is m` |
| Exceptions.BadIndexNamesIndex | src/exceptions.h:188-195 | the bad index can be read back from a `BadIndex` message, whatever the object name and maximum |
| Exceptions.NewBadQuery | src/exceptions.h:292-296 | a `BadQuery` keeps its message and its error number |
| Exceptions.NewConnectionFailed | src/exceptions.h:335-339 | a `ConnectionFailed` keeps its message and its error number |
| Exceptions.NewDBSelectionFailed | src/exceptions.h:366-370 | a `DBSelectionFailed` keeps its message and its error number |
| Exceptions.NewMutexFailed | src/exceptions.h:393-396 | a `MutexFailed` keeps its message |
| Exceptions.DefaultArguments | src/exceptions.h:292-296 | `BadQuery`, `ConnectionFailed` and `DBSelectionFailed` given only a message have error number 0, given nothing have an empty message and error number 0; `BadConversion(w)` defaults to an empty message and `MutexFailed` to `lock failed` |
| Exceptions.ParseInt | src/exceptions.h:192-193 | reference reading of the optionally signed decimal numerals `<<` writes (a definition; `IntToStringRoundTrip` relates the two) |
| Exceptions.FieldOfBadFieldName | src/exceptions.h:167-170 | reads the field name back from a `BadFieldName` message (a definition; `BadFieldNameRoundTrip` states that it inverts the constructor) |
| Exceptions.BadIndexNumber | src/exceptions.h:188-195 | reads the bad index back from a `BadIndex` message (a definition; `BadIndexNamesIndex` states that it inverts the constructor) |
| DBDriver.New | src/dbdriver.cpp:39-43 | a new driver is disconnected, with no applied or pending options and no option error |
| DBDriver.IsConnected | src/dbdriver.h:110 | `connected()` reports the connected flag |
| DBDriver.SetOption | src/dbdriver.cpp:82-108 | the handler's code lands in the error slot; `err_NONE` appends the option to the applied list, `err_disconnected` to the pending queue, any other code keeps neither; the call returns true exactly for those two codes |
| Options.FlagOf | src/mysql/driver.cpp:237 | the `arg()` a boolean option passes on (a definition) |
| Options.Accepted | src/dbdriver.cpp:89-104 | the two codes with which `set_option` reports success, `err_NONE` and `err_disconnected` (a definition) |
| DBDriver.SetOptionTakesOwnership | src/dbdriver.cpp:85-107 | after the call the driver owns the option exactly when it returned true, and `option_error()` tells an applied option from a deferred one |
| DBDriver.Replay | src/dbdriver.cpp:59-62 | the replay walks the pending options in order and stops at the first one `set_option` refuses; it only ever adds to the applied and pending lists, and a failed replay leaves a refusal code in the error slot |
| DBDriver.ApplyPending | src/dbdriver.cpp:55-68 | the error slot is cleared first; on success the pending queue is empty; on failure the queue is kept and the slot holds the refusal; an empty queue succeeds and changes nothing else |
| DBDriver.ApplyPendingKeepingDeferred | src/dbdriver.cpp:55-68 | the replay as its comments intend: an option deferred again stays queued; a failed replay is the written one, and an empty queue succeeds and changes nothing else |
| DBDriver.ReplayIgnoresQueue | src/dbdriver.cpp:59-62 | the queue never steers a replay: a longer queue going in gives the same replay, with the extra options in front of the queue it leaves |
| DBDriver.ApplyPendingDropsDeferred | src/dbdriver.cpp:55-68 | the written and the intended replay succeed together, and where they do the written one is the intended one with its queue then cleared, so the options deferred again are exactly what it loses |
| DBDriver.BaseConnect | src/dbdriver.cpp:71-76 | the base `connect` succeeds only on a connected driver whose pending options all apply, and leaves a disconnected driver untouched |
| DBDriver.SetOptionDefaultAsWritten | src/dbdriver.h:276-289 | as written: any applied option at all makes the call discard the new option and return true; with none it is `set_option` |
| DBDriver.SetOptionDefault | src/dbdriver.h:274-289 | as documented: the option is discarded exactly when one of the same kind was applied before, otherwise it is `set_option` |
| DBDriver.KindApplied | src/dbdriver.h:278-286 | an option of the given kind is in the applied list: the documented meaning of the `typeid` test (a definition) |
| DBDriver.SetOptionDefaultIdempotent | src/dbdriver.h:274-289 | once a default has been applied, offering the same default again changes nothing |
| DBDriver.DefaultAsWrittenCoversDocumented | src/dbdriver.h:278-286 | the written and documented rules agree when nothing is applied and whenever the documented rule discards |
| DBDriver.DefaultAsWrittenDropsOtherKind | src/dbdriver.h:278-286 | with a compress option applied, the written rule throws away a connect-timeout default that the documented rule applies |
| DBDriver.BaseHandler | src/dbdriver.h:43-45 | the base class's per-kind handler accepts every option and changes nothing |
| DBDriver.BaseAppliesImmediately | src/dbdriver.h:297-324 | with the base handlers, every option is applied at once and returns true |
| DBDriver.BaseReplayKeepsOrder | src/dbdriver.cpp:59-62 | with the base handlers, a replay succeeds and appends the whole queue to the applied list in queue order |
| DBDriver.BaseApplyPendingIsFifo | src/dbdriver.cpp:55-68 | with the base handlers, applying pending options applies all of them in FIFO order, empties the queue and leaves no error |
| DBDriver.ReplayStopsAtFirstFailure | src/dbdriver.cpp:59-62 | a failed replay has a position `k`: the options before `k` were all accepted and the failure is `set_option` of option `k` |
| MySQLDriver.ZeroIsNone | src/mysql/driver.cpp:160-161 | a C return code maps to `err_NONE` exactly when it is 0, and to `err_api_reject` otherwise |
| MySQLDriver.StripLowZeros | src/mysql/driver.cpp:183-186 | shifting out the low zero bits leaves 1 exactly when the value had a single bit set |
| MySQLDriver.SetOptionInternal | src/mysql/driver.cpp:178-211 | the flag call succeeds exactly for a single bit in the version's range; then it sets or clears that bit, and otherwise leaves `client_flag` alone |
| MySQLDriver.FlagAcceptedIsKnownFlag | src/mysql/driver.cpp:188-195 | the accepted values are exactly the capability bits the C API defines: eighteen above version 40000, fourteen up to `CLIENT_TRANSACTIONS` before |
| MySQLDriver.SetBitKeepsOthers | src/mysql/driver.cpp:197-199 | setting a bit sets it and keeps every other bit |
| MySQLDriver.ClearBitKeepsOthers | src/mysql/driver.cpp:200-202 | clearing a bit clears it and keeps every other bit |
| MySQLDriver.SetFlagIdempotent | src/mysql/driver.cpp:188-204 | making the same accepted flag call twice is making it once |
| MySQLDriver.SetMultiStatementsOption | src/mysql/driver.cpp:153-165 | from 4.1.1 the server-option call's code decides NONE or reject; before, the answer is `err_api_limit` |
| MySQLDriver.Supported | src/mysql/driver.cpp:243-252 | which option kinds a build compiles in: the `MYSQL_VERSION_ID` and `HAVE_MYSQL_SSL_SET` gates of the per-kind handlers (a definition; `CompiledOutIsApiLimit` states its effect) |
| MySQLDriver.FlagRule | src/mysql/driver.cpp:234-239 | a flag-style option set while disconnected goes through the `client_flag` validator, giving `err_NONE` or `err_api_reject` (a definition; `FlagKindsApplyBeforeConnect` states its effect) |
| MySQLDriver.Impl | src/mysql/driver.cpp:214-546 | the per-kind `set_option_impl` rules, corrected for the missing returns (a definition; `PreConnectRule`, `FlagKindsApplyBeforeConnect`, `CompiledOutIsApiLimit`, `OnlyReconnectDefers` and `ImplConnectedMultiStatements` state its cases) |
| MySQLDriver.Handler | src/mysql/driver.h:528-533 | the MySQL driver's per-kind handler for the generic option machinery is `Impl` (a definition) |
| MySQLDriver.ImplAsWritten | src/mysql/driver.cpp:301-332 | as written, the handler returns nothing exactly for multi-results or multi-statements set while connected on 4.1.1 or later; every other case agrees with the corrected rules |
| MySQLDriver.MultiStatementsConnectedReturnsNothing | src/mysql/driver.cpp:318-332 | switching multi-statements on while connected reaches the missing return; the corrected rule returns the server-option call's code |
| MySQLDriver.ImplConnectedMultiStatements | src/mysql/driver.cpp:302-332 | corrected: on every build that supports them, switching MultiResults or MultiStatements while connected keeps the state and reports `err_NONE` exactly when the C call returns 0, where the rules as written return nothing |
| MySQLDriver.PreConnectRule | src/mysql/driver.cpp:214-230 | a pre-connect option is refused with `err_connected` once connected; before that it succeeds exactly when the C setter returns 0, and the C-setter kinds leave `client_flag` alone |
| MySQLDriver.FlagKindsApplyBeforeConnect | src/mysql/driver.cpp:233-239 | a flag-style option set while disconnected always passes the validator, so only its own bit moves |
| MySQLDriver.CompiledOutIsApiLimit | src/mysql/driver.cpp:242-252 | a kind compiled out of the build answers `err_api_limit` and changes nothing, and only the version- or SSL-gated kinds can be compiled out |
| MySQLDriver.OnlyReconnectDefers | src/mysql/driver.cpp:399-421 | the handler answers `err_disconnected` exactly for reconnect set while disconnected, on versions from 5.0.13 up to 5.1.5 |
| MySQLDriver.PendingHoldsOnlyReconnect | src/mysql/driver.cpp:408-416 | the MySQL driver's pending queue only ever holds reconnect options |
| MySQLDriver.Disconnect | src/mysql/driver.cpp:85-93 | disconnecting clears the connected flag and leaves the option lists alone; on a disconnected driver it does nothing |
| MySQLDriver.DisconnectIdempotent | src/mysql/driver.cpp:85-93 | disconnecting twice is disconnecting once |
| MySQLDriver.ConnectAsWritten | src/mysql/driver.cpp:71-82 | as written, the result is what lands in `is_connected_` |
| MySQLDriver.ConnectAsWrittenNeverConnects | src/mysql/driver.cpp:76-81 | as written, connect never succeeds, because the base hook runs while `is_connected_` is still false |
| MySQLDriver.Connect | src/mysql/driver.cpp:71-82 | with `is_connected_` set after the handshake: a successful connect needs the handshake and leaves the driver connected with an empty pending queue |
| MySQLDriver.ConnectSucceedsIffHandshake | src/mysql/driver.cpp:76-81 | for every driver state, the connect succeeds exactly when the replay of the queue before the handshake succeeds and the handshake does, and it applies what that replay applied |
| MySQLDriver.ReplayDefersReconnects | src/mysql/driver.cpp:398-421 | on MySQL 5.0.13 up to 5.1.5, replaying Reconnect options while disconnected succeeds, applies none and defers every one again |
| MySQLDriver.ReplayAppliesReconnects | src/mysql/driver.cpp:398-421 | on a live connection of 5.0.13 or later, Reconnect options that `mysql_options` accepts are applied in order |
| MySQLDriver.QueuedReconnectDiscarded | src/dbdriver.cpp:59-62 | as written, a Reconnect queued before connecting on 5.0.13 up to 5.1.5 is never applied: the connect succeeds iff the handshake does, applies nothing and leaves the queue empty |
| MySQLDriver.ConnectKeepingDeferred | src/mysql/driver.cpp:71-82 | the connect with the intended replay: success needs the handshake and leaves the driver connected with an empty queue |
| MySQLDriver.QueuedReconnectApplied | src/mysql/driver.cpp:408-416 | with the intended replay, queued Reconnect options that `mysql_options` accepts are applied, in order, once the handshake succeeds |
| MySQLDriver.ReplayKeepsQueueOutsideWindow | src/mysql/driver.cpp:398-421 | outside the 5.0.13 to 5.1.5 window no replay defers anything |
| MySQLDriver.ConnectsAgreeOutsideWindow | src/dbdriver.cpp:55-68 | outside that window the written and the intended connect are the same function |
| MySQLDriver.CString | src/mysql/driver.cpp:109-114 | `strlen` stops before the first NUL, and what it measures is a prefix of the buffer |
| MySQLDriver.EscapeArguments | src/mysql/driver.cpp:95-116 | a null target does nothing; a null source escapes the target's own text; length 0 measures the C string; otherwise the first `length` characters are taken; the scratch buffer is twice the length plus one |
| MySQLDriver.EscapeString | src/mysql/driver.cpp:95-122 | a null target returns 0 and stores nothing; otherwise the target receives the escaper's output for the target's own text (null source), the first `length` characters of the source, or the source up to its NUL when `length` is 0, and the call returns that output's length |
| MySQLDriver.NextResultAsWritten | src/mysql/driver.h:300-311 | as written, `next_result` reports no support up to version 41000 and otherwise passes on the C code |
| MySQLDriver.NextResultCode | src/mysql/driver.h:303-307 | the C return code maps onto one of three codes, never to "not supported" |
| MySQLDriver.NextResultCodeClassifies | src/mysql/driver.h:303-307 | more results exactly for 0, last result exactly for -1, an error otherwise |
| MySQLDriver.NextResult | src/mysql/driver.h:300-311 | as intended, "not supported" is reported exactly before 4.1.0 |
| MySQLDriver.MoreResultsAsWritten | src/mysql/driver.h:282-289 | as written, `more_results` is false up to version 41000 and above it is exactly what the C call says |
| MySQLDriver.MoreResults | src/mysql/driver.h:282-289 | as intended, `more_results` is the C answer exactly from 4.1.0 on |
| MySQLDriver.VersionGateExcludesMySQL41 | src/mysql/driver.h:284 | built against 4.1.22, the written gates report no support where the intended ones pass the C answers through |
| MySQLDriver.VersionGatesAgreeFrom50 | src/mysql/driver.h:302 | from 5.0 on, the written and intended gates agree |
| MySQLDriver.ThreadStart | src/mysql/driver.h:478-485 | `thread_start` fails on builds up to version 40000, and above that succeeds exactly when the C init returns what the option machinery reads as `err_NONE` |
| MySQLDriver.ThreadStartGate | src/mysql/driver.h:478-485 | `thread_start` can succeed on exactly the builds that support the `Protocol` option and accept flags up to `CLIENT_MULTI_RESULTS`, and never succeeds when the C init fails |
| MySQLDriver.Wrapped | src/mysql/driver.h:198-202 | `execute`, and likewise `kill` (lines 273-276), `ping` (339-342), `refresh` (366-369) and `select_db` (375-378), answers true exactly when the option machinery would read the C return code as `err_NONE` |
| MySQLDriver.WrappersAgree | src/mysql/driver.h:366-378 | all five zero-on-success wrappers give the same answer for the same return code: true where `set_option_impl` reports `err_NONE` and false where it reports `err_api_reject` |
| MySQLDriver.ResultEmpty | src/mysql/driver.h:372 | the last result is empty exactly when the C field count is zero |
| Results.ResultEmptyMeansNoFields | src/mysql/driver.h:372 | `result_empty` holds exactly when a result built from the fetched fields has no columns, and then that result names no table |
| ConnectionPool.Empty | test/cpool.cpp:99 | a fresh pool is empty and consistent |
| ConnectionPool.Valid | test/cpool.cpp:70-99 | the pool invariant: in-use and idle connections were created by the pool, none is both, and none is idle twice (a definition; every pool operation preserves it) |
| ConnectionPool.Grab | test/cpool.cpp:70-79 | `grab` hands out a connection not already in use, reusing the most recently released idle one when there is one |
| ConnectionPool.SafeGrab | src/scopedconnection.cpp:34 | `safe_grab` hands out a connection not already in use |
| ConnectionPool.Release | src/scopedconnection.cpp:40 | `release` takes the connection out of use and makes it the most recent idle one |
| ConnectionPool.Shrink | test/cpool.cpp:98-99 | `shrink` drops every idle connection and leaves the ones in use |
| ConnectionPool.GrabsAreDistinct | test/cpool.cpp:70-75 | two outstanding grabs never return the same connection |
| ConnectionPool.ReleasedIsReused | test/cpool.cpp:77-82 | a connection released and grabbed again is handed out again, and the pool is as before the release |
| ConnectionPool.ShrinkAfterReleasingAll | test/cpool.cpp:96-99 | once every connection is released, `shrink` leaves the pool empty |
| ConnectionPool.PoolScenario | test/cpool.cpp:70-99 | the test's grab, release, regrab, release-all and shrink sequence succeeds |
| ConnectionPool.Construct | src/scopedconnection.cpp:32-36 | a scoped connection grabs with `safe_grab` exactly when asked to, and holds a connection that was not in use |
| ConnectionPool.Destroy | src/scopedconnection.cpp:38-41 | destroying a scoped connection releases the connection it holds |
| ConnectionPool.ScopedRoundTrip | src/scopedconnection.cpp:32-41 | constructing and destroying a scoped connection restores the in-use set and leaves its connection idle |
| ConnectionPool.NestedScopes | src/scopedconnection.cpp:32-41 | nested scopes hold different connections, and destroying them in reverse order restores the in-use set |
| Ipc.DiagnoseMessage | src/uds_connection.cpp:73-96 | the four failure messages differ, so each names its failed check unambiguously |
| Ipc.FirstFailure | src/uds_connection.cpp:73-96 | the first of the four `is_socket` checks a path fails, in the order the source makes them (a definition) |
| Ipc.Diagnose | src/uds_connection.cpp:73-96 | reads back which check failed from a message (a definition; `DiagnoseMessage` states that it inverts `Message`) |
| Ipc.IsSocket | src/uds_connection.cpp:66-116 | the verdict is true exactly on POSIX, for a non-null path that passes all four checks; the error string is touched only when one is passed, and is cleared on success |
| Ipc.IsSocketChain | src/uds_connection.cpp:70-103 | the checks run in order (exists, read-write, stat, socket); on failure the message is exactly the text for the first check that fails, whatever the later ones would say |
| Ipc.IsSocketNullOrWindows | src/uds_connection.cpp:105-115 | a null path on POSIX, and any path on Windows, is refused with its fixed message |
| Ipc.UdsRejections | test/uds.cpp:104-131 | a read-only socket, a missing name and a regular file are all refused |
| Ipc.UdsConnect | src/uds_connection.cpp:44-63 | the connection is handed to the generic `connect` with the path as server exactly when `is_socket` accepts it; otherwise it throws `ConnectionFailed` carrying the error message, or returns false with exceptions off |
| Ipc.Fail | src/uds_connection.cpp:57-62 | the failure tail sets the error message and delegates nothing |
| Ipc.UdsConnectFailureExplains | src/uds_connection.cpp:49-59 | a failed connect throws the same text it stores, and that text names the failed check |
| Ipc.IsWnp | src/wnp_connection.cpp:61-70 | a server name means a named pipe exactly on Windows, when it is `.` |
| Ipc.WnpConnect | src/wnp_connection.cpp:40-58 | on Windows the call delegates to `Connection::connect` with server `.` and returns its outcome; elsewhere it stores the platform complaint, never delegates, and throws `ConnectionFailed` with it or returns false as exceptions are on or off |
| Ipc.WnpConnectMatchesIsWnp | src/wnp_connection.cpp:40-70 | on Windows the call delegates with exactly the server name `is_wnp` recognises; elsewhere it never delegates and never succeeds |
| FieldTypeInfo.Default | src/field_type.h:87-91 | a default-constructed type has the bogus base -1 and default flags |
| FieldTypeInfo.FlagsWithinReflexive | src/field_type.cpp:257 | the subset test `(a & b) == a` holds of every flag set against itself, and of no flags against any |
| FieldTypeInfo.FlagsWithinGenericBits | src/field_type.h:70-75 | below `tf_FIRST_UNUSED`, `a & b == a` holds exactly when each of `tf_unsigned` and `tf_null` set in `a` is set in `b`, and `tf_default` is the value with neither |
| FieldTypeInfo.ShiftOr | src/field_type.h:159 | `(flags << 8) \| base` is `flags * 256 + base` while the flags fit in 24 bits, and all ones for base -1 |
| FieldTypeInfo.Id | src/field_type.h:159 | as written: the identity fits in an `unsigned short`, and equals `flags * 256 + base` only while the flags fit in one byte |
| FieldTypeInfo.IdInjectiveOnBytes | src/field_type.h:159 | with real bases and one-byte flags, equal identities mean equal types, and the reverse |
| FieldTypeInfo.IdLosesHighFlags | src/field_type.h:159 | a type with flag bit 8 set gets the same `id()` as the same base with no flags |
| FieldTypeInfo.WideId | src/field_type.h:154-159 | the corrected identity agrees with `id()` wherever `id()` loses nothing |
| FieldTypeInfo.WideIdInjective | src/field_type.h:154-159 | the corrected identity tells apart every pair of types with real bases and flags below 2^24, and the reverse |
| FieldTypeInfo.IdKeepsLowFlagByte | src/field_type.h:159 | `id()` of a type with a real base code is the low byte of the flags times 256 plus the base code |
| FieldTypeInfo.EqualAsWritten | src/field_type.h:166-170 | `operator ==` as written compares the 16-bit `id()`s (a definition; `ComparisonsAgreeAsWritten` characterises it) |
| FieldTypeInfo.NotEqualAsWritten | src/field_type.h:172-176 | `operator !=` as written compares the 16-bit `id()`s (a definition) |
| FieldTypeInfo.LessAsWritten | src/field_type.h:211-214 | `operator <` as written orders the 16-bit `id()`s (a definition) |
| FieldTypeInfo.EqualAsWrittenIffLowByte | src/field_type.h:166-170 | as written, `==` holds exactly when the base codes agree and the flags agree in their low byte |
| FieldTypeInfo.ComparisonsAgreeAsWritten | src/field_type.h:166-176 | as written, `!=` is the negation of `==`, and exactly one of `a < b`, `a == b`, `b < a` holds |
| FieldTypeInfo.OrderLawsAsWritten | src/field_type.h:206-214 | as written, `<` is irreflexive and transitive and `==` is an equivalence, which is what an associative container needs |
| FieldTypeInfo.Equal | src/field_type.h:166-170 | corrected `operator ==`: the untruncated identities are equal (a definition; `EqualIsStructural` characterises it) |
| FieldTypeInfo.NotEqual | src/field_type.h:172-176 | corrected `operator !=` on the untruncated identities (a definition) |
| FieldTypeInfo.Less | src/field_type.h:211-214 | corrected `operator <` on the untruncated identities (a definition) |
| FieldTypeInfo.ComparisonsAgree | src/field_type.h:166-176 | for the corrected operators, `!=` is the negation of `==`, and exactly one of `a < b`, `a == b`, `b < a` holds |
| FieldTypeInfo.AsWrittenAgreesOnByteFlags | src/field_type.h:159-176 | when the flags fit in a byte, the operators as written and the corrected ones give the same answers |
| FieldTypeInfo.OrderLaws | src/field_type.h:206-214 | the corrected `<` is irreflexive and transitive and the corrected `==` is an equivalence |
| FieldTypeInfo.EqualIsStructural | src/field_type.h:166-170 | with the corrected identity, `==` is equality of the `{base, flags}` pair, and types differing in a high flag bit stay apart |
| FieldTypeInfo.QuoteIffEscape | src/field_type.h:137-152 | the base class quotes exactly what it escapes, namely text and blob, whatever the flags |
| FieldTypeInfo.QuoteQ | src/field_type.h:137-141 | the base `quote_q()`: true exactly for text and blob base types (a definition; `QuoteIffEscape` relates it to `escape_q`) |
| FieldTypeInfo.EscapeQ | src/field_type.h:148-152 | the base `escape_q()`: true exactly for text and blob base types (a definition) |
| FieldTypeInfo.Rows | src/field_type.cpp:69-179 | the table holds the 56 rows in source order |
| FieldTypeInfo.BuildIndex | src/field_type.cpp:200-205 | the loop that fills the map ends with each key mapped to its last included row, and every key with no row absent |
| FieldTypeInfo.LastIndex | src/field_type.cpp:200-205 | the row the filled map holds for a key carries that key, and no later row does; a key with no row gets none |
| FieldTypeInfo.TypeMapLookup | src/field_type.cpp:206-220 | the lookup succeeds exactly when some row has the C++ type; it returns the last such row, and otherwise throws `TypeLookupFailed` naming the type |
| FieldTypeInfo.FromTypeInfo | src/field_type.cpp:227-232 | a C++ type found in the table gets the base and flags of the LAST row naming it; a type in no row throws `TypeLookupFailed` with the lookup message |
| FieldTypeInfo.TypeMapLastRowWins | src/field_type.cpp:90-97 | the last row wins: `float` maps to FLOAT UNSIGNED, `double` to DECIMAL and `int32_t` to INT, so `float` becomes `{real, unsigned}` |
| FieldTypeInfo.LastRowFor | src/field_type.cpp:200-212 | a row that carries a type, with no later row carrying it, is the one the lookup returns |
| FieldTypeInfo.PlainRow | src/field_type.cpp:71-115 | every plain C++ type of the typedefs has a row |
| FieldTypeInfo.NullRow | src/field_type.cpp:118-178 | every `Null<>` of those types has a row |
| FieldTypeInfo.LookupCoversTable | src/field_type.cpp:206-220 | a C++ type outside the table throws `TypeLookupFailed`; every plain and nullable typedef type is found |
| FieldTypeInfo.LookupMissesOther | src/field_type.cpp:213-219 | a C++ type no row carries is a lookup failure |
| FieldTypeInfo.LookupFindsRow | src/field_type.cpp:209-212 | the C++ type of any row is found |
| FieldTypeInfo.PreferredIsCompatible | src/field_type.cpp:250-257 | a row with the same base and flags also passes the weaker subset test |
| FieldTypeInfo.Compatible | src/field_type.cpp:250-262 | a row `annotate()` may fall back on: same base, and every flag of the row set in the type (a definition) |
| FieldTypeInfo.Preferred | src/field_type.cpp:251-255 | a row `annotate()` takes at once: same base, same flags, marked best guess (a definition) |
| FieldTypeInfo.FirstPreferred | src/field_type.cpp:248-256 | the first row that matches base and flags exactly and is marked best, and no earlier one |
| FieldTypeInfo.LastCompatible | src/field_type.cpp:248-262 | the last row with the same base and no flag the type lacks, and no later one |
| FieldTypeInfo.Annotate | src/field_type.cpp:237-277 | an unsupported base throws; otherwise the result is the first exact best-guess row if there is one, else the last compatible row; it throws exactly when no row is compatible, with a message naming the pair |
| FieldTypeInfo.AnnotateScan | src/field_type.cpp:237-277 | the single loop with `guess` returns the same as the first-preferred-else-last-compatible reading |
| FieldTypeInfo.FromTypeInfoAnnotates | src/field_type.cpp:227-277 | every type built from a C++ type can be annotated |
| FieldTypeInfo.AnnotateWidensFloat | src/field_type.cpp:90-96 | `{real, unsigned}` annotates to DOUBLE UNSIGNED, so `float` round-trips to `double` |
| FieldTypeInfo.AnnotateInteger | src/field_type.cpp:71-83 | `{integer, default}` annotates to the INT row, skipping earlier non-preferred rows |
| FieldTypeInfo.AnnotateFallback | src/field_type.cpp:153-154 | `{timestamp, null}` has no preferred row and falls back on TIMESTAMP NULL, whose flags lack `tf_null` |
| FieldTypeInfo.AnnotateDefaultFails | src/field_type.cpp:268-276 | a default-constructed type matches no row and throws |
| FieldTypeInfo.RowTypeIsKnown | src/field_type.cpp:69-179 | every row's C++ type is a typedef type or its `Null<>` |
| FieldTypeInfo.RowBaseIsKnown | src/field_type.cpp:69-179 | every row has a real base code other than unsupported |
| MySQLFieldTypes.MySQLFlagsAreFreshBits | src/mysql/ft.h:161-171 | each MySQL flag is `tf_FIRST_UNUSED << k` for its position k; the flags strictly increase (so they are distinct) and none overlaps `tf_unsigned` or `tf_null` |
| MySQLFieldTypes.ComposeFlags | src/mysql/ft.h:188-195 | the flags the `(type, is_unsigned, is_null)` constructor builds stay below `tf_FIRST_UNUSED` |
| MySQLFieldTypes.ComposeFlagsRoundTrip | src/mysql/ft.h:81-83 | `is_unsigned()` and `is_null()` read back exactly the two booleans the constructor was given, and `is_default()` holds iff both are false |
| MySQLFieldTypes.FlagsFromPredicates | src/mysql/ft.h:81-83 | conversely, any flags made only of the two generic bits are rebuilt from their two predicates |
| MySQLFieldTypes.IsDefault | src/mysql/ft.h:81 | `is_default()`: the flags are `tf_default` (a definition; `ComposeFlagsRoundTrip` relates it to the constructor) |
| MySQLFieldTypes.IsNull | src/mysql/ft.h:82 | `is_null()`: the `tf_null` bit is set (a definition) |
| MySQLFieldTypes.IsUnsigned | src/mysql/ft.h:83 | `is_unsigned()`: the `tf_unsigned` bit is set (a definition) |
| MySQLFieldTypes.BaseOf | src/mysql/ft.cpp:247-309 | for each base type, the C API codes mapped to it are exactly the ones the switch groups under it (iff in each direction); NEWDATE is only passed when the C API lists it |
| MySQLFieldTypes.FromCType | src/mysql/ft.h:188-195 | the type built from a C API code has that code's base type, and its flag predicates answer the constructor's two booleans; it is default iff both are false |
| MySQLFieldTypes.MTypes | src/mysql/ft.cpp:66-224 | the MySQL type table has 56 rows, row i being the i-th entry of the source table for the given C API version |
| MySQLFieldTypes.RowFlagsAreComposed | src/mysql/ft.cpp:66-224 | every row's flags are built only from `tf_unsigned` and `tf_null`, so they equal what the three-argument constructor would compose from the row's own predicates |
| MySQLFieldTypes.RowTypesSupported | src/mysql/ft.cpp:66-224 | no row uses NEWDATE, and every row's C API type has a supported base |
| MySQLFieldTypes.BuildNativeMap | src/mysql/ft.cpp:235-243 | every key maps to a row with that C++ type and default flags, with no later such row; a C++ type with no default-flag row has no key |
| MySQLFieldTypes.NativeLookup | src/mysql/ft.h:111-123 | the lookup succeeds iff some default-flag row holds the C++ type, returns the last such row, and otherwise throws `TypeLookupFailed` with "Failed to find MySQL C API type ID for " and the type name |
| MySQLFieldTypes.FromTypeInfo | src/mysql/ft.h:208-212 | a type built from a C++ type exists iff the lookup succeeds; its base is the index the lookup returns and its flags are the default, and otherwise the lookup's exception propagates |
| MySQLFieldTypes.FromTypeInfoRoundTrip | src/mysql/ft.h:229 | `c_type()` of a type built from a C++ type gives back that C++ type |
| MySQLFieldTypes.NativeMapExamples | src/mysql/ft.cpp:235-243 | last default row wins: `double` finds the DOUBLE row 9, `std::string` the CHAR row 27, and `Null<sql_datetime>` the timestamp row 40, whose flags lack `tf_null`; `unsigned int` and `Null<int>` are not found |
| MySQLFieldTypes.NoLaterDefaultRow | src/mysql/ft.cpp:235-243 | with a default row for a C++ type at i and none after, the lookup returns i; with none anywhere, it throws |
| MySQLFieldTypes.EscapedIsQuoted | src/mysql/ft.cpp:311-337 | every escaped C++ type is also quoted; a date is quoted but not escaped; a nullable string is neither |
| MySQLFieldTypes.LookedUpQuoting | src/mysql/ft.cpp:311-337 | a type built from a C++ type is quoted and escaped exactly as the C++ type is listed in `quote_q` and `escape_q` |
| MySQLFieldTypes.QuotingOfLookedUpTypes | src/mysql/ft.cpp:311-337 | types built from `std::string` and from `String` are quoted and escaped; one built from `int` is neither |
| MySQLFieldTypes.LookedUpAt | src/mysql/ft.cpp:66-224 | `std::string`, `String` and `int` are found at rows 27, 25 and 5 with default flags |
| MySQLFieldTypes.CTypeOfApiBuiltType | src/mysql/ft.h:277-280 | a type built from a C API code keeps its base code in the field `deref()` uses as a row index, so `c_type()` of an INT column (base code 0) reads the DECIMAL row and reports `double` |
| MySQLFieldTypes.Deref | src/mysql/ft.h:277-280 | `deref()` reads the table entry indexed by the base code (a definition) |
| MySQLFieldTypes.CTypeOf | src/mysql/ft.h:229 | `c_type()` is the C++ type of the entry `deref()` reads (a definition) |
| MySQLFieldTypes.QuotedType | src/mysql/ft.cpp:314-323 | the C++ types `quote_q()` lists, with typedefs of one C++ type merged (a definition) |
| MySQLFieldTypes.EscapedType | src/mysql/ft.cpp:329-336 | the C++ types `escape_q()` lists, with typedefs of one C++ type merged (a definition) |
| MySQLFieldTypes.QuoteQ | src/mysql/ft.cpp:311-324 | `quote_q()`: the type's C++ type is one of those listed (a definition; `EscapedIsQuoted` and `QuotingOfLookedUpTypes` state its consequences) |
| MySQLFieldTypes.EscapeQ | src/mysql/ft.cpp:326-337 | `escape_q()`: the type's C++ type is one of those listed (a definition) |
| FieldTypes.TypesOf | src/field_types.cpp:39-42 | one type per field, the i-th being the i-th field's type |
| FieldTypes.Empty | src/field_types.h:47 | the default vector holds no types |
| FieldTypes.Sized | src/field_types.h:56-59 | `FieldTypes(i)` holds exactly i default-constructed types |
| FieldTypes.InsertDefaults | src/field_types.h:72-76 | assigning an int i puts i default types in front of the existing ones, which follow unchanged |
| FieldTypes.Init | src/field_types.cpp:36-43 | `init` keeps the existing types as a prefix and appends the fields' types in field order |
| FieldTypes.InitLoop | src/field_types.cpp:36-43 | the `push_back` loop computes the same vector: the old prefix, then each field's type at its position |
| FieldTypes.FromResult | src/field_types.h:50-53 | the vector built from a result holds exactly the result's column types, in order |
| FieldTypes.InitAppends | src/field_types.h:62-66 | assignment from a result appends instead of replacing: a field-less result changes nothing, and two assignments in turn append both type lists |
| FieldTypes.InsertDefaultsAdds | src/field_types.h:72-76 | the inserted defaults can be dropped to give back the original vector, and inserting i then j equals inserting i + j |
| Rows.DefaultRow | src/result.cpp:149-182 | the `Row()` the result classes hand back when there is no data is falsy, empty and has no names |
| Rows.Make | src/row.cpp:32-39 | a row built from data holds that data, those names and that exceptions flag, and is truthy |
| Rows.NameIndex | src/row.cpp:151-163 | the index looked up for a name is at most the number of names; below it, the entry there is the name and no earlier entry is |
| Rows.NameIndexFinds | src/row.cpp:151-163 | the looked-up index is in range iff the name is among the row's names |
| Rows.AtAsWritten | src/row.cpp:44-53 | as written, `at` returns the element iff the index is below `size()`; otherwise it throws `BadIndex("Row", int(i), int(size()))`, naming `size()` as the largest legal index |
| Rows.AtAsWrittenNamesIllegalMax | src/row.cpp:51 | `at(size())` throws a `BadIndex` naming `size()` both as the bad index and as the largest legal one |
| Rows.At | src/row.cpp:44-53 | `at(i)` returns the i-th value iff i < `size()`, whatever the exceptions flag, and otherwise throws `BadIndex("Row", int(i), size() - 1)` |
| Rows.AtReportsLargestLegalIndex | src/row.cpp:44-53 | the index the corrected `at` reports as largest legal is accepted, and the next one is rejected naming it |
| Rows.AtMinusOne | src/row.cpp:44-53 | `at(-1)` wraps to the largest `size_t`, is rejected, and is reported as index -1 |
| Rows.FieldNum | src/row.cpp:151-163 | with names, the name's index; without names, `BadFieldName(name)` when exceptions are on and 0 when off |
| Rows.ByName | src/row.cpp:178-192 | a lookup failure propagates; an index below `size()` yields that column; an index past it throws `BadFieldName`, or yields the empty value with exceptions off |
| Rows.ByNameMatchesNames | src/row.cpp:178-192 | with one name per column, a present name yields the column at its (first) position, and an absent one the exception or the empty value |
| Rows.ByNameWithoutNames | src/row.cpp:151-163 | a row without names and with exceptions off answers every name with its first column |
| Rows.Assign | src/row.cpp:166-175 | assignment copies the data and the initialized flag, keeps the left-hand exceptions flag, and leaves an empty name list when the right-hand row has none |
| Rows.AssignCopiesColumns | src/row.cpp:166-175 | after assignment, `at` answers every index as the right-hand row does, and truthiness follows the right-hand row |
| Results.DefaultSimple | src/result.h:59-64 | a default `SimpleResult` is falsy, with insert id and row count 0 |
| Results.NamesOf | src/result.cpp:43 | the names built for a result are its fields' names, one per field, in order |
| Results.EmptyBase | src/result.h:163-167 | a default `ResultBase` has no driver, no fields and the cursor at 0 |
| Results.NewBase | src/result.cpp:36-46 | the driver is kept iff `res` is non-null; with a driver, the fields are the fetched ones and the names and types are built from them; without one, the result is the empty one |
| Results.Copy | src/result.cpp:49-72 | a self-copy changes nothing; otherwise the exceptions flag is copied, and the rest is copied from a source with a driver or reset to empty |
| Results.SelfCopyGuardMatters | src/result.cpp:51 | without the self-copy guard, copying a driverless result onto itself would reset its moved cursor |
| Results.CopyIdempotent | src/result.cpp:49-72 | copying twice from the same source equals copying once, and copying a freshly built result yields that result |
| Results.FetchField | src/result.h:119-120 | `fetch_field()` returns the field under the cursor iff the cursor is in range, else throws `out_of_range`; the cursor advances either way |
| Results.FieldAt | src/result.h:123-127 | `fetch_field(i)` and `field(i)` return field i iff i is in range |
| Results.FieldSeek | src/result.h:336-337 | the cursor update behind `field_seek(f)`: the cursor is at f and nothing else in the base changes |
| Results.FetchFieldWalks | src/result.h:119-120 | after seeking to f, two `fetch_field()` calls return fields f and f + 1 and leave the cursor at f + 2 |
| Results.NumFields | src/result.h:155 | `num_fields()` is the number of fields |
| Results.Table | src/result.h:158-159 | `table()` is "" without fields and the first field's table otherwise |
| Results.NewBaseReportsFields | src/result.cpp:36-46 | a result built with a driver reports the fetched fields' count, their types in order, and the first one's table |
| Results.FieldNumAsWritten | src/result.cpp:75-89 | as written, `field_num` throws iff the name is missing and exceptions are on; otherwise it returns the name's index cast to `int`, which for fewer than 2^31 names is the first position holding the name, or the number of names when it is missing |
| Results.FieldNumAsWrittenMissesMinusOne | src/result.cpp:78-85 | with exceptions off, a missing name is answered with the number of names rather than -1 |
| Results.FieldNum | src/result.cpp:75-89 | a present name yields an in-range index whose name is that name; a missing one throws `BadFieldName` with exceptions on and yields -1 with them off |
| Results.FieldNumInvertsFieldName | src/result.h:133-134 | `field_num(field_name(i)) == i` whenever no earlier field carries the same name |
| Results.NumRows | src/result.h:250 | `num_rows()` is the number of rows held |
| Results.BlankRows | src/result.cpp:93-94 | `vector<Row>(n)` holds n default rows |
| Results.DefaultStore | src/result.h:226-230 | a default `StoreQueryResult` is falsy, with no rows and no fields |
| Results.NewStore | src/result.cpp:92-102 | the result is truthy iff both pointers are set and holds `num_rows` rows; when truthy the rows the driver returned come first and default rows fill the rest, and otherwise all rows are default rows |
| Results.TruthyPrefix | src/result.cpp:100 | the rows a `while (Row r = ...)` loop reads: a prefix, all truthy, ending at the first falsy row |
| Results.TruthyPrefixStopsAtFalsy | src/result.cpp:100 | truthy rows followed by a falsy row read back as exactly those truthy rows |
| Results.NewStoreReadsBackFetched | src/result.cpp:92-102 | reading a truthy store up to its first falsy row gives back exactly the rows the driver returned; a falsy store reads as empty |
| Results.StoreCopy | src/result.cpp:105-115 | a self-copy changes nothing; otherwise rows, truthiness and the base part are copied |
| Results.StoreAssign | src/result.h:254-255 | after assignment from another result, truthiness and row count are the source's, and the result is the copy `copy(other)` makes |
| Results.StoreAssignCopiesAll | src/result.cpp:105-115 | assigning a result with a driver yields an equal copy |
| Results.DefaultUseAsWritten | src/result.h:286-289 | as written, a default `UseQueryResult` leaves `pimpl_` indeterminate |
| Results.DefaultUseAsWrittenMayBeTruthy | src/result.h:286-289 | such a result can test true |
| Results.DefaultUse | src/result.h:286-289 | with `pimpl_` null, a default `UseQueryResult` is falsy, driverless and field-less |
| Results.NewUse | src/result.cpp:118-122 | the result is truthy iff `res` is non-null, and its base is built as `ResultBase(res, dbd, te)` |
| Results.UseCopy | src/result.cpp:125-139 | a self-copy changes nothing; otherwise `pimpl_` and the base part are copied |
| Results.UseAssign | src/result.h:305-306 | after assignment, truthiness is the source's, and from another result the outcome is the copy `copy(other)` makes |
| Results.UseFieldSeek | src/result.h:336-337 | `field_seek` moves the cursor and changes nothing else: the handle, fields, names, types and exceptions flag are kept |
| Results.FetchRow | src/result.cpp:149-182 | without `pimpl_`: `UseQueryError("Results not fetched")` or the default row; a falsy driver row is the end, not an error, and gives the default row; a row with lengths is returned; one without throws `UseQueryError("Failed to get field lengths")` or gives the default row |
| Results.FetchRowTruthyIff | src/result.cpp:149-182 | the row is truthy iff there is a result, the driver produced a row, and its lengths are known; it throws only with exceptions on, and only `UseQueryError` |
| Results.StoreResultOf | src/mysql/driver.h:415-425 | `store_result()` is truthy iff `mysql_store_result` returned a result, and then holds `mysql_num_rows` rows and points at the driver |
| Results.UseResultOfAsWritten | src/mysql/driver.h:494-503 | as written, a successful `use_result()` is truthy and a failed one has an indeterminate `pimpl_` |
| Results.FailedUseResultMayLookSuccessful | src/mysql/driver.h:501-502 | a failed `use_result()` can test true |
| Results.UseResultOf | src/mysql/driver.h:494-503 | `use_result()` is truthy iff `mysql_use_result` returned a result, and then carries the driver and the fetched fields |
| Results.FailedUseResultRefusesRows | src/result.cpp:149-157 | `fetch_row()` on a failed `use_result()` throws "Results not fetched" whatever the driver would return |

## Left out

- The MySQL C API (`mysql_real_connect`, `mysql_options`, `mysql_real_escape_string`, `mysql_fetch_*` and the rest) is foreign code. Its return values are inputs: a `CApi` record of result functions, return codes, and the fields and rows a driver fetches.
- src/beemutex.cpp is an operating-system mutex wrapper whose point is concurrency; `MutexFailed` is kept only for its default message.
- The connection pool implementation (cpool.h and cpool.cpp) is not part of this model. It is replaced by an abstract in-use set whose contract is what test/cpool.cpp asserts. Locking, idle-time expiry (the sleeps in test/cpool.cpp:84-94) and the ping inside `safe_grab` are left out.
- ConnectionPool.SafeGrab: it is modelled as a `grab` that may not be refused, so the check that the connection is still alive is not modelled.
- ConnectionPool.ShrinkAfterReleasingAll: it states that the pool is empty after everything is released and `shrink()` runs. Expiry of idle connections by wall-clock time is not modelled.
- TCP address parsing: tcp_connection.cpp is not part of this model.
- src/options.cpp is double dispatch from `Option::set` to `set_option_impl`. It is folded into the option-kind tag, and the handler is applied to the tag directly.
- The following are thin wrappers or declarations whose bodies live in files that are not part of this model, and are left out:
  - sqlstream;
  - sql_buffer;
  - connection.h;
  - stream2string.h, null.cpp, myset.cpp and utility.h;
  - the generator headers.
- The platform sizes of sql_types.h are left out. Its aliasing of C++ types is modelled, because the type maps depend on it.
- MySQLDriver.Impl: the connected branches of MultiResults and MultiStatements return nothing in the source. This is undefined behaviour, recorded by `ImplAsWritten`; `Impl` returns the result of `set_multi_statements_option` there.
- `MySQLDriver::fetch_row` (src/mysql/driver.h:207-215) runs off its end when `mysql_fetch_row` returns null. That is undefined behaviour, so the driver's row is an input to `Results.FetchRow`, and a falsy row stands for the end of data.
- MySQLFieldTypes.BaseOf: `base_type` has no default, so a code the switch does not list is undefined behaviour. The only such code in the model is NEWDATE before C API version 5.0, which the precondition excludes.
- MySQLFieldTypes.Deref: `deref()` indexes the table with `base_type_` unchecked, so the precondition requires a valid index. A type built from a C API code can carry a base that is not an index; see `CTypeOfApiBuiltType`.
- Rows.Assign: `operator=` clears the left-hand name vector and then copies into its beginning. That overruns the vector whenever the right-hand row has names, which is undefined behaviour, so the contract states the names only for the empty case. Both rows must carry name vectors, which the operator dereferences.
- Rows.NameIndex: `FieldNames::operator[]` is not part of this model. Lookup is modelled as the position of the first entry equal to the name.
- Rows.DefaultRow: row.h is not part of this model. A default `Row` is taken to be empty, falsy and without names, with truthiness meaning `initialized_`.
- Rows.DefaultRow: the exceptions flag of a default-constructed `Row` is assumed to be on, the library's usual default. `Results.BlankRows` and `Results.FetchRow` use this one default row.
- Results.NewStore: the row-filling loop writes past the `num_rows` rows allocated if the driver returns more. The precondition requires the fetched rows to fit. The assignment `*it++ = row` is `Row::operator=`, which keeps the blank row's exceptions flag and dereferences the blank row's missing name vector; the model stores the fetched row as a plain copy instead.
- Results.FetchRow: with `pimpl_` set and `driver_` null, `driver_->fetch_row` dereferences a null pointer (src/result.cpp:160). The precondition excludes that case.
- Results.UseCopy: copies share `pimpl_`, and each destructor deletes it. That double delete is undefined behaviour, and destruction is not modelled.
- Results.FetchField: `vector::at`'s exception text is the standard library's. It is modelled as `out_of_range("vector::at")`.
- Exceptions.NewBadConversion: the source builds `data` from `d` before testing `d` for null, which is undefined behaviour for a null `d`. The precondition requires a non-null `d`.
- MySQLDriver.EscapeArguments: `strlen` of an unterminated string and reading past the given length are undefined behaviour. The preconditions exclude them.
- DBDriver.ApplyPending: `set_option` appends to `pending_options_` (a `std::deque`, src/dbdriver.h:367) while `apply_pending_options` walks it with an iterator (src/dbdriver.cpp:59-62). `push_back` invalidates that iterator, so the source's behaviour is undefined there. The model replays a snapshot of the queue and then clears it, so an option deferred again is dropped; `DBDriver.ApplyPendingKeepingDeferred` is the intended version.
- DBDriver.SetOption: an option the handler rejects is destroyed, but the pending queue may still hold the pointer during replay. Under value semantics the queue keeps the option.
- Copy construction and assignment of `FieldType` and of the exception classes copy every member. Under value semantics they are the identity, so they have no members of their own.
- FieldTypes.Sized: a negative count, which `std::vector` would reject, cannot be passed, because the count is a `nat`.
- FieldTypes.InsertDefaults: `operator=(int i)` accepts a negative `i`, which converts to a huge `size_type` and makes `insert` throw `std::length_error`. The count is a `nat`, so that path is not modelled.
- FieldTypeInfo.Annotate: the `AnnotatedFT` structure is not part of this model. Its entries are assumed to default to `tf_default` flags and `best_guess` on.
- FieldTypeInfo.Rows: `ft_datetime` is `ft_FIRST_UNUSED + 0`, that is 4 (src/mysql/ft.h:148); the other enumerators the table uses, which the headers here do not declare (`ft_date`, `ft_time`, `ft_enum`, `ft_set`, `ft_null`, `ft_decimal`, `ft_timestamp`, `ft_unsupported`) get the codes 5 to 12, chosen by the model.
- In src/mysql/ft.h the header calls the base-type switch `type()`, while src/mysql/ft.cpp defines it as `base_type()`. The model follows the `.cpp` body as `MySQLFieldTypes.BaseOf`.

## Findings

| source | as written | input that shows it | evidently intended | confidence | as-written member | corrected member |
|---|---|---|---|---|---|---|
| src/mysql/driver.cpp:76-81 | `connect` assigns `is_connected_` only after the base hook returns, and the base hook (src/dbdriver.cpp:75) requires `is_connected_` already true | any connect whose pending options apply and whose handshake succeeds ends disconnected | connect succeeds iff the pending options apply and `mysql_real_connect` returns the handle | not executed | MySQLDriver.ConnectAsWrittenNeverConnects | MySQLDriver.ConnectSucceedsIffHandshake |
| src/dbdriver.h:278-286 | `typeid(o)` and `typeid(*it)` are both `typeid(Option*)`, so every applied entry matches | `set_option_default(ConnectTimeout)` after a Compress option was applied drops the new option | skip only when an option of the same kind is already applied | not executed | DBDriver.DefaultAsWrittenDropsOtherKind | DBDriver.SetOptionDefaultIdempotent |
| src/mysql/driver.cpp:301-332 | connected MultiResults and MultiStatements call `set_multi_statements_option` and fall off the end without returning | `set_option(MultiStatements(true))` while connected on a 5.0 build | return `set_multi_statements_option`'s result | not executed | MySQLDriver.MultiStatementsConnectedReturnsNothing | MySQLDriver.ImplConnectedMultiStatements |
| src/mysql/driver.h:284 | `more_results` and `next_result` are gated on `MYSQL_VERSION_ID > 41000`, which excludes every 4.1.x release | C API version 40120 reports no more results and "not supported" | enable from 4.1 (`>= 40100`), as the comments say | not executed | MySQLDriver.VersionGateExcludesMySQL41 | MySQLDriver.VersionGatesAgreeFrom50 |
| src/field_type.h:159 | `id()` truncates `(flags << 8) \| base` to `unsigned short`, so flags from 256 up are lost, and `==` and `<` compare these ids | an integer type with `tf_primary_key` (256) set has the same id as the plain integer type, so the two compare equal | ids that keep every flag, so `==` means equal base and flags | not executed | FieldTypeInfo.IdLosesHighFlags | FieldTypeInfo.EqualIsStructural |
| src/result.cpp:78-85 | the outer test already requires `throw_exceptions()`, so the `return -1` branch is dead and a missing name comes back as `names_->size()` | exceptions off, names `["id"]`, `field_num("name")` gives 1 | -1 for a missing name when exceptions are off | not executed | Results.FieldNumAsWrittenMissesMinusOne | Results.FieldNumInvertsFieldName |
| src/result.h:286-289 | the default `UseQueryResult` leaves `pimpl_` uninitialised, so a failed `use_result()` (src/mysql/driver.h:501-502) may test true | a failed `use_result()` whose stack slot held a non-null value | `pimpl_(0)`, so a failed `use_result()` is falsy | not executed | Results.FailedUseResultMayLookSuccessful | Results.FailedUseResultRefusesRows |
| src/row.cpp:51 | `at` passes `size()` as the "max legal index" of its `BadIndex` | `at(3)` on a 3-column row says the max legal index is 3, which `at` rejects | `size() - 1` | not executed | Rows.AtAsWrittenNamesIllegalMax | Rows.AtReportsLargestLegalIndex |
| src/dbdriver.cpp:59-62 | an option `set_option` defers again during the replay is pushed onto the deque being walked (undefined behaviour) and then removed by `clear()`, so it is never applied | a 5.1.0 build, `ReconnectOption(true)` set before `connect()`: the replay before the handshake defers it again and clears the queue, so `mysql_options` never sees it | the deferred option stays queued and is applied once the connection is up | not executed | MySQLDriver.QueuedReconnectDiscarded | MySQLDriver.QueuedReconnectApplied |
