# prisma-library: the C interface of the Prisma query engine, in Dafny

prisma-library wraps the Prisma query engine behind a C ABI. A host program
creates engines and gets back integer handles (`i64`). It then calls
`engine_connect`, `disconnect`, `query`, `start_transaction` and
`commit_transaction` with a handle, NUL-terminated UTF-8 strings and two
callbacks. Exactly one callback is invoked: `done` with the answer, or
`error` with an `ApiError`.

This project models that layer:

- **Marshaling** (`Utf8`, `Marshal`, `EntryPoints.TxIdParse`): C strings are byte
  sequences read up to their first NUL byte. `CStr::to_str` and
  `str::as_bytes` are a concrete UTF-8 codec following RFC 3629. The
  `unwrap`s in `c_char_to_string` and `string_to_c_char` become an explicit
  `Panic` value.
- **Errors** (`Errors`): `ApiError`, its constructors and every `From`
  conversion into it.
- **Engine state** (`EngineCore`): the builder/connected state, its two
  projections, and the connect and disconnect transitions. These are pure
  functions, and the `Engine` class is proved against them.
- **Instance registry** (`Instance`): the global handle counter and map, as
  a class. It is proved against a pure registry state.
- **Dispatchers** (`Connect`, `Disconnect`, `Query`, `TransactionStart`,
  `TransactionCommit`, `Transaction`): each extern function is a method
  returning an `Outcome`.
  - `Error(e)` or `Done(payload)` says which callback fires.
  - `Aborted(panic)` means an `unwrap` panicked before either callback.
  - The executor, the GraphQL handler and `serde_json` are function
    parameters, bundled in `Backend.Collaborators`.
- **Legacy engine** (`QueryEngine`): the self-contained earlier revision in
  `src/query_engine.rs`. It covers the constructor's check sequence, the JSON
  report made from schema diagnostics (with a reader that recovers every
  message) and the checks `connect` makes before loading an executor. The
  JSON string escaping follows `serde_json` (`JsonText`).

Points where the code behaves in ways a reader might not expect, and which the model follows:

- `query` and `start_transaction` decode their C-string argument before
  looking up the handle. A body or input that is not UTF-8 panics even for an
  unknown handle.
- `commit_transaction` reads the transaction id with `c_char_to_string`.
  Invalid UTF-8 therefore panics; it is not treated as a missing id. An empty
  id is passed to the executor.
- The GraphQL handler always yields a response. The only failure of a parsed
  query is that serializing its response fails (`JsonDecode`).
- Every error from `start_tx` or `commit_tx` goes through `map_known_error`
  and reaches `done` as JSON text. Only a failure to serialize that error
  reaches `error`.
- A handle is the counter value; its key in the map is `unsigned_abs` of it.
  Negative handles therefore alias positive keys on lookup.

## Model

| member | source | states |
|---|---|---|
| Utf8.EncodeChar | src/lib.rs:13-16 | a character encodes to 1 to 4 bytes, whose first byte is zero exactly for U+0000 and whose other bytes are continuation bytes |
| Utf8.Encode | src/lib.rs:13-16 | the bytes of a string, empty exactly for the empty string; Utf8.DecodeEncode and Utf8.EncodeDecode make it the inverse of the decoder |
| Utf8.DecodeFirst | src/lib.rs:8 | the first character and its length of 1 to 4 bytes, or nothing for a stray continuation byte, a truncated sequence, an overlong form, a surrogate or a value above U+10FFFF |
| Utf8.Decode | src/lib.rs:8 | the empty sequence decodes to the empty string; a decoded string is no longer than its bytes and starts with the first decoded character |
| Utf8.DecodeEncode | src/lib.rs:6-10 | decoding the UTF-8 encoding of any string gives the string back |
| Utf8.EncodeDecode | src/lib.rs:6-10 | every byte sequence accepted as UTF-8 is exactly the encoding of what it decodes to |
| Utf8.EncodeHasNul | src/lib.rs:13-16 | an encoding contains a zero byte if and only if the string contains U+0000 |
| Utf8.EncodeAppend | src/lib.rs:13-16 | encoding distributes over concatenation |
| Utf8.DecodeFirstEncodeChar | src/lib.rs:6-10 | the decoder reads back one encoded character and its length, whatever follows it |
| Utf8.EncodeCharDecodeFirst | src/lib.rs:6-10 | whatever the decoder accepts as one character is that character's encoding |
| Marshal.NulIndex | src/lib.rs:7 | the position of the first zero byte of a terminated buffer |
| Marshal.CStrBytes | src/lib.rs:7 | the bytes before the terminator, none of them zero |
| Marshal.CCharToString | src/lib.rs:6-10 | succeeds exactly when the bytes before the first NUL are valid UTF-8; the result encodes to those bytes and has no U+0000; otherwise it panics with invalid UTF-8 |
| Marshal.StringToCChar | src/lib.rs:13-16 | succeeds exactly when the string has no U+0000, giving its encoding plus one NUL; otherwise it panics at the first zero byte |
| Marshal.CStrBytesOfTerminated | src/lib.rs:7 | a buffer read as a C string stops at its first NUL |
| Marshal.CCharToStringStopsAtNul | src/lib.rs:6-10 | bytes after the terminator never affect the decoded string |
| Marshal.RoundTrip | src/lib.rs:6-16 | a string without U+0000 survives `string_to_c_char` then `c_char_to_string` unchanged |
| Marshal.RoundTripFromC | src/lib.rs:6-16 | a C string that decodes re-encodes to the same bytes and one NUL |
| EntryPoints.TxIdParse | src/engine/mod.rs:16-29 | no id exactly when the bytes are not UTF-8 or are empty; otherwise a non-empty string that encodes to the bytes before the NUL and agrees with `c_char_to_string` |
| EntryPoints.TxIdParseStopsAtNul | src/engine/mod.rs:16-29 | bytes after the terminator never affect the parsed id |
| EntryPoints.DeliverUnit | src/engine/connect.rs:19-24 | exactly one continuation fires: `done` if and only if the result is Ok, otherwise `error` with the result's error |
| EntryPoints.DeliverText | src/engine/query.rs:47-55 | an error reaches `error`; a text without U+0000 reaches `done` as a C string that reads back to the same text; a text with U+0000 panics, and no continuation fires |
| Errors.Fields | src/error.rs:9-17 | the state errors carry no text, `Conversion` carries two texts, every other variant one |
| Errors.MakeConversion | src/error.rs:20-26 | a conversion error carrying the first validation error's message and the schema text |
| Errors.MakeConfiguration | src/error.rs:28-30 | a configuration error carrying the message |
| Errors.FromUserFacing | src/error.rs:33-39 | a core error carrying the user-facing message |
| Errors.FromCore | src/error.rs:41-47 | a configuration error with its message if and only if the core error is one; otherwise a core error with the debug text |
| Errors.FromConnector | src/error.rs:50-66 | always a connector error, with the user-facing message when there is one and otherwise the debug text of the kind |
| Errors.FromUrlParse | src/error.rs:68-72 | a configuration error whose message is the connection-string prefix followed by the error text |
| Errors.FromConnectionString | src/error.rs:74-78 | a configuration error with the same shape as a URL parse error |
| Errors.FromSerde | src/error.rs:80-86 | a JSON decode error carrying the error text |
| Errors.ConnectionStringErrorsAgree | src/error.rs:68-78 | a URL error and a connection-string error convert to equal errors if and only if their texts are equal |
| Errors.ConversionsNeverStateErrors | src/error.rs:19-86 | no conversion yields `AlreadyConnected` or `NotConnected` |
| EngineCore.AsBuilder | src/engine/core.rs:30-37 | succeeds with the builder exactly in the builder state, otherwise `AlreadyConnected` |
| EngineCore.AsEngine | src/engine/core.rs:30-37 | succeeds with the connected engine exactly in the connected state, otherwise `NotConnected` |
| EngineCore.ExactlyOneProjection | src/engine/core.rs:30-37 | in every state exactly one of the two projections succeeds |
| EngineCore.ConnectStep | src/engine/core.rs:24-37 | connecting a connected engine fails with `AlreadyConnected`; connecting a builder succeeds if and only if loading succeeds; it then keeps the schema and datasource and installs the loaded executor; a failure leaves the state unchanged |
| EngineCore.DisconnectStep | src/engine/core.rs:8-37 | disconnecting a builder fails with `NotConnected`; disconnecting a connected engine succeeds if and only if its schema text parses again, and then returns to a builder with the re-parsed schema, the same text and the same datasource; a failure is the parser's error and leaves the state unchanged |
| EngineCore.ConnectDisconnectConnect | src/engine/core.rs:8-37 | from a builder whose datasource can be loaded and whose schema text parses, connect, disconnect and connect again each succeed; the schema text and the datasource survive the cycle |
| EngineCore.Engine.constructor | src/engine/core.rs:24-33 | a new engine starts in the builder state |
| EngineCore.Engine.Connect | src/engine/connect.rs:19 | the new state and the result are exactly those of the connect transition from the old state |
| EngineCore.Engine.Disconnect | src/engine/disconnect.rs:15 | the new state and the result are exactly those of the disconnect transition from the old state |
| Instance.UnsignedAbs | src/engine/instance.rs:26 | the key is the handle or its negation, and fits in 64 unsigned bits |
| Instance.UnsignedAbsNegation | src/engine/instance.rs:26 | a handle and its negation map to the same key |
| Instance.Inserted | src/engine/instance.rs:16-29 | inserting stores the engine under the counter value, which was unused; it keeps every earlier entry, advances the counter by one and keeps keys below the counter |
| Instance.InsertedAll | src/engine/instance.rs:16-29 | a series of inserts keeps every key below the counter |
| Instance.InsertedAllFromEmpty | src/engine/instance.rs:13-29 | from the initial registry, the i-th inserted engine is stored under key i, and the keys are exactly 0 to n-1 |
| Instance.InsertedAllFrom | src/engine/instance.rs:13-29 | a series of inserts stores the i-th engine under the old counter plus i and keeps every earlier entry |
| Instance.Registry.constructor | src/engine/instance.rs:10-13 | the registry starts empty with the counter at zero |
| Instance.Registry.Insert | src/engine/instance.rs:16-29 | returns the old counter as a non-negative handle whose key was unused; the new state is the pure insert of the old state |
| Instance.Registry.Get | src/engine/instance.rs:32-34 | finds an engine exactly when the handle's key is present; a handle at or beyond the counter finds nothing |
| Transaction.MapKnownError | src/engine/transaction/mod.rs:6-11 | succeeds with the serialized user-facing error exactly when serialization succeeds; otherwise a JSON decode error |
| Connect.EngineConnect | src/engine/connect.rs:9-30 | exactly one continuation fires; an unknown handle gives `Connector("Engine not found")`; otherwise the engine takes the connect transition and its result is delivered |
| Disconnect.ExternDisconnect | src/engine/disconnect.rs:6-26 | exactly one continuation fires; an unknown handle gives `Connector("Engine not found")`; otherwise the engine takes the disconnect transition and its result is delivered |
| Query.EngineQuery | src/engine/query.rs:11-27 | an unconnected engine gives `NotConnected`; a body that does not parse gives the JSON decode error of the parser; otherwise the handler runs on the engine's executor, schema, query and transaction id, and the answer is Ok with its serialized response exactly when serialization succeeds, and otherwise the JSON decode error of the serializer |
| Query.MalformedBodySkipsHandler | src/engine/query.rs:16 | when the body does not parse, the handler is never consulted |
| Query.ExternQuery | src/engine/query.rs:32-61 | a body that is not UTF-8 panics before the lookup; an unknown handle gives `Connector("Engine not found")`; otherwise the engine's result, with the parsed transaction id, is delivered as text |
| TransactionStart.EngineStartTransaction | src/engine/transaction/start.rs:16-41 | an unconnected engine gives `NotConnected`; input that does not parse gives a JSON decode error; otherwise the id of the started transaction, or the known-error mapping of its failure |
| TransactionStart.MalformedInputSkipsExecutor | src/engine/transaction/start.rs:22 | when the input does not parse, `start_tx` is never consulted |
| TransactionStart.RefusedStartIsDone | src/engine/transaction/start.rs:35 | a refused start whose error serializes is answered through `done` with that JSON text |
| TransactionStart.ExternStartTransaction | src/engine/transaction/start.rs:46-70 | input that is not UTF-8 panics before the lookup; an unknown handle gives `Connector("Engine not found")`; otherwise the engine's result is delivered as text |
| TransactionCommit.EngineCommitTransaction | src/engine/transaction/commit.rs:18-32 | an unconnected engine gives `NotConnected`; a successful commit answers `{}`; a failed one answers its known-error mapping |
| TransactionCommit.ExternCommitTransaction | src/engine/transaction/commit.rs:37-62 | a transaction id that is not UTF-8 panics before the lookup; an unknown handle gives `Connector("Engine not found")`; otherwise the engine's result is delivered as text |
| JsonText.Escape | src/query_engine.rs:96-101 | the escaped text of a string is at least as long as the string and empty only for the empty string; JsonText.ReadEscaped reads it back |
| JsonText.RenderString | src/query_engine.rs:96-101 | a string literal: the escaped text between two quotes; JsonText.ReadRenderedString reads it back |
| JsonText.RenderArray | src/query_engine.rs:96-101 | an array literal, opening with `[` and closing with `]`; JsonText.ReadRenderedArray reads back the same strings in order |
| JsonText.EscapeChar | src/query_engine.rs:96-101 | a character is written as 1 to 6 characters, never starting with a quote; it is written as itself exactly when it takes one character |
| JsonText.ReadEscaped | src/query_engine.rs:96-101 | the reader recovers any escaped text, whatever follows the closing quote |
| JsonText.ReadRenderedString | src/query_engine.rs:96-101 | a rendered JSON string reads back to the same string and leaves the rest of the text |
| JsonText.ReadRenderedTail | src/query_engine.rs:96-101 | the rest of a rendered array reads back to the same strings |
| JsonText.ReadRenderedArray | src/query_engine.rs:96-101 | a rendered array of strings reads back to the same strings, in order |
| QueryEngine.AsBuilder | src/query_engine.rs:42-47 | succeeds with the builder exactly in the builder state, otherwise `AlreadyConnected` |
| QueryEngine.AsConnected | src/query_engine.rs:49-54 | succeeds with the connected engine exactly in the connected state, otherwise `NotConnected` |
| QueryEngine.ExactlyOneProjection | src/query_engine.rs:41-55 | in every state exactly one of the two projections succeeds |
| QueryEngine.Messages | src/query_engine.rs:88-94 | one message per diagnostic, in order |
| QueryEngine.Report | src/query_engine.rs:96-101 | the text of the `{"errors": ..., "warnings": ...}` object, starting with the errors key and closing with `}`; QueryEngine.ReadRenderedReport reads both lists back |
| QueryEngine.DiagnosticsError | src/query_engine.rs:86-106 | diagnostics always become a `Json` error |
| QueryEngine.DiagnosticsErrorKeepsMessages | src/query_engine.rs:86-106 | the report reads back to exactly the error messages and the warning messages, each in order |
| QueryEngine.ReadRenderedReport | src/query_engine.rs:96-101 | any two lists of messages read back from their report |
| QueryEngine.SchemaChecks | src/query_engine.rs:133-148 | a schema with errors is rejected with its own diagnostics; otherwise a failed URL resolution is rejected with the resolver's diagnostics, and then a failed one-datasource check with that check's diagnostics; the checks pass if and only if none fails, and the result is then the resolved configuration |
| QueryEngine.InvalidSchemaSkipsResolution | src/query_engine.rs:133-136 | a schema with errors is rejected without consulting URL resolution |
| QueryEngine.Construct | src/query_engine.rs:110-162 | the environment, then the options, each panic when not UTF-8 and then when not JSON, in that order; a response comes back if and only if both decode and parse; a failed check gives the JSON report of its diagnostics; otherwise the engine starts as a builder holding the resolved schema, the configuration directory and the environment, and passes the connect checks when the one-datasource check only accepts configurations with a datasource |
| QueryEngine.ConnectChecks | src/query_engine.rs:166-180 | a connected engine gives `AlreadyConnected` before any datasource is read; a builder with no datasource gives `Configuration("No datasource provided")`; otherwise the builder and its first datasource |
| QueryEngine.ConstructedEngineCanConnect | src/query_engine.rs:146-180 | an engine built from a configuration that passed the constructor's checks passes the connect checks and connects to the first datasource of the resolved configuration, when the one-datasource check only accepts configurations with a datasource |

## Left out

- Locks, `async`, `block_on` and the tokio runtime: the model treats every operation, `insert` included, as atomic. The dispatchers hold the registry's write lock from the lookup to the callback. `insert`, however, reads and increments the `static mut NEXT_ID` (src/engine/instance.rs:17-22) before it takes the lock at line 24. Two concurrent inserts can therefore receive the same id, and the second overwrites the first entry. Instance.Registry.Insert's facts that the key was unused and that ids are never reused hold only when inserts do not overlap.
- `async_panic_to_error`: it is not part of this model. Panics inside the engine's futures are not modelled.
- Raw pointer ownership (`into_raw`, `Box::from_raw`) and freeing of returned strings.
- Errors.MakeConversion: requires at least one validation error. The panic of `first().unwrap()` on diagnostics with no errors (src/error.rs:21) is not modelled; its only callers (src/dmmf.rs:13-17, outside this model) pass the diagnostics of a failed parse, which hold at least one error.
- Interior-NUL panics in `string_to_c_char` while an `ApiError` message is being built: error texts are kept as strings.
- Instance.Registry.Insert: requires the counter to be below `i64::MAX`. Overflow after 2^63 inserts is not modelled; it would panic in debug builds and wrap in release builds.
- The `Engine` struct, `Engine::connect`, `Engine::disconnect` and `Inner::as_engine` are not part of this model's source files. They are modelled from their use in the dispatchers: a state behind a lock, with the outcomes of loading an executor and of re-parsing the schema text as parameters.
- The executor (`start_tx`, `commit_tx`), `GraphQlHandler`, `load_executor`, `psl::validate`, URL resolution and `serde_json` parsing and serialization are function parameters. Their own behaviour is not modelled.
- `PrismaError` and its `to_c_char` are not part of this model's source files. Only the variants used in `src/query_engine.rs` are modelled, and the error text is kept as a string.
- `prisma_query_engine_constructor` uses `?` in a function that does not return a `Result`. The model takes the evident intent: each failed check returns the diagnostics response at once.
- `prisma_query_engine_connect` (src/query_engine.rs:166-223) does not compile. After the checks at lines 170-180, its body refers to undefined names and never finishes. Only those checks are modelled.
- `ConnectedEngine::executor` and `ConnectedEngine::query_schema` in `src/query_engine.rs` are plain field reads.
- The datasource overrides are passed to URL resolution as a map; the sorted `Vec` it is turned into carries the same pairs.
- Preview features, the metrics registry's behaviour and the query schema builder are opaque.
- build.rs, src/version.rs, src/schema.rs, src/schema/format.rs, src/dmmf.rs and src/engine/create.rs are outside this model. Engines enter the registry only through Instance.Registry.Insert.
