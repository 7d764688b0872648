/** Starting a transaction (src/engine/transaction/start.rs). */
module TransactionStart {
  import opened Wrappers
  import opened Utf8
  import opened Marshal
  import opened Errors
  import opened EngineCore
  import opened Instance
  import opened EntryPoints
  import opened Backend
  import opened Transaction

  /**
   * `Engine::start_transaction` under the read lock: only a connected engine
   * starts a transaction; the input must parse before the executor is asked;
   * a refusal by the executor comes back as a successful result holding the
   * serialized user-facing error.
   */
  function EngineStartTransaction(inner: Inner, input: string, b: Collaborators): (r: Result<string, ApiError>)
    ensures inner.Builder? ==> r == Err(NotConnected)
    ensures inner.Connected? && b.parseTxInput(input).Err? ==> r == Err(FromSerde(b.parseTxInput(input).error))
    ensures inner.Connected? && b.parseTxInput(input).Ok? ==>
              var started := b.startTx(inner.engine.executor, inner.engine.querySchema, b.parseTxInput(input).value);
              && (started.Ok? ==> r == Ok(started.value))
              && (started.Err? ==> r == MapKnownError(started.error, b.toUserFacing, b.serializeUserFacing))
    ensures r.Err? ==> r.error == NotConnected || r.error.JsonDecode?
  {
    match AsEngine(inner)
    case Err(e) => Err(e)
    case Ok(engine) =>
      match b.parseTxInput(input)
      case Err(e) => Err(FromSerde(e))
      case Ok(txInput) =>
        match b.startTx(engine.executor, engine.querySchema, txInput)
        case Ok(txId) => Ok(txId)
        case Err(err) => MapKnownError(err, b.toUserFacing, b.serializeUserFacing)
  }

  /** Malformed input is rejected without asking the executor: the result does not depend on it. */
  lemma MalformedInputSkipsExecutor(inner: Inner, input: string, b: Collaborators,
                                    startTx: (Executor, QuerySchema, TxInput) -> Result<string, CoreError>)
    requires b.parseTxInput(input).Err?
    ensures EngineStartTransaction(inner, input, b.(startTx := startTx)) == EngineStartTransaction(inner, input, b)
  {
  }

  /**
   * A refused start is delivered through `done`, not `error`, whenever its
   * user-facing form serializes: the caller reads back exactly that JSON.
   */
  lemma RefusedStartIsDone(inner: Inner, input: string, b: Collaborators)
    requires inner.Connected? && b.parseTxInput(input).Ok?
    requires b.startTx(inner.engine.executor, inner.engine.querySchema, b.parseTxInput(input).value).Err?
    requires var err := b.startTx(inner.engine.executor, inner.engine.querySchema, b.parseTxInput(input).value).error;
             var json := b.serializeUserFacing(b.toUserFacing(err));
             json.Ok? && '\0' !in json.value
    ensures var err := b.startTx(inner.engine.executor, inner.engine.querySchema, b.parseTxInput(input).value).error;
            var o := DeliverText(EngineStartTransaction(inner, input, b));
            o.Done? && CCharToString(o.payload) == Ok(b.serializeUserFacing(b.toUserFacing(err)).value)
  {
  }

  /**
   * The `start_transaction` entry point: the input is read with
   * `c_char_to_string` before the handle is looked up; an unknown handle gives
   * `Connector("Engine not found")`; otherwise the engine's result is delivered.
   */
  method ExternStartTransaction(registry: Registry, id: i64, input: seq<byte>, b: Collaborators)
    returns (o: Outcome<seq<byte>>)
    requires 0 in input
    ensures CCharToString(input).Err? ==> o == Aborted(InvalidUtf8)
    ensures CCharToString(input).Ok? && registry.Get(id).None? ==> o == Error(EngineNotFound)
    ensures CCharToString(input).Ok? && registry.Get(id).Some? ==>
              o == DeliverText(EngineStartTransaction(registry.Get(id).value.inner, CCharToString(input).value, b))
  {
    var text := CCharToString(input);
    if text.Err? {
      return Aborted(text.error);
    }
    var engine := registry.Get(id);
    if engine.Some? {
      var result := EngineStartTransaction(engine.value.inner, text.value, b);
      o := DeliverText(result);
    } else {
      o := Error(EngineNotFound);
    }
  }
}
