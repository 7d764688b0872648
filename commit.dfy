/** Committing a transaction (src/engine/transaction/commit.rs). */
module TransactionCommit {
  import opened Wrappers
  import opened Utf8
  import opened Marshal
  import opened Errors
  import opened EngineCore
  import opened Instance
  import opened EntryPoints
  import opened Backend
  import opened Transaction

  /** What a successful commit answers: an empty JSON object. */
  const CommitAnswer := "{}"

  /**
   * `Engine::commit_transaction` under the read lock: only a connected engine
   * commits; the transaction id goes to the executor unchanged; success is
   * `{}` and a refusal is a successful result holding the serialized
   * user-facing error.
   */
  function EngineCommitTransaction(inner: Inner, txId: string, b: Collaborators): (r: Result<string, ApiError>)
    ensures inner.Builder? ==> r == Err(NotConnected)
    ensures inner.Connected? ==>
              var committed := b.commitTx(inner.engine.executor, txId);
              && (committed.Ok? ==> r == Ok(CommitAnswer))
              && (committed.Err? ==> r == MapKnownError(committed.error, b.toUserFacing, b.serializeUserFacing))
    ensures r.Err? ==> r.error == NotConnected || r.error.JsonDecode?
  {
    match AsEngine(inner)
    case Err(e) => Err(e)
    case Ok(engine) =>
      match b.commitTx(engine.executor, txId)
      case Ok(_) => Ok(CommitAnswer)
      case Err(err) => MapKnownError(err, b.toUserFacing, b.serializeUserFacing)
  }

  /**
   * The `commit_transaction` entry point: the transaction id is read with
   * `c_char_to_string` (an empty id is passed on as it is) before the handle
   * is looked up; an unknown handle gives `Connector("Engine not found")`;
   * otherwise the engine's result is delivered.
   */
  method ExternCommitTransaction(registry: Registry, id: i64, txId: seq<byte>, b: Collaborators)
    returns (o: Outcome<seq<byte>>)
    requires 0 in txId
    ensures CCharToString(txId).Err? ==> o == Aborted(InvalidUtf8)
    ensures CCharToString(txId).Ok? && registry.Get(id).None? ==> o == Error(EngineNotFound)
    ensures CCharToString(txId).Ok? && registry.Get(id).Some? ==>
              o == DeliverText(EngineCommitTransaction(registry.Get(id).value.inner, CCharToString(txId).value, b))
  {
    var text := CCharToString(txId);
    if text.Err? {
      return Aborted(text.error);
    }
    var engine := registry.Get(id);
    if engine.Some? {
      var result := EngineCommitTransaction(engine.value.inner, text.value, b);
      o := DeliverText(result);
    } else {
      o := Error(EngineNotFound);
    }
  }
}
