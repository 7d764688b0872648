/** Running a query (src/engine/query.rs). */
module Query {
  import opened Wrappers
  import opened Utf8
  import opened Marshal
  import opened Errors
  import opened EngineCore
  import opened Instance
  import opened EntryPoints
  import opened Backend

  /**
   * `Engine::query` under the read lock: only a connected engine answers; the
   * body must parse before the handler runs; the answer is the handler's
   * response as JSON text.
   */
  function EngineQuery(inner: Inner, body: string, txId: Option<string>, b: Collaborators): (r: Result<string, ApiError>)
    ensures inner.Builder? ==> r == Err(NotConnected)
    ensures inner.Connected? && b.parseQuery(body).Err? ==> r == Err(FromSerde(b.parseQuery(body).error))
    ensures r.Ok? ==>
              && inner.Connected?
              && b.parseQuery(body).Ok?
              && var response := b.handle(inner.engine.executor, inner.engine.querySchema, b.parseQuery(body).value, txId);
                 b.serializeResponse(response) == Ok(r.value)
    ensures inner.Connected? && b.parseQuery(body).Ok? ==>
              var response := b.handle(inner.engine.executor, inner.engine.querySchema, b.parseQuery(body).value, txId);
              && (b.serializeResponse(response).Ok? ==> r == Ok(b.serializeResponse(response).value))
              && (b.serializeResponse(response).Err? ==> r == Err(FromSerde(b.serializeResponse(response).error)))
    ensures r.Err? ==> r.error == NotConnected || r.error.JsonDecode?
  {
    match AsEngine(inner)
    case Err(e) => Err(e)
    case Ok(engine) =>
      match b.parseQuery(body)
      case Err(e) => Err(FromSerde(e))
      case Ok(query) =>
        var response := b.handle(engine.executor, engine.querySchema, query, txId);
        match b.serializeResponse(response)
        case Ok(text) => Ok(text)
        case Err(e) => Err(FromSerde(e))
  }

  /** A body that does not parse is rejected without the handler: the result does not depend on it. */
  lemma MalformedBodySkipsHandler(inner: Inner, body: string, txId: Option<string>, b: Collaborators,
                                  handle: (Executor, QuerySchema, QueryDocument, Option<string>) -> Response)
    requires b.parseQuery(body).Err?
    ensures EngineQuery(inner, body, txId, b.(handle := handle)) == EngineQuery(inner, body, txId, b)
  {
  }

  /**
   * The `query` entry point: the body is read with `c_char_to_string` and the
   * transaction id with `tx_id_parse` before the handle is looked up; an
   * unknown handle gives `Connector("Engine not found")`; otherwise the
   * engine's result is delivered.  The engine's state is only read.
   */
  method ExternQuery(registry: Registry, id: i64, body: seq<byte>, txId: seq<byte>, b: Collaborators)
    returns (o: Outcome<seq<byte>>)
    requires 0 in body && 0 in txId
    ensures CCharToString(body).Err? ==> o == Aborted(InvalidUtf8)
    ensures CCharToString(body).Ok? && registry.Get(id).None? ==> o == Error(EngineNotFound)
    ensures CCharToString(body).Ok? && registry.Get(id).Some? ==>
              o == DeliverText(EngineQuery(registry.Get(id).value.inner, CCharToString(body).value, TxIdParse(txId), b))
  {
    var text := CCharToString(body);
    if text.Err? {
      return Aborted(text.error);
    }
    var tx := TxIdParse(txId);
    var engine := registry.Get(id);
    if engine.Some? {
      var result := EngineQuery(engine.value.inner, text.value, tx, b);
      o := DeliverText(result);
    } else {
      o := Error(EngineNotFound);
    }
  }
}
