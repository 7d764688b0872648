/**
 * The per-instance state machine (src/engine/core.rs).  An engine is either a
 * builder, holding what is needed to connect, or connected, holding the live
 * executor and query schema as well as everything needed to go back to a
 * builder.  The structure `Engine` itself and its `connect`, `disconnect` and
 * `as_engine` are not part of this model; they are modelled here from their
 * callers: a write lock replaces the state, a read lock projects it, and the
 * outcomes of loading an executor and of re-parsing the schema are parameters.
 */
module EngineCore {
  import opened Wrappers
  import opened Errors

  /** The parsed schema (`dml::Datamodel`), opaque to the wrapper. */
  type Datamodel(==)
  /** The query schema built from the datamodel on connect, opaque. */
  type QuerySchema(==)
  /** The live executor of the external engine, opaque. */
  type Executor(==)
  /** The metrics registry, opaque. */
  type MetricRegistry(==)

  /** `EngineDatamodel`: the parsed schema together with the text it was parsed from. */
  datatype EngineDatamodel = EngineDatamodel(ast: Datamodel, raw: string)

  /** `ConnectedEngine`: what is needed to query, and to rebuild a builder on disconnect. */
  datatype ConnectedEngine = ConnectedEngine(
    datamodel: EngineDatamodel,
    querySchema: QuerySchema,
    executor: Executor,
    datasource: string,
    metrics: Option<MetricRegistry>)

  /** `EngineBuilder`: only the datamodel and the datasource; no executor, no query schema. */
  datatype EngineBuilder = EngineBuilder(datamodel: EngineDatamodel, datasource: string)

  /** `Inner`: exactly one of the two states. */
  datatype Inner = Builder(builder: EngineBuilder) | Connected(engine: ConnectedEngine)

  /** What the external engine produces when a builder connects successfully. */
  datatype Connection = Connection(querySchema: QuerySchema, executor: Executor, metrics: Option<MetricRegistry>)

  /** The state after a transition together with the transition's result. */
  datatype Transition = Transition(inner: Inner, result: Result<(), ApiError>)

  /** The builder projection, used by `connect`: fails with `AlreadyConnected` on a connected engine. */
  function AsBuilder(inner: Inner): (r: Result<EngineBuilder, ApiError>)
    ensures r.Ok? <==> inner.Builder?
    ensures r.Ok? ==> r.value == inner.builder
    ensures r.Err? ==> r.error == AlreadyConnected
  {
    match inner
    case Builder(b) => Ok(b)
    case Connected(_) => Err(AlreadyConnected)
  }

  /** `as_engine`, the connected projection used under a read lock: fails with `NotConnected` on a builder. */
  function AsEngine(inner: Inner): (r: Result<ConnectedEngine, ApiError>)
    ensures r.Ok? <==> inner.Connected?
    ensures r.Ok? ==> r.value == inner.engine
    ensures r.Err? ==> r.error == NotConnected
  {
    match inner
    case Builder(_) => Err(NotConnected)
    case Connected(e) => Ok(e)
  }

  /** For every state exactly one projection succeeds. */
  lemma ExactlyOneProjection(inner: Inner)
    ensures AsBuilder(inner).Ok? != AsEngine(inner).Ok?
  {
  }

  /**
   * `connect` under the write lock: requires the builder state; `load` is the
   * external engine loading an executor for the builder's datasource and
   * building the query schema.  Any failure leaves the state as it was.
   */
  function ConnectStep(inner: Inner, load: EngineBuilder -> Result<Connection, ApiError>): (t: Transition)
    ensures inner.Connected? ==> t == Transition(inner, Err(AlreadyConnected))
    ensures t.result.Ok? <==> inner.Builder? && load(inner.builder).Ok?
    ensures t.result.Err? ==> t.inner == inner
    ensures inner.Builder? && load(inner.builder).Err? ==> t.result == Err(load(inner.builder).error)
    ensures t.result.Ok? ==>
              && t.inner.Connected?
              && t.inner.engine.datamodel == inner.builder.datamodel
              && t.inner.engine.datasource == inner.builder.datasource
              && t.inner.engine.querySchema == load(inner.builder).value.querySchema
              && t.inner.engine.executor == load(inner.builder).value.executor
              && t.inner.engine.metrics == load(inner.builder).value.metrics
  {
    match AsBuilder(inner)
    case Err(e) => Transition(inner, Err(e))
    case Ok(b) =>
      match load(b)
      case Err(e) => Transition(inner, Err(e))
      case Ok(c) =>
        Transition(Connected(ConnectedEngine(b.datamodel, c.querySchema, c.executor, b.datasource, c.metrics)), Ok(()))
  }

  /**
   * `disconnect` under the write lock: requires the connected state; the
   * builder is rebuilt by parsing the kept schema text again (`reparse`, the
   * external schema parser, whose failure is an `ApiError` such as
   * `Conversion`) and the executor is dropped with the old state.  A failure
   * leaves the state as it was.
   */
  function DisconnectStep(inner: Inner, reparse: string -> Result<Datamodel, ApiError>): (t: Transition)
    ensures inner.Builder? ==> t == Transition(inner, Err(NotConnected))
    ensures t.result.Ok? <==> inner.Connected? && reparse(inner.engine.datamodel.raw).Ok?
    ensures t.result.Err? ==> t.inner == inner
    ensures inner.Connected? && reparse(inner.engine.datamodel.raw).Err? ==>
              t.result == Err(reparse(inner.engine.datamodel.raw).error)
    ensures t.result.Ok? ==>
              && t.inner.Builder?
              && t.inner.builder.datamodel
                 == EngineDatamodel(reparse(inner.engine.datamodel.raw).value, inner.engine.datamodel.raw)
              && t.inner.builder.datasource == inner.engine.datasource
  {
    match AsEngine(inner)
    case Err(e) => Transition(inner, Err(e))
    case Ok(c) =>
      var raw := c.datamodel.raw;
      match reparse(raw)
      case Err(e) => Transition(inner, Err(e))
      case Ok(ast) => Transition(Builder(EngineBuilder(EngineDatamodel(ast, raw), c.datasource)), Ok(()))
  }

  /**
   * No handle is single-use: from a builder, connect, disconnect and connect
   * again all succeed when the datasource can be reached and the schema text
   * parses, and the schema text and datasource survive the cycle.
   */
  lemma ConnectDisconnectConnect(inner: Inner, load: EngineBuilder -> Result<Connection, ApiError>,
                                 reparse: string -> Result<Datamodel, ApiError>)
    requires inner.Builder?
    requires forall b: EngineBuilder :: b.datasource == inner.builder.datasource ==> load(b).Ok?
    requires reparse(inner.builder.datamodel.raw).Ok?
    ensures var t1 := ConnectStep(inner, load);
            var t2 := DisconnectStep(t1.inner, reparse);
            var t3 := ConnectStep(t2.inner, load);
            t1.result.Ok? && t2.result.Ok? && t3.result.Ok? && t3.inner.Connected?
            && t3.inner.engine.datamodel.raw == inner.builder.datamodel.raw
            && t3.inner.engine.datasource == inner.builder.datasource
  {
    var t1 := ConnectStep(inner, load);
    var t2 := DisconnectStep(t1.inner, reparse);
    assert t2.inner.builder.datasource == inner.builder.datasource;
  }

  /** One engine instance: its state, replaced in place under the instance's lock. */
  class Engine {
    var inner: Inner

    /** A new engine starts as a builder. */
    constructor (builder: EngineBuilder)
      ensures inner == Builder(builder)
    {
      inner := Builder(builder);
    }

    /** `Engine::connect`: the transition of `ConnectStep`, applied in place. */
    method Connect(load: EngineBuilder -> Result<Connection, ApiError>) returns (result: Result<(), ApiError>)
      modifies this
      ensures Transition(inner, result) == ConnectStep(old(inner), load)
    {
      var t := ConnectStep(inner, load);
      inner := t.inner;
      result := t.result;
    }

    /** `Engine::disconnect`: the transition of `DisconnectStep`, applied in place. */
    method Disconnect(reparse: string -> Result<Datamodel, ApiError>) returns (result: Result<(), ApiError>)
      modifies this
      ensures Transition(inner, result) == DisconnectStep(old(inner), reparse)
    {
      var t := DisconnectStep(inner, reparse);
      inner := t.inner;
      result := t.result;
    }
  }
}
