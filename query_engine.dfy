/**
 * The earlier, self-contained revision of the engine (src/query_engine.rs):
 * its own state type and projections, the constructor with its sequence of
 * schema checks, and the checks `connect` makes before loading an executor.
 * Its error type `PrismaError` is not part of this model; the variants used
 * here are.
 */
module QueryEngine {
  import opened Wrappers
  import opened Utf8
  import opened Marshal
  import opened JsonText
  import Errors
  import EngineCore

  /** The variants of `PrismaError` raised in this file. */
  datatype PrismaError = AlreadyConnected | NotConnected | Configuration(message: string) | Json(message: string)

  /** A datasource block of the schema, opaque. */
  type Datasource(==, !new)

  /** The configuration part of a validated schema: its datasources, in order. */
  datatype PslConfiguration = PslConfiguration(datasources: seq<Datasource>)

  /** `psl::ValidatedSchema`: what validation found, and the configuration. */
  datatype ValidatedSchema = ValidatedSchema(diagnostics: Errors.Diagnostics, configuration: PslConfiguration)

  datatype EngineBuilder = EngineBuilder(schema: ValidatedSchema, configDir: string, environment: map<string, string>)

  datatype ConnectedEngine = ConnectedEngine(
    builder: EngineBuilder,
    querySchema: EngineCore.QuerySchema,
    executor: EngineCore.Executor)

  datatype Inner = Builder(builder: EngineBuilder) | Connected(engine: ConnectedEngine)

  /** `PrismaQueryEngine`: the state behind the engine's lock. */
  datatype PrismaQueryEngine = PrismaQueryEngine(inner: Inner)

  /** `ConstructorOptions`, as deserialized from the options argument. */
  datatype ConstructorOptions = ConstructorOptions(
    datamodel: string,
    datasourceOverrides: map<string, string>,
    configDir: string)

  /** `PrismaQueryEngineConstructorResponse`. */
  datatype ConstructorResponse = EngineOk(engine: PrismaQueryEngine) | EngineErr(error: PrismaError)

  /** The schema library and JSON parsing the constructor relies on. */
  datatype Psl = Psl(
    /** `serde_json::from_str` for the environment map. */
    parseEnvironment: string -> Result<map<string, string>, Errors.SerdeError>,
    /** `serde_json::from_str` for the constructor options. */
    parseOptions: string -> Result<ConstructorOptions, Errors.SerdeError>,
    /** `psl::validate`. */
    validate: string -> ValidatedSchema,
    /** `resolve_datasource_urls_query_engine`, which rewrites the configuration in place. */
    resolveDatasourceUrls: (PslConfiguration, map<string, string>, map<string, string>)
                           -> Result<PslConfiguration, Errors.Diagnostics>,
    /** `validate_that_one_datasource_is_provided`. */
    validateOneDatasource: PslConfiguration -> Result<(), Errors.Diagnostics>)

  /** `Inner::as_builder`: succeeds exactly on a builder, otherwise `AlreadyConnected`. */
  function AsBuilder(inner: Inner): (r: Result<EngineBuilder, PrismaError>)
    ensures r.Ok? <==> inner.Builder?
    ensures r.Ok? ==> r.value == inner.builder
    ensures r.Err? ==> r.error == AlreadyConnected
  {
    match inner
    case Builder(builder) => Ok(builder)
    case Connected(_) => Err(AlreadyConnected)
  }

  /** `Inner::as_connected`: succeeds exactly on a connected engine, otherwise `NotConnected`. */
  function AsConnected(inner: Inner): (r: Result<ConnectedEngine, PrismaError>)
    ensures r.Ok? <==> inner.Connected?
    ensures r.Ok? ==> r.value == inner.engine
    ensures r.Err? ==> r.error == NotConnected
  {
    match inner
    case Builder(_) => Err(NotConnected)
    case Connected(engine) => Ok(engine)
  }

  /** For every state exactly one of the two projections succeeds. */
  lemma ExactlyOneProjection(inner: Inner)
    ensures AsBuilder(inner).Ok? != AsConnected(inner).Ok?
  {
  }

  /** The messages of a list of diagnostics, in order. */
  function Messages(ds: seq<Errors.Diagnostic>): (r: seq<string>)
    ensures |r| == |ds| && forall i :: 0 <= i < |ds| ==> r[i] == ds[i].message
  {
    seq(|ds|, i requires 0 <= i < |ds| => ds[i].message)
  }

  const ErrorsKey := "{\"errors\":"
  const WarningsKey := ",\"warnings\":"

  /** The text of `json!({"errors": ..., "warnings": ...}).to_string()`. */
  function Report(errors: seq<string>, warnings: seq<string>): (r: string)
    ensures ErrorsKey <= r && r[|r| - 1] == '}'
  {
    ErrorsKey + (RenderArray(errors) + (WarningsKey + (RenderArray(warnings) + "}")))
  }

  /** The text after `key`, when `t` starts with it. */
  function AfterKey(key: string, t: string): (r: Option<string>)
    ensures r.Some? ==> t == key + r.value
  {
    if key <= t then Some(t[|key|..]) else None
  }

  lemma AfterKeyOf(key: string, rest: string)
    ensures AfterKey(key, key + rest) == Some(rest)
  {
    assert (key + rest)[|key|..] == rest;
  }

  /** Reads a report back into its two lists of messages. */
  function ReadReport(t: string): Option<(seq<string>, seq<string>)> {
    match AfterKey(ErrorsKey, t)
    case None => None
    case Some(t1) =>
      match ReadArray(t1)
      case None => None
      case Some((errors, t2)) =>
        match AfterKey(WarningsKey, t2)
        case None => None
        case Some(t3) =>
          match ReadArray(t3)
          case None => None
          case Some((warnings, t4)) => if t4 == "}" then Some((errors, warnings)) else None
  }

  /** `From<Diagnostics>`: a `Json` error whose text reports every error and warning message. */
  function DiagnosticsError(d: Errors.Diagnostics): (r: PrismaError)
    ensures r.Json?
  {
    Json(Report(Messages(d.errors), Messages(d.warnings)))
  }

  /** The report loses nothing: every error and every warning message reads back, each list in order. */
  lemma DiagnosticsErrorKeepsMessages(d: Errors.Diagnostics)
    ensures ReadReport(DiagnosticsError(d).message) == Some((Messages(d.errors), Messages(d.warnings)))
  {
    ReadRenderedReport(Messages(d.errors), Messages(d.warnings));
  }

  /** Any two lists of messages read back from their report. */
  lemma ReadRenderedReport(es: seq<string>, ws: seq<string>)
    ensures ReadReport(Report(es, ws)) == Some((es, ws))
  {
    var afterWarnings := RenderArray(ws) + "}";
    var afterErrors := WarningsKey + afterWarnings;
    var afterKey := RenderArray(es) + afterErrors;
    AfterKeyOf(ErrorsKey, afterKey);
    ReadRenderedArray(es, afterErrors);
    AfterKeyOf(WarningsKey, afterWarnings);
    ReadRenderedArray(ws, "}");
  }

  /**
   * The constructor's checks on a validated schema, in order: its own
   * diagnostics, then resolving datasource URLs (which yields the updated
   * configuration), then exactly one datasource.  The first failure is the result.
   */
  function SchemaChecks(schema: ValidatedSchema, overrides: map<string, string>,
                        environment: map<string, string>, psl: Psl): (r: Result<PslConfiguration, Errors.Diagnostics>)
    ensures |schema.diagnostics.errors| > 0 ==> r == Err(schema.diagnostics)
    ensures r.Ok? <==>
              && |schema.diagnostics.errors| == 0
              && psl.resolveDatasourceUrls(schema.configuration, overrides, environment).Ok?
              && psl.validateOneDatasource(psl.resolveDatasourceUrls(schema.configuration, overrides, environment).value).Ok?
    ensures r.Ok? ==> r == psl.resolveDatasourceUrls(schema.configuration, overrides, environment)
    ensures |schema.diagnostics.errors| == 0
            && psl.resolveDatasourceUrls(schema.configuration, overrides, environment).Err? ==>
              r == Err(psl.resolveDatasourceUrls(schema.configuration, overrides, environment).error)
    ensures |schema.diagnostics.errors| == 0
            && psl.resolveDatasourceUrls(schema.configuration, overrides, environment).Ok?
            && psl.validateOneDatasource(psl.resolveDatasourceUrls(schema.configuration, overrides, environment).value).Err? ==>
              r == Err(psl.validateOneDatasource(psl.resolveDatasourceUrls(schema.configuration, overrides, environment).value).error)
  {
    if |schema.diagnostics.errors| > 0 then Err(schema.diagnostics)
    else match psl.resolveDatasourceUrls(schema.configuration, overrides, environment)
      case Err(d) => Err(d)
      case Ok(config) =>
        match psl.validateOneDatasource(config)
        case Err(d) => Err(d)
        case Ok(_) => Ok(config)
  }

  /** A schema with errors is rejected before URLs are resolved: the result does not depend on the resolver. */
  lemma InvalidSchemaSkipsResolution(schema: ValidatedSchema, overrides: map<string, string>,
                                     environment: map<string, string>, psl: Psl,
                                     resolve: (PslConfiguration, map<string, string>, map<string, string>)
                                              -> Result<PslConfiguration, Errors.Diagnostics>)
    requires |schema.diagnostics.errors| > 0
    ensures SchemaChecks(schema, overrides, environment, psl.(resolveDatasourceUrls := resolve))
            == SchemaChecks(schema, overrides, environment, psl)
  {
  }

  /**
   * `prisma_query_engine_constructor`: decodes and parses the environment and
   * the options (each `unwrap`ped, so a bad argument panics), validates the
   * schema and runs the checks on its configuration in place; on success the
   * engine starts as a builder holding the updated schema.
   */
  method Construct(environment: seq<byte>, options: seq<byte>, psl: Psl) returns (r: Result<ConstructorResponse, Panic>)
    requires 0 in environment && 0 in options
    ensures CCharToString(environment).Err? ==> r == Err(InvalidUtf8)
    ensures CCharToString(environment).Ok? && psl.parseEnvironment(CCharToString(environment).value).Err? ==>
              r == Err(MalformedJson(psl.parseEnvironment(CCharToString(environment).value).error))
    ensures CCharToString(environment).Ok? && psl.parseEnvironment(CCharToString(environment).value).Ok?
            && CCharToString(options).Err? ==>
              r == Err(InvalidUtf8)
    ensures CCharToString(environment).Ok? && psl.parseEnvironment(CCharToString(environment).value).Ok?
            && CCharToString(options).Ok? && psl.parseOptions(CCharToString(options).value).Err? ==>
              r == Err(MalformedJson(psl.parseOptions(CCharToString(options).value).error))
    ensures r.Ok? <==>
              && CCharToString(environment).Ok? && psl.parseEnvironment(CCharToString(environment).value).Ok?
              && CCharToString(options).Ok? && psl.parseOptions(CCharToString(options).value).Ok?
    ensures r.Ok? ==>
              var env := psl.parseEnvironment(CCharToString(environment).value).value;
              var opts := psl.parseOptions(CCharToString(options).value).value;
              var schema := psl.validate(opts.datamodel);
              match SchemaChecks(schema, opts.datasourceOverrides, env, psl)
              case Err(d) => r.value == EngineErr(DiagnosticsError(d))
              case Ok(config) =>
                r.value == EngineOk(PrismaQueryEngine(Builder(EngineBuilder(schema.(configuration := config), opts.configDir, env))))
    ensures r.Ok? && r.value.EngineOk? && OneDatasourceMeansOne(psl) ==> ConnectChecks(r.value.engine.inner).Ok?
    ensures r.Err? ==> !r.error.InteriorNul?
  {
    var environmentText := CCharToString(environment);
    if environmentText.Err? {
      return Err(environmentText.error);
    }
    var env := psl.parseEnvironment(environmentText.value);
    if env.Err? {
      return Err(MalformedJson(env.error));
    }
    var optionsText := CCharToString(options);
    if optionsText.Err? {
      return Err(optionsText.error);
    }
    var opts := psl.parseOptions(optionsText.value);
    if opts.Err? {
      return Err(MalformedJson(opts.error));
    }
    var schema := psl.validate(opts.value.datamodel);
    var config := schema.configuration;
    if |schema.diagnostics.errors| > 0 {
      return Ok(EngineErr(DiagnosticsError(schema.diagnostics)));
    }
    var resolved := psl.resolveDatasourceUrls(config, opts.value.datasourceOverrides, env.value);
    if resolved.Err? {
      return Ok(EngineErr(DiagnosticsError(resolved.error)));
    }
    config := resolved.value;
    var one := psl.validateOneDatasource(config);
    if one.Err? {
      return Ok(EngineErr(DiagnosticsError(one.error)));
    }
    var builder := EngineBuilder(schema.(configuration := config), opts.value.configDir, env.value);
    if OneDatasourceMeansOne(psl) {
      ConstructedEngineCanConnect(schema, opts.value.datasourceOverrides, env.value, opts.value.configDir, psl);
    }
    r := Ok(EngineOk(PrismaQueryEngine(Builder(builder))));
  }

  const NoDatasource := "No datasource provided"

  /**
   * The checks `prisma_query_engine_connect` makes before loading an
   * executor: the engine must be a builder (checked before any datasource is
   * read) and its configuration must have a first datasource.
   */
  function ConnectChecks(inner: Inner): (r: Result<(EngineBuilder, Datasource), PrismaError>)
    ensures inner.Connected? ==> r == Err(AlreadyConnected)
    ensures inner.Builder? && |inner.builder.schema.configuration.datasources| == 0 ==> r == Err(Configuration(NoDatasource))
    ensures r.Ok? <==> inner.Builder? && |inner.builder.schema.configuration.datasources| > 0
    ensures r.Ok? ==> r.value == (inner.builder, inner.builder.schema.configuration.datasources[0])
  {
    match AsBuilder(inner)
    case Err(e) => Err(e)
    case Ok(builder) =>
      var datasources := builder.schema.configuration.datasources;
      if |datasources| == 0 then Err(Configuration(NoDatasource)) else Ok((builder, datasources[0]))
  }

  /** The one-datasource check accepts only configurations that have a datasource. */
  ghost predicate OneDatasourceMeansOne(psl: Psl) {
    forall c: PslConfiguration :: psl.validateOneDatasource(c).Ok? ==> |c.datasources| > 0
  }

  /**
   * An engine built from a configuration that passed the constructor's
   * checks passes the connect checks, and connects to the first datasource
   * of the resolved configuration.
   */
  lemma ConstructedEngineCanConnect(schema: ValidatedSchema, overrides: map<string, string>,
                                    environment: map<string, string>, configDir: string, psl: Psl)
    requires SchemaChecks(schema, overrides, environment, psl).Ok?
    requires OneDatasourceMeansOne(psl)
    ensures var config := SchemaChecks(schema, overrides, environment, psl).value;
            var inner := Builder(EngineBuilder(schema.(configuration := config), configDir, environment));
            && ConnectChecks(inner).Ok?
            && ConnectChecks(inner).value.1 == config.datasources[0]
  {
    var config := SchemaChecks(schema, overrides, environment, psl).value;
    assert psl.validateOneDatasource(config).Ok?;
  }
}
