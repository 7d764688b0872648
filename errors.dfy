/**
 * The error taxonomy of the boundary (src/error.rs): the closed enum
 * `ApiError` handed to the caller's error continuation, and the conversions
 * from each error type of the external engine into exactly one variant.
 * Messages are kept as text; on the wire every text field is a C string made
 * by `string_to_c_char`.
 */
module Errors {
  import opened Wrappers

  /** `ApiError`: every failure that crosses the boundary. */
  datatype ApiError =
    | Conversion(message: string, source: string)
    | Configuration(message: string)
    | Core(message: string)
    | Connector(message: string)
    | AlreadyConnected
    | NotConnected
    | JsonDecode(message: string)

  /** One entry of the schema validator's report; only its message is read here. */
  datatype Diagnostic = Diagnostic(message: string)

  /** The schema validator's report: errors and warnings, each in the order found. */
  datatype Diagnostics = Diagnostics(errors: seq<Diagnostic>, warnings: seq<Diagnostic>)

  /** The engine's user-facing error (`user_facing_errors::Error`). */
  datatype UserFacingError = UserFacingError(message: string, errorCode: Option<string>)

  /** The structured, user-facing part a connector error may carry (`KnownError`). */
  datatype KnownError = KnownError(message: string, errorCode: string)

  /** `ConnectorError`; `kindDebug` is the `{:?}` rendering of its error kind. */
  datatype ConnectorError = ConnectorError(userFacingError: Option<KnownError>, kindDebug: string)

  /**
   * `CoreError`: the configuration variant is told apart; every other variant
   * is represented by its `{:?}` rendering.
   */
  datatype CoreError = ConfigurationError(message: string) | OtherCoreError(debug: string)

  /** `url::ParseError` and `connection_string::Error`, by their `Display` text. */
  datatype UrlParseError = UrlParseError(display: string)
  datatype ConnectionStringError = ConnectionStringError(display: string)

  /** `serde_json::Error`, by its `Display` text. */
  datatype SerdeError = SerdeError(display: string)

  const ConnectionStringPrefix := "Error parsing connection string: "

  /**
   * The text fields of the C layout of an error (`#[repr(C)]`), in order:
   * the two state errors carry none, `Conversion` two, every other variant one.
   */
  function Fields(e: ApiError): (r: seq<string>)
    ensures |r| == 0 <==> e.AlreadyConnected? || e.NotConnected?
    ensures |r| == 2 <==> e.Conversion?
    ensures |r| <= 2
    ensures |r| > 0 ==> r[0] == e.message
  {
    match e
    case Conversion(m, s) => [m, s]
    case Configuration(m) => [m]
    case Core(m) => [m]
    case Connector(m) => [m]
    case AlreadyConnected => []
    case NotConnected => []
    case JsonDecode(m) => [m]
  }

  /** `ApiError::conversion`: the first validation error plus the schema text it was found in. */
  function MakeConversion(diagnostics: Diagnostics, dml: string): (r: ApiError)
    requires |diagnostics.errors| > 0
    ensures r.Conversion?
    ensures Fields(r) == [diagnostics.errors[0].message, dml]
  {
    Conversion(diagnostics.errors[0].message, dml)
  }

  /** `ApiError::configuration`. */
  function MakeConfiguration(message: string): (r: ApiError)
    ensures r.Configuration? && Fields(r) == [message]
  {
    Configuration(message)
  }

  /** `From<user_facing_errors::Error>`: a core error with the user-facing message. */
  function FromUserFacing(err: UserFacingError): (r: ApiError)
    ensures r.Core? && Fields(r) == [err.message]
  {
    Core(err.message)
  }

  /**
   * `From<CoreError>`: a configuration problem stays a configuration error
   * with its message; everything else becomes a core error with its debug text.
   */
  function FromCore(err: CoreError): (r: ApiError)
    ensures r.Configuration? <==> err.ConfigurationError?
    ensures r.Configuration? || r.Core?
    ensures Fields(r) == [if err.ConfigurationError? then err.message else err.debug]
  {
    match err
    case ConfigurationError(message) => MakeConfiguration(message)
    case OtherCoreError(debug) => Core(debug)
  }

  /**
   * `From<ConnectorError>`: always a connector error, preferring the
   * user-facing message and falling back to the debug text of the kind.
   */
  function FromConnector(err: ConnectorError): (r: ApiError)
    ensures r.Connector?
    ensures err.userFacingError.Some? ==> Fields(r) == [err.userFacingError.value.message]
    ensures err.userFacingError.None? ==> Fields(r) == [err.kindDebug]
  {
    if err.userFacingError.Some? then Connector(err.userFacingError.value.message)
    else Connector(err.kindDebug)
  }

  /** `From<url::ParseError>`: a configuration error naming the connection string. */
  function FromUrlParse(e: UrlParseError): (r: ApiError)
    ensures r.Configuration?
    ensures ConnectionStringPrefix <= r.message && r.message[|ConnectionStringPrefix|..] == e.display
  {
    MakeConfiguration(ConnectionStringPrefix + e.display)
  }

  /** `From<connection_string::Error>`: the same message shape as a URL parse error. */
  function FromConnectionString(e: ConnectionStringError): (r: ApiError)
    ensures r.Configuration?
    ensures ConnectionStringPrefix <= r.message && r.message[|ConnectionStringPrefix|..] == e.display
  {
    MakeConfiguration(ConnectionStringPrefix + e.display)
  }

  /** `From<serde_json::Error>`: always a JSON decode error with the error's text. */
  function FromSerde(e: SerdeError): (r: ApiError)
    ensures r.JsonDecode? && Fields(r) == [e.display]
  {
    JsonDecode(e.display)
  }

  /**
   * The two connection-string error types are indistinguishable once
   * converted, and the conversion loses nothing: equal errors come from equal texts.
   */
  lemma ConnectionStringErrorsAgree(u: UrlParseError, c: ConnectionStringError)
    ensures FromUrlParse(u) == FromConnectionString(c) <==> u.display == c.display
  {
    if FromUrlParse(u) == FromConnectionString(c) {
      assert u.display == FromUrlParse(u).message[|ConnectionStringPrefix|..];
    }
  }

  /** No conversion of an engine error ever yields a state error: those come only from the state machine. */
  lemma ConversionsNeverStateErrors(d: Diagnostics, dml: string, m: string, ufe: UserFacingError,
                                    ce: CoreError, ke: ConnectorError, u: UrlParseError,
                                    c: ConnectionStringError, s: SerdeError)
    requires |d.errors| > 0
    ensures forall e :: e in [MakeConversion(d, dml), MakeConfiguration(m), FromUserFacing(ufe),
                              FromCore(ce), FromConnector(ke), FromUrlParse(u),
                              FromConnectionString(c), FromSerde(s)]
                        ==> |Fields(e)| > 0
  {
  }
}
