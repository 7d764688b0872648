/**
 * What the entry points of src/engine share (src/engine/mod.rs): the parsing
 * of an optional transaction id, and the way a result reaches the caller
 * through exactly one of two continuations.
 */
module EntryPoints {
  import opened Wrappers
  import opened Utf8
  import opened Marshal
  import opened Errors

  /**
   * `tx_id_parse`: the text of a C string, or `None` when it is empty or not
   * UTF-8.  Unlike `c_char_to_string` it never panics.
   */
  function TxIdParse(buf: seq<byte>): (r: Option<string>)
    requires 0 in buf
    ensures r.None? <==> !Valid(CStrBytes(buf)) || CStrBytes(buf) == []
    ensures r.Some? ==> r.value != [] && Encode(r.value) == CStrBytes(buf)
    ensures r.Some? ==> CCharToString(buf) == Ok(r.value)
  {
    match Decode(CStrBytes(buf))
    case Some(s) =>
      EncodeDecode(CStrBytes(buf));
      if s == [] then None else Some(s)
    case None => None
  }

  /** `tx_id_parse` reads nothing past the first zero byte. */
  lemma TxIdParseStopsAtNul(p: seq<byte>, rest: seq<byte>)
    requires 0 !in p
    ensures 0 in p + [0] + rest && 0 in p + [0]
    ensures TxIdParse(p + [0] + rest) == TxIdParse(p + [0])
  {
    CStrBytesOfTerminated(p, rest);
    CStrBytesOfTerminated(p, []);
    assert p + [0] + [] == p + [0];
  }

  /**
   * How an entry point ends: the error continuation is called with an error,
   * or the done continuation with a payload, or a panic happened before
   * either was called.
   */
  datatype Outcome<+T> = Error(error: ApiError) | Done(payload: T) | Aborted(panic: Panic)

  /** Exactly one continuation was invoked. */
  predicate OneContinuation<T>(o: Outcome<T>) {
    o.Error? || o.Done?
  }

  /** The error every entry point reports for a handle the registry does not hold. */
  const EngineNotFound: ApiError := Connector("Engine not found")

  /** A unit result reaching the caller: `done()` on success, `error(e)` otherwise. */
  function DeliverUnit(r: Result<(), ApiError>): (o: Outcome<()>)
    ensures OneContinuation(o)
    ensures o.Done? <==> r.Ok?
    ensures r.Err? ==> o == Error(r.error)
  {
    match r
    case Ok(_) => Done(())
    case Err(e) => Error(e)
  }

  /**
   * A text result reaching the caller: `done` receives the text marshaled by
   * `string_to_c_char`, which the caller reads back unchanged; `error(e)` on
   * failure.  A result containing U+0000 panics in the marshaling.
   */
  function DeliverText(r: Result<string, ApiError>): (o: Outcome<seq<byte>>)
    ensures r.Err? ==> o == Error(r.error)
    ensures r.Ok? && '\0' !in r.value ==> o.Done? && 0 in o.payload && CCharToString(o.payload) == Ok(r.value)
    ensures r.Ok? && '\0' in r.value ==> o.Aborted? && o.panic.InteriorNul?
    ensures OneContinuation(o) <==> r.Err? || '\0' !in r.value
  {
    match r
    case Err(e) => Error(e)
    case Ok(s) =>
      match StringToCChar(s)
      case Ok(buf) =>
        RoundTrip(s);
        Done(buf)
      case Err(p) => Aborted(p)
  }
}
