/**
 * The "known error" path of transactions (src/engine/transaction/mod.rs): a
 * failure of the executor is turned into its user-facing form and serialized,
 * so that it reaches the caller as a successful result carrying an error object.
 */
module Transaction {
  import opened Wrappers
  import opened Errors

  /**
   * `map_known_error`: the JSON text of the user-facing form of `err`.  Its
   * only failure is a serialization failure, reported as `JsonDecode`.  It
   * depends on nothing but `err` and the two conversions: no engine state.
   */
  function MapKnownError(err: CoreError, toUserFacing: CoreError -> UserFacingError,
                         serialize: UserFacingError -> Result<string, SerdeError>): (r: Result<string, ApiError>)
    ensures r.Ok? <==> serialize(toUserFacing(err)).Ok?
    ensures r.Ok? ==> r.value == serialize(toUserFacing(err)).value
    ensures r.Err? ==> r.error == FromSerde(serialize(toUserFacing(err)).error)
    ensures r.Err? ==> r.error.JsonDecode?
  {
    var userError := toUserFacing(err);
    match serialize(userError)
    case Ok(value) => Ok(value)
    case Err(e) => Err(FromSerde(e))
  }
}
