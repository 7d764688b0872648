/**
 * The external engine as seen from the wrapper: JSON parsing and printing
 * (`serde_json`), the request handler (`GraphQlHandler`), and the executor's
 * transaction primitives.  None of them is implemented here; every entry point
 * receives them as pure functions, so its result is stated in terms of theirs.
 */
module Backend {
  import opened Wrappers
  import opened Errors
  import opened EngineCore

  /** A parsed query request body, opaque. */
  type QueryDocument
  /** The request handler's response, opaque. */
  type Response

  /** `TxInput`: the parsed input of a transaction start. */
  datatype TxInput = TxInput(maxWait: nat, timeout: nat, isolationLevel: Option<string>)

  datatype Collaborators = Collaborators(
    /** `serde_json::from_str` for a query body. */
    parseQuery: string -> Result<QueryDocument, SerdeError>,
    /** `GraphQlHandler::handle`; it always produces a response, errors included. */
    handle: (Executor, QuerySchema, QueryDocument, Option<string>) -> Response,
    /** `serde_json::to_string` of a response. */
    serializeResponse: Response -> Result<string, SerdeError>,
    /** `serde_json::from_str` for a transaction input. */
    parseTxInput: string -> Result<TxInput, SerdeError>,
    /** The executor's `start_tx`, giving the new transaction's id as text. */
    startTx: (Executor, QuerySchema, TxInput) -> Result<string, CoreError>,
    /** The executor's `commit_tx`. */
    commitTx: (Executor, string) -> Result<(), CoreError>,
    /** `From<CoreError> for user_facing_errors::Error`. */
    toUserFacing: CoreError -> UserFacingError,
    /** `serde_json::to_string` of a user-facing error. */
    serializeUserFacing: UserFacingError -> Result<string, SerdeError>)
}
