/**
 * The boundary to the remote mailbox service. Each call the controller makes is
 * recorded as a `Call`; what the service answers is handed back as an `Outcome`.
 */
module Service {
  import opened Wrappers

  /**
   * A rejected call: the HTTP status of the response, when there was a
   * response, and the error's message, when it has one.
   */
  datatype ApiError = ApiError(status: Option<int>, message: Option<string>)

  /** What an awaited service call resolved to. */
  datatype Outcome<+T> = Ok(value: T) | Err(error: ApiError)

  /** The four service operations, with the arguments the controller passes. */
  datatype Call =
    | CreateAccount
    | DeleteAccount(id: string, token: string)
    | GetMessages(token: string)
    | GetMessageById(id: string, token: string)

  /** The status the service uses to say that a token is no longer valid. */
  const Unauthorized: int := 401
}
