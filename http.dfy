/** The outcome of one HTTP exchange with a board, as the services observe it.
    The network itself is not modelled: each request's outcome is an input. */
module Http {
  /** The exception an aiohttp request raised. */
  datatype Failure =
    | ConnectError(reason: string)   // aiohttp.ClientConnectorError
    | Timeout                        // asyncio.TimeoutError
    | OtherError(reason: string)     // any other exception

  datatype Outcome =
    /** The board answered and its body was read. */
    | Response(status: int, body: string)
    /** No response arrived. */
    | NoResponse(failure: Failure)
    /** The status line arrived, then reading the body raised. */
    | BodyLost(status: int, failure: Failure)
}
