/** Literal constants shared by the middleware, the handlers and the utilities. */
module Constants {

  /** Header carrying the request's correlation id. */
  const TRANSACTION_ID := "transaction-id"

  /** Header carrying the bearer token (read verbatim, no scheme prefix removed). */
  const AUTHORIZATION := "Authorization"

  /** Message of every 400 raised because the body could not be bound. */
  const INVALID_BODY := "invalid body"

  /** Key with which the authorization middleware verifies token signatures. */
  const SECRET_KEY := "SOME-SECRET-KEY-WHICH-IS-NOT_SECRET-ANY-MORE"

  const STATUS_OK := 200
  const STATUS_BAD_REQUEST := 400
  const STATUS_UNAUTHORIZED := 401
  const STATUS_INTERNAL_SERVER_ERROR := 500
}
