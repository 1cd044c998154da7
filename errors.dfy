/**
 * Error codes and the two error shapes of the services: the exception value
 * `Errors::Custom` (code and message) and the `errors` record a service keeps
 * after `call` (reference, code and message).
 */
module Errors {
  import opened Wrappers

  /** Every code a core service raises. Only the first three are defined in
      Errors::GlobalCodes; the others are named by the services themselves. */
  datatype Code =
    | UnexpectedError
    | EmptyParams
    | RedisConnectionError
    | InvalidRequestType
    | InvalidProvider
    | InvalidEncryptedPayload
    | InvalidStateToken
    | InvalidRedisKey
    | JsonParserError
    | InvalidData
    // raised by the token exchanger, which is modelled only by its outcome
    | InvalidComponentError
    | ExternalApiError
    | JwtDecodeError

  /** Errors::Custom: an exception that carries a code and a message. */
  datatype Custom = Custom(code: Code, message: string)

  /** The record `set_errors` stores: the class name of the service that failed,
      the code and the message. */
  datatype ServiceError = ServiceError(reference: string, code: Code, message: string)
}
