/** Error codes and their HTTP status (internal/protocol/errors.go). */
module Errors {

  /** The codes of the protocol; Other is any string an agent may send besides them. */
  datatype Code =
    | UnsupportedProtocol | IdentityMismatch | DuplicateNode
    | Unauthorized | InvalidPath | InvalidMethod | InvalidRequest | BodyTooLarge
    | ModelNotFound | CapabilityNotSupported | NoAvailableNode | QueueFull | QueueTimeout
    | LocalBusy | UpstreamConnectionFailed | UpstreamTimeout | TtftTimeout | IdleTimeout
    | Canceled | Draining | Internal
    | Other(text: string)

  function HTTPStatus(code: Code): int {
    match code
    case Unauthorized => 401
    case InvalidPath => 404
    case InvalidMethod => 405
    case InvalidRequest => 400
    case BodyTooLarge => 413
    case ModelNotFound => 404
    case CapabilityNotSupported => 422
    case QueueFull => 429
    case QueueTimeout => 503
    case NoAvailableNode => 503
    case LocalBusy => 503
    case Draining => 503
    case UpstreamConnectionFailed => 502
    case UpstreamTimeout => 504
    case TtftTimeout => 504
    case IdleTimeout => 504
    case Canceled => 499
    case _ => 500
  }

  /** The status writeRelayError puts on the wire: 499 is replaced by 408. */
  function ClientStatus(code: Code): int {
    if HTTPStatus(code) == 499 then 408 else HTTPStatus(code)
  }

  /** The documented numbers: what the relay records, and what a client is sent. */
  lemma StatusNumbers(code: Code)
    ensures HTTPStatus(code) ==
      match code
      case InvalidRequest => 400
      case Unauthorized => 401
      case InvalidPath => 404
      case ModelNotFound => 404
      case InvalidMethod => 405
      case BodyTooLarge => 413
      case CapabilityNotSupported => 422
      case QueueFull => 429
      case Canceled => 499
      case UpstreamConnectionFailed => 502
      case QueueTimeout => 503
      case NoAvailableNode => 503
      case LocalBusy => 503
      case Draining => 503
      case UpstreamTimeout => 504
      case TtftTimeout => 504
      case IdleTimeout => 504
      case _ => 500
    ensures ClientStatus(code) == if code == Canceled then 408 else HTTPStatus(code)
  {
  }
}
