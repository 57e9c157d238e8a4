/**
 * Values shared by the chat client: messages, users, the payload of a send,
 * and the outcome of an HTTP request.
 */
module ChatTypes {

  datatype Option<+T> = None | Some(value: T)

  /** Server-assigned identifiers travel as strings in the JSON the client receives. */
  type UserId = string
  type MessageId = string

  /**
   * A message as the client holds it. `text`, `image` and `emoji` are optional;
   * an image is an encoded data URL and is treated as an opaque string.
   * The creation time and the recipient are not read by the client logic.
   */
  datatype Message = Message(
    id: MessageId,
    senderId: UserId,
    text: Option<string>,
    image: Option<string>,
    emoji: Option<string>)

  /** A conversation counterpart; only its identifier is used by the client logic. */
  datatype User = User(id: UserId)

  /** The body of a send request. */
  datatype MessageData = MessageData(
    text: string,
    image: Option<string>,
    emoji: Option<string>)

  /**
   * How an HTTP request through the client library ends:
   * `Success` carries the response body, `ErrorResponse` is a rejection
   * that carries a server response (a 4xx/5xx with a body), and `NoResponse`
   * is a rejection without one (the request never completed).
   */
  datatype HttpOutcome<+T> = Success(payload: T) | ErrorResponse | NoResponse
}
