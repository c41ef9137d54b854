/**
 The wire records of the relay: the inbound request a client sends and the
 response records the hub puts into a client's outbound mailbox. JSON encoding
 is not modelled; a response is kept as the structured record it is built as.
 */
module Protocol {

  /** A client's opaque identity (the Go code keys its tables by the client's pointer). */
  type ClientId = nat

  /** A channel name. */
  type Channel = string

  /** The `data` field of a request or response, kept as opaque JSON text. */
  type Payload = string

  datatype Option<T> = None | Some(value: T)

  /** The status code every response carries. */
  const SUCCESS: int := 200

  /** The `msg` text every response carries. */
  const SUCCESS_MSG: string := "success"

  /** An inbound request: an action tag, a channel name (empty when absent) and optional data. */
  datatype Message = Message(action: string, channel: Channel, data: Option<Payload>)

  /**
   A response record. `clientId` is absent for fan-out deliveries, which are
   not addressed to one client; `data` is absent unless a broadcast carried it.
   */
  datatype Response = Response(
    clientId: Option<ClientId>,
    action: string,
    channel: Channel,
    code: int,
    msg: string,
    data: Option<Payload>)

  /** The acknowledgement shape shared by connect, subscribe, unsubscribe and pong. */
  function Ack(c: ClientId, action: string, channel: Channel): Response
  {
    Response(Some(c), action, channel, SUCCESS, SUCCESS_MSG, None)
  }

  function ConnectAck(c: ClientId): Response
  {
    Ack(c, "connect", "")
  }

  function SubscribeAck(c: ClientId, ch: Channel): Response
  {
    Ack(c, "subscribe", ch)
  }

  function UnsubscribeAck(c: ClientId, ch: Channel): Response
  {
    Ack(c, "unsubscribe", ch)
  }

  function Pong(c: ClientId): Response
  {
    Ack(c, "pong", "")
  }

  /** The record a broadcast delivers to every member of `ch`. */
  function Delivery(ch: Channel, data: Option<Payload>): Response
  {
    Response(None, "message", ch, SUCCESS, SUCCESS_MSG, data)
  }

  /** The three action tags the dispatcher recognises. */
  predicate IsCommand(action: string)
  {
    action == "subscribe" || action == "unsubscribe" || action == "ping"
  }
}
