/**
 * The message model of the hub protocol and the values the hub connection
 * exchanges with its collaborators: the transport connection, the hub protocol
 * codec and the handshake protocol, none of which are modelled beyond their
 * interfaces.
 */
module Messages {
  import opened Wrappers

  newtype byte = x: int | 0 <= x < 256

  type Bytes = seq<byte>

  /** An untyped argument or result payload, as it appears on the wire. */
  datatype Value = Null | Bool(b: bool) | Number(n: int) | Text(s: string)

  /** The hub protocol messages. An Invocation sent with `send` carries no id. */
  datatype Message =
    | Invocation(callId: Option<string>, target: string, arguments: seq<Value>)
    | StreamInvocation(invocationId: string, target: string, arguments: seq<Value>)
    | StreamItem(invocationId: string, item: Value)
    | Completion(invocationId: string, result: Option<Value>, error: Option<string>)
    | CancelInvocation(invocationId: string)
    | Close(error: Option<string>)
    | Ping

  /** Errors the connection raises itself, and those reported by its collaborators. */
  datatype Error =
    | HubInvocationCancelled
    | ServerClose(message: Option<string>)
    | ExternalError(description: string)

  /**
   * Identity of a closure the caller hands to the connection (a completion
   * callback, a stream item callback, a server-invocation callback).
   */
  type ClosureId = nat

  /** The per-call handler kept in the pending-call table. */
  datatype Handler =
    | Unary(invocationDidComplete: ClosureId)
    | Streaming(streamItemReceived: ClosureId, invocationDidComplete: ClosureId)

  /** What `stream` gives back so that the caller can cancel. */
  datatype StreamHandle = StreamHandle(invocationId: string)

  /** The completion closure the connection hands to the transport with each send. */
  datatype SendCallback =
    | AfterHandshake
    | AfterSend(sendDidComplete: ClosureId)
    | AfterInvocation(handler: Handler, invocationId: string)
    | AfterCancel(cancelDidFail: ClosureId)

  /**
   * One observable effect of the hub connection: a request to the transport,
   * a callback delivered to a handler or to a registered method, or a
   * notification to the connection's delegate.
   */
  datatype Event =
    | ConnectionStart
    | ConnectionStop(stopError: Option<Error>)
    | ConnectionSend(data: Bytes, onSent: SendCallback)
    | ProcessCompletion(handler: Handler, completion: Message)
    | ProcessStreamItem(handler: Handler, streamItem: Message)
    | RaiseError(handler: Handler, invocationId: string, raised: Error)
    | InvokeCallback(callback: ClosureId, arguments: seq<Value>)
    | SendDidComplete(closure: ClosureId, sendError: Option<Error>)
    | CancelDidFail(closure: ClosureId, cancelError: Error)
    | DidOpen
    | DidFailToOpen(openError: Error)
    | DidClose(closeError: Option<Error>)

  /** The wire codec: encoding may fail, and so may parsing a frame into messages. */
  datatype HubProtocol = HubProtocol(
    writeMessage: Message -> Result<Bytes, Error>,
    parseMessages: Bytes -> Result<seq<Message>, Error>)

  /** The parsed handshake response and the bytes that follow it in the same frame. */
  datatype HandshakeResponse = HandshakeResponse(error: Option<Error>, remainingData: Bytes)

  datatype HandshakeProtocol = HandshakeProtocol(
    handshakeRequest: Bytes,
    parseHandshakeResponse: Bytes -> HandshakeResponse)

  /** The outgoing message a handler builds: a plain or a stream invocation tagged with the id. */
  function CreateInvocationMessage(handler: Handler, id: string, target: string, arguments: seq<Value>): Message
  {
    match handler
    case Unary(_) => Invocation(Some(id), target, arguments)
    case Streaming(_, _) => StreamInvocation(id, target, arguments)
  }
}
