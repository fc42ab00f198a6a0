# HubConnection engine of the SignalR Swift client, in Dafny

This project models the hub-connection engine of the SignalR client for Swift
(`HubConnection`). The engine keeps four pieces of mutable state:

- an invocation-id counter;
- a pending-call table that maps an id string to the handler of a tracked call,
  which is unary or streaming;
- a table of callbacks for server-initiated invocations, keyed by method name;
- a one-shot `handshakeHandled` flag.

The caller-facing operations `on`, `invoke`, `stream` and
`cancelStreamInvocation` change this state, and so do the transport's
notifications that data arrived and that the connection closed. `send`,
`start`, `stop` and the notification that the transport opened change none
of the four fields.

The model is the class `Hub.HubConnection` (`hub_connection.dfy`), which has
those four fields. Each critical section on the connection's serial queue is
one atomic method step.

Every effect on the outside world is appended, in order, to a ghost `trace` of
`Event`s. This covers every closure the source dispatches to the main thread,
every delegate notification, and every `connection.send` or
`connection.stop` request. Closures handed to the transport are values of
`SendCallback`. The transport's later call of such a closure is the method
`SendCompleted`. The main-thread continuation of a stream item is
`StreamItemProcessed`.

The wire codec (`HubProtocol`), the handshake request and parser
(`HandshakeProtocol`) and `TypeConverter` are defined in other files of the
client and are not modelled here; the codec and the handshake parser are
function-valued fields that may fail.

The project has five files:

- `wrappers.dfy`: `Option` and `Result`.
- `messages.dfy`: hub messages, handlers, effects (`Event`) and the
  collaborator interfaces.
- `invocation_ids.dfy`: the decimal text of the counter, which is the id, and
  its inverse.
- `dispatch.dfy`: a pure reference definition of how one parsed frame changes
  the pending table and which effects it produces (`DispatchMessage`,
  `DispatchAll`), with lemmas about it.
- `hub_connection.dfy`: the class.

The class invariant `Valid()` has two parts:

- No id that a later counter value will render is in use yet. So every
  allocated id is fresh.
- No pending call has received its terminal callback yet. A terminal callback
  is `processCompletion` or `raiseError`.

Together with `TerminalCount` (the number of terminal callbacks an id has
received in a sequence of effects), this yields the exactly-once statements
for completion and close.

Two behaviours of the code shape the model:

- **Parse failure.** A `parseMessages` failure is caught around the whole
  loop (`SignalRClient/HubConnection.swift:149-170`), so nothing from that
  frame is dispatched, not even the messages that would have parsed. `Deliver`
  models it that way.
- **Connection state.** The class keeps no connection state besides
  `handshakeHandled`. After a handshake failure the flag stays set, so a later
  frame is parsed and dispatched like any other. The model keeps only the
  flag.

## Model

| member | source | states |
|---|---|---|
| InvocationIds.DecimalString | SignalRClient/HubConnection.swift:108 | the id text of a counter value is non-empty, all decimal digits, and has no leading zero except for 0 itself |
| InvocationIds.ParseDecimalInverse | SignalRClient/HubConnection.swift:107-108 | reading the id text back gives the counter value, so the id determines the counter value it came from |
| InvocationIds.DecimalStringInjective | SignalRClient/HubConnection.swift:104-110 | two counter values give the same id exactly when they are equal, so the ids "1", "2", … are pairwise distinct |
| Hub.HubConnection.constructor | SignalRClient/HubConnection.swift:13-28 | the counter starts at 0; both tables are empty; the handshake is not handled; no effect has happened; the invariant holds |
| Hub.HubConnection.Start | SignalRClient/HubConnection.swift:30-32 | only asks the transport to start; the tables and counter are untouched |
| Hub.HubConnection.ConnectionStarted | SignalRClient/HubConnection.swift:34-42 | when the transport opens, exactly one send of the handshake request is issued, carrying the handshake completion closure |
| Hub.HubConnection.Stop | SignalRClient/HubConnection.swift:44-46 | only asks the transport to stop with no error; pending calls are failed later, by the close notification |
| Hub.HubConnection.ConnectionDidFailToOpen | SignalRClient/HubConnection.swift:240-242 | the transport's open failure is passed to the delegate and nothing else changes |
| Hub.HubConnection.On | SignalRClient/HubConnection.swift:48-53 | afterwards the name maps to the new callback (the last registration wins); every other name keeps its callback or stays unregistered |
| Hub.HubConnection.Send | SignalRClient/HubConnection.swift:55-63 | a non-blocking invocation has no id and leaves the tables alone; an encoded message is handed to the transport with sendDidComplete; an encoding error goes straight to sendDidComplete |
| Hub.HubConnection.Invoke | SignalRClient/HubConnection.swift:65-76 | a single-result call allocates the next id with a unary handler and sends an Invocation that carries the id or, when it cannot be encoded, removes the entry again and raises the error (Allocated) |
| Hub.HubConnection.Stream | SignalRClient/HubConnection.swift:78-84 | a streaming call allocates the next id with a streaming handler, sends a StreamInvocation or, when it cannot be encoded, removes the entry again and raises the error, and returns a handle that holds that id |
| Hub.HubConnection.InvokeWith | SignalRClient/HubConnection.swift:104-125 | the counter goes up by one and its new value, as text, is the id; the id was neither pending nor used by any earlier effect; on encoding success the handler is pending under the id and the message is sent; on encoding failure the entry is removed again and the error is raised on the handler |
| Hub.HubConnection.AllocateId | SignalRClient/HubConnection.swift:106-110 | the critical section: counter + 1, the id is its text, the id is fresh, and the table gains exactly that entry |
| Hub.HubConnection.CancelStreamInvocation | SignalRClient/HubConnection.swift:86-102 | the handle's id leaves the table first; only the cancel message is sent, or its encoding error goes to cancelDidFail; no invocation gets a terminal callback |
| Hub.HubConnection.FailInvocationWithError | SignalRClient/HubConnection.swift:127-135 | the id is removed (whether present or not) and the error is raised on the handler |
| Hub.HubConnection.SendCompleted | SignalRClient/HubConnection.swift:113-122 | the transport completes a send it was handed. A handshake error fails the open. A send result goes to sendDidComplete. A cancel error goes to cancelDidFail. An invocation send error fails that call (removes the id and raises). A successful send changes nothing |
| Hub.HubConnection.StreamItemProcessed | SignalRClient/HubConnection.swift:195-199 | on the main thread, after a delivered stream item: no error leaves everything as it was; a processing error removes the id and raises that error on the handler |
| Hub.HubConnection.HubConnectionDidReceiveData | SignalRClient/HubConnection.swift:137-171 | the flag is set after any delivery. On the first delivery a handshake error is reported and nothing from the frame is dispatched. Handshake success reports the open and then dispatches the bytes left after the handshake. Later deliveries are dispatched whole. A parse failure changes nothing (Deliver) |
| Hub.HubConnection.DispatchMessages | SignalRClient/HubConnection.swift:150-167 | the loop over a parsed frame leaves exactly the table and effects of DispatchAll, the in-order reference definition |
| Hub.HubConnection.HandleNext | SignalRClient/HubConnection.swift:151-166 | one turn of the loop: after message i the state is the reference outcome of the first i + 1 messages |
| Hub.HubConnection.HandleMessage | SignalRClient/HubConnection.swift:152-166 | one message, by type, gives the reference outcome DispatchMessage. Close asks the transport to stop with serverClose(error). Ping and unexpected types do nothing |
| Hub.HubConnection.HandleCompletion | SignalRClient/HubConnection.swift:173-186 | exactly the completion's id leaves the table. If the id was pending, its handler gets processCompletion once, and that is the id's only terminal callback. If not, nothing is delivered |
| Hub.HubConnection.HandleStreamItem | SignalRClient/HubConnection.swift:188-203 | the table is unchanged; a pending id's handler gets the item; an unknown id changes nothing |
| Hub.HubConnection.HandleInvocation | SignalRClient/HubConnection.swift:205-217 | a registered target's callback gets the message's arguments; an unregistered target changes nothing |
| Hub.HubConnection.HubConnectionDidClose | SignalRClient/HubConnection.swift:219-234 | the table is drained and ends empty; callbacks stay. Each drained handler gets exactly one raiseError, and every error raised is the transport error, or hubInvocationCancelled when there is none; each drained id's terminal count is then 1. Then the delegate is told. With an empty table (a second close) only the delegate notification is added |
| Hub.HubConnection.TakePending | SignalRClient/HubConnection.swift:222-225 | the critical section of close: the table is returned and emptied, and the invariant still holds |
| Hub.HubConnection.RaiseOnEach | SignalRClient/HubConnection.swift:227-231 | the loop over the drained handlers adds one raiseError per handler, on that handler, with the close error (FanOut) |
| Hub.ClosedOnce | SignalRClient/HubConnection.swift:219-234 | a trace in which no drained id had ended, then the fan-out and the delegate notification, ends each drained id exactly once |
| Dispatch.DispatchMessage | SignalRClient/HubConnection.swift:152-166 | the reference outcome of one message: only a Completion removes a table entry, and only its own id; at most one callback is delivered |
| Dispatch.DispatchAll | SignalRClient/HubConnection.swift:151-167 | the reference outcome of a parsed frame taken in array order: the table loses exactly the frame's Completion ids (stream items never remove), and it delivers no more callbacks than there are messages |
| Dispatch.Deliver | SignalRClient/HubConnection.swift:149-170 | a frame that parses is dispatched whole; a parse failure leaves the table as it was and delivers nothing |
| Dispatch.DispatchMessageEffects | SignalRClient/HubConnection.swift:173-217 | one message delivers only for ids that were pending, and gives an id a terminal callback exactly when it is a Completion for that pending id |
| Dispatch.DispatchAllMentions | SignalRClient/HubConnection.swift:151-203 | a frame delivers callbacks only for calls that were pending when it arrived |
| Dispatch.DispatchAllCompletesOnce | SignalRClient/HubConnection.swift:173-186 | within a frame, a pending id gets exactly one terminal callback if the frame completes it (however often the id repeats) and none otherwise; an unknown id gets none |
| Dispatch.DispatchAllConcat | SignalRClient/HubConnection.swift:151 | dispatch is strictly in array order: a + b is a, then b against the table a left behind |
| Dispatch.CancelledCallIsSilent | SignalRClient/HubConnection.swift:173-203 | once an id is out of the table (cancelled), no later frame delivers anything for it |
| Dispatch.MentionedIdsAppend | SignalRClient/HubConnection.swift:151-167 | trace-measure lemma supporting the dispatch loop and its frame lemmas: the ids concerned by two runs of effects are the union of each run's ids |
| Dispatch.TerminalCountAppend | SignalRClient/HubConnection.swift:151-167 | trace-measure lemma supporting the exactly-once statements for dispatch and close: the terminal callbacks of two runs of effects add up |
| Dispatch.MentionedAt | SignalRClient/HubConnection.swift:115-119 | trace-measure lemma supporting SendCompleted and StreamItemProcessed: every effect's ids are among the ids its trace mentions, so a closure found in the trace concerns a used id |
| Dispatch.TerminalCountMentioned | SignalRClient/HubConnection.swift:104-110 | trace-measure lemma supporting AllocateId's freshness: an id that has had a terminal callback is among the mentioned ids, so a freshly allocated id has had none |

## Left out

- Wire encoding and decoding (`HubProtocol.writeMessage`, `parseMessages`), the handshake request and response format (`HandshakeProtocol`), and `TypeConverter` are defined in other files of the client and are not modelled here. The codec and the handshake parser are abstract function fields that may fail; their round trip is not modelled, and type conversion is left out.
- The handler classes (`InvocationHandler`, `StreamInvocationHandler`): `processCompletion`, `processStreamItem` and `raiseError` are effects in the trace, not executed code. Whether a stream item fails to convert is a parameter of `StreamItemProcessed`.
- `DispatchQueue.sync` and `Util.dispatchToMainThread`: each critical section is one atomic method step, and each main-thread closure is an ordered trace event. Interleavings between threads, and the later execution of main-thread closures, are not modelled.
- `Logger` calls (unknown completion or stream-item id, unexpected message type, receive error) are no-ops.
- `WebsocketsTransport` (socket I/O and URL scheme rewriting) is not part of this model. `Connection` appears only as `ConnectionStart`, `ConnectionStop` and `ConnectionSend` effects, plus the notifications it delivers.
- The optional `transport` argument of `start(transport:)` (`SignalRClient/HubConnection.swift:30-31`) is passed straight to the connection; `Start` takes no argument and its `ConnectionStart` effect does not record which transport was requested.
- Hub.HubConnection.On, Hub.HubConnection.HandleInvocation: method names are compared as sequences of Unicode scalar values, while Swift's `String` equality and dictionary keys (`SignalRClient/HubConnection.swift:51`, `:209`) identify canonically equivalent names (for example a precomposed and a decomposed accented letter). In the model such names are two keys, so a registration under one does not replace the other and an invocation naming one does not find the other. Invocation ids are decimal ASCII text, to which no other string is canonically equivalent, so the pending-call table is not affected.
- The `delegate` is a weak reference that may be nil. The model always records the notification.
- The counter is an unbounded `nat`; the 64-bit `Int` overflow after 2^63 − 1 calls is not modelled.
- Closures and argument values are opaque (`ClosureId`, `Value`); Swift's `[Any?]` arguments are not modelled further.
- FailInvocationWithError: does not promise exactly-once delivery. It raises the error whether or not the removal found the id (`SignalRClient/HubConnection.swift:127-135`), so a send failure reported after the call completed or was cancelled raises a second terminal callback. Its contract states only the removal and the one raise.
- SendCompleted: on the invocation path it inherits this, so it states no terminal count.
