/**
 * The hub connection engine: the invocation-id counter, the pending-call
 * table, the table of server-invocation callbacks and the one-shot handshake
 * flag, updated in place by the caller-facing operations and by the
 * transport's notifications. Each critical section on the connection's
 * serial queue is one atomic step here; every callback dispatched to the main
 * thread, every delegate notification and every request to the transport is
 * appended, in order, to the ghost `trace`.
 */
module Hub {
  import opened Wrappers
  import opened Messages
  import opened InvocationIds
  import opened Dispatch

  /** The error each pending call receives when the connection closes. */
  function InvocationError(error: Option<Error>): Error
  {
    match error
    case Some(transportError) => transportError
    case None => HubInvocationCancelled
  }

  /** e raises err on the handler that handlers records under e's id. */
  ghost predicate RaisedFrom(e: Event, handlers: map<string, Handler>, err: Error)
  {
    e.RaiseError? && e.invocationId in handlers && e.handler == handlers[e.invocationId] && e.raised == err
  }

  /**
   * The errors raised when the table is drained: one per drained handler, on
   * that handler, with the close error, and one terminal callback per id.
   */
  ghost predicate FanOut(raised: seq<Event>, handlers: map<string, Handler>, err: Error)
  {
    && |raised| == |handlers|
    && (forall i | 0 <= i < |raised| :: RaisedFrom(raised[i], handlers, err))
    && forall id :: TerminalCount(raised, id) == if id in handlers then 1 else 0
  }

  /**
   * Part way through draining handlers: the ids still in remaining have had
   * nothing raised, every other drained id exactly one error.
   */
  ghost predicate Draining(raised: seq<Event>, handlers: map<string, Handler>, remaining: set<string>, err: Error)
  {
    && remaining <= handlers.Keys
    && |raised| == |handlers| - |remaining|
    && (forall i | 0 <= i < |raised| :: RaisedFrom(raised[i], handlers, err))
    && forall id :: TerminalCount(raised, id) == if id in handlers && id !in remaining then 1 else 0
  }

  /** Raising on one more remaining handler moves its id, and only its id, to the drained side. */
  lemma RaiseOneMore(raised: seq<Event>, handlers: map<string, Handler>, remaining: set<string>, id: string, err: Error)
    requires id in remaining && Draining(raised, handlers, remaining, err)
    ensures Draining(raised + [RaiseError(handlers[id], id, err)], handlers, remaining - {id}, err)
  {
    var e := RaiseError(handlers[id], id, err);
    AppendEffect(raised, e);
    assert forall i | 0 <= i < |raised + [e]| :: RaisedFrom((raised + [e])[i], handlers, err);
  }

  /** Once nothing remains, the drained errors are the fan-out. */
  lemma DrainedFanOut(raised: seq<Event>, handlers: map<string, Handler>, err: Error)
    requires Draining(raised, handlers, {}, err)
    ensures FanOut(raised, handlers, err)
  {
  }

  /**
   * A trace in which no drained id had ended, followed by the fan-out and one
   * more effect that ends nothing, ends each drained id exactly once.
   */
  lemma ClosedOnce(before: seq<Event>, raised: seq<Event>, last: Event, handlers: map<string, Handler>, err: Error)
    requires forall id | id in handlers :: TerminalCount(before, id) == 0
    requires FanOut(raised, handlers, err) && Terminates(last) == {}
    ensures var t := before + raised + [last];
      && |t| == |before| + |handlers| + 1
      && t[..|before|] == before && t[|t| - 1] == last
      && FanOut(t[|before|..|t| - 1], handlers, err)
      && forall i | |before| <= i < |t| - 1 :: RaisedFrom(t[i], handlers, err)
    ensures forall id | id in handlers :: TerminalCount(before + raised + [last], id) == 1
  {
    var t := before + raised + [last];
    assert t[|before|..|t| - 1] == raised;
    forall id | id in handlers
      ensures TerminalCount(before + raised + [last], id) == 1
    {
      TerminalCountAppend(before, raised, id);
      AppendEffect(before + raised, last);
    }
  }

  class HubConnection {
    var invocationId: nat
    var pendingCalls: map<string, Handler>
    var callbacks: map<string, ClosureId>
    var handshakeHandled: bool

    /** Every effect the connection has had on the outside world, in order. */
    ghost var trace: seq<Event>

    const hubProtocol: HubProtocol
    const handshake: HandshakeProtocol

    /** The id is pending or some effect in the trace concerns it. */
    ghost predicate Used(id: string)
      reads this
    {
      id in pendingCalls || id in MentionedIds(trace)
    }

    /**
     * No id that a later counter value will render is in use yet, and no
     * pending call has had its terminal callback.
     */
    ghost predicate Valid()
      reads this
    {
      && (forall k: nat | k > invocationId :: !Used(DecimalString(k)))
      && forall id | id in pendingCalls :: TerminalCount(trace, id) == 0
    }

    /** The transport was handed the completion closure k with some send. */
    ghost predicate Handed(k: SendCallback)
      reads this
    {
      exists i | 0 <= i < |trace| :: trace[i].ConnectionSend? && trace[i].onSent == k
    }

    /**
     * One tracked call: the counter is incremented and its new value, as text,
     * is the call's id, never used before; the handler is recorded under it and
     * the invocation is sent, or, when it cannot be encoded, the call fails at
     * once and is removed again.
     */
    twostate predicate Allocated(handler: Handler, methodName: string, arguments: seq<Value>, id: string)
      reads this
    {
      && invocationId == old(invocationId) + 1
      && id == DecimalString(invocationId)
      && id !in old(pendingCalls)
      && id !in MentionedIds(old(trace))
      && callbacks == old(callbacks)
      && handshakeHandled == old(handshakeHandled)
      && match hubProtocol.writeMessage(CreateInvocationMessage(handler, id, methodName, arguments))
         case Success(data) =>
           pendingCalls == old(pendingCalls)[id := handler]
           && trace == old(trace) + [ConnectionSend(data, AfterInvocation(handler, id))]
         case Failure(e) =>
           pendingCalls == old(pendingCalls)
           && trace == old(trace) + [RaiseError(handler, id, e)]
    }

    constructor (hubProtocol: HubProtocol, handshake: HandshakeProtocol)
      ensures Valid()
      ensures this.hubProtocol == hubProtocol && this.handshake == handshake
      ensures invocationId == 0 && pendingCalls == map[] && callbacks == map[]
      ensures !handshakeHandled && trace == []
    {
      this.hubProtocol := hubProtocol;
      this.handshake := handshake;
      invocationId := 0;
      pendingCalls := map[];
      callbacks := map[];
      handshakeHandled := false;
      trace := [];
    }

    /** Records one effect; it may not concern a future id and may not end a pending call. */
    ghost method Emit(e: Event)
      requires Valid()
      requires forall k: nat | k > invocationId :: DecimalString(k) !in Mentions(e)
      requires Terminates(e) !! pendingCalls.Keys
      modifies this`trace
      ensures Valid()
      ensures trace == old(trace) + [e]
    {
      AppendEffect(trace, e);
      trace := trace + [e];
    }

    method Start()
      requires Valid()
      modifies this`trace
      ensures Valid()
      ensures trace == old(trace) + [ConnectionStart]
    {
      Emit(ConnectionStart);
    }

    method Stop()
      requires Valid()
      modifies this`trace
      ensures Valid()
      ensures trace == old(trace) + [ConnectionStop(None)]
    {
      Emit(ConnectionStop(None));
    }

    /** The transport opened: send the handshake request. */
    method ConnectionStarted()
      requires Valid()
      modifies this`trace
      ensures Valid()
      ensures trace == old(trace) + [ConnectionSend(handshake.handshakeRequest, AfterHandshake)]
    {
      Emit(ConnectionSend(handshake.handshakeRequest, AfterHandshake));
    }

    method ConnectionDidFailToOpen(error: Error)
      requires Valid()
      modifies this`trace
      ensures Valid()
      ensures trace == old(trace) + [DidFailToOpen(error)]
    {
      Emit(DidFailToOpen(error));
    }

    /** Registers the callback for server invocations of methodName; a later registration replaces it. */
    method On(methodName: string, callback: ClosureId)
      requires Valid()
      modifies this`callbacks
      ensures Valid()
      ensures methodName in callbacks && callbacks[methodName] == callback
      ensures forall other | other != methodName :: (other in callbacks <==> other in old(callbacks))
      ensures forall other | other != methodName && other in callbacks :: callbacks[other] == old(callbacks)[other]
    {
      callbacks := callbacks[methodName := callback];
    }

    /** Fire-and-forget: an Invocation without an id; no table changes. */
    method Send(methodName: string, arguments: seq<Value>, sendDidComplete: ClosureId)
      requires Valid()
      modifies this`trace
      ensures Valid()
      ensures trace == old(trace) + [
        match hubProtocol.writeMessage(Invocation(None, methodName, arguments))
        case Success(data) => ConnectionSend(data, AfterSend(sendDidComplete))
        case Failure(e) => SendDidComplete(sendDidComplete, Some(e))]
    {
      var message := Invocation(None, methodName, arguments);
      match hubProtocol.writeMessage(message) {
        case Success(data) => Emit(ConnectionSend(data, AfterSend(sendDidComplete)));
        case Failure(e) => Emit(SendDidComplete(sendDidComplete, Some(e)));
      }
    }

    /** A single-result call. */
    method Invoke(methodName: string, arguments: seq<Value>, invocationDidComplete: ClosureId)
      requires Valid()
      modifies this`invocationId, this`pendingCalls, this`trace
      ensures Valid()
      ensures Allocated(Unary(invocationDidComplete), methodName, arguments, DecimalString(invocationId))
    {
      var _ := InvokeWith(Unary(invocationDidComplete), methodName, arguments);
    }

    /** A streaming call; the handle carries the id to cancel with. */
    method Stream(methodName: string, arguments: seq<Value>, streamItemReceived: ClosureId, invocationDidComplete: ClosureId)
      returns (handle: StreamHandle)
      requires Valid()
      modifies this`invocationId, this`pendingCalls, this`trace
      ensures Valid()
      ensures Allocated(Streaming(streamItemReceived, invocationDidComplete), methodName, arguments, handle.invocationId)
    {
      var id := InvokeWith(Streaming(streamItemReceived, invocationDidComplete), methodName, arguments);
      handle := StreamHandle(id);
    }

    /** Allocates the next id, records the handler under it and sends the invocation. */
    method InvokeWith(handler: Handler, methodName: string, arguments: seq<Value>) returns (id: string)
      requires Valid()
      modifies this`invocationId, this`pendingCalls, this`trace
      ensures Valid()
      ensures Allocated(handler, methodName, arguments, id)
    {
      id := AllocateId(handler);
      var message := CreateInvocationMessage(handler, id, methodName, arguments);
      match hubProtocol.writeMessage(message) {
        case Success(data) =>
          Emit(ConnectionSend(data, AfterInvocation(handler, id)));
        case Failure(e) =>
          FailInvocationWithError(handler, id, e);
          assert old(pendingCalls)[id := handler] - {id} == old(pendingCalls);
      }
    }

    /**
     * The critical section of a tracked call: the counter goes up by one, its
     * decimal text is the id, and the handler is recorded under that id, which
     * no pending call and no earlier effect has used.
     */
    method AllocateId(handler: Handler) returns (id: string)
      requires Valid()
      modifies this`invocationId, this`pendingCalls
      ensures Valid()
      ensures invocationId == old(invocationId) + 1 && id == DecimalString(invocationId)
      ensures id !in old(pendingCalls) && id !in MentionedIds(trace)
      ensures forall k: nat | k > invocationId :: DecimalString(k) != id
      ensures pendingCalls == old(pendingCalls)[id := handler]
    {
      forall k: nat | k > invocationId + 1
        ensures DecimalString(k) != DecimalString(invocationId + 1)
      {
        DecimalStringInjective(k, invocationId + 1);
      }
      TerminalCountMentioned(trace, DecimalString(invocationId + 1));
      invocationId := invocationId + 1;
      id := DecimalString(invocationId);
      pendingCalls := pendingCalls[id := handler];
    }

    /**
     * Cancelling a stream removes its id before the cancel message is built;
     * a failure to encode or send it goes to cancelDidFail only.
     */
    method CancelStreamInvocation(handle: StreamHandle, cancelDidFail: ClosureId)
      requires Valid()
      modifies this`pendingCalls, this`trace
      ensures Valid()
      ensures pendingCalls == old(pendingCalls) - {handle.invocationId}
      ensures trace == old(trace) + [
        match hubProtocol.writeMessage(CancelInvocation(handle.invocationId))
        case Success(data) => ConnectionSend(data, AfterCancel(cancelDidFail))
        case Failure(e) => CancelDidFail(cancelDidFail, e)]
      ensures forall id :: TerminalCount(trace, id) == TerminalCount(old(trace), id)
    {
      pendingCalls := pendingCalls - {handle.invocationId};
      var message := CancelInvocation(handle.invocationId);
      match hubProtocol.writeMessage(message) {
        case Success(data) => Emit(ConnectionSend(data, AfterCancel(cancelDidFail)));
        case Failure(e) => Emit(CancelDidFail(cancelDidFail, e));
      }
    }

    /**
     * Removes the id (present or not) and raises the error on the handler.
     * The raise is unconditional, so it is not an exactly-once delivery.
     */
    method FailInvocationWithError(handler: Handler, id: string, error: Error)
      requires Valid()
      requires Used(id)
      modifies this`pendingCalls, this`trace
      ensures Valid()
      ensures pendingCalls == old(pendingCalls) - {id}
      ensures trace == old(trace) + [RaiseError(handler, id, error)]
    {
      pendingCalls := pendingCalls - {id};
      Emit(RaiseError(handler, id, error));
    }

    /** The transport finished a send and calls the completion closure it was handed. */
    method SendCompleted(k: SendCallback, error: Option<Error>)
      requires Valid()
      requires Handed(k)
      modifies this`pendingCalls, this`trace
      ensures Valid()
      ensures !k.AfterInvocation? || error.None? ==> pendingCalls == old(pendingCalls)
      ensures match k
        case AfterHandshake =>
          trace == old(trace) + (if error.Some? then [DidFailToOpen(error.value)] else [])
        case AfterSend(closure) =>
          trace == old(trace) + [SendDidComplete(closure, error)]
        case AfterCancel(closure) =>
          trace == old(trace) + (if error.Some? then [CancelDidFail(closure, error.value)] else [])
        case AfterInvocation(handler, id) =>
          if error.Some? then
            pendingCalls == old(pendingCalls) - {id} && trace == old(trace) + [RaiseError(handler, id, error.value)]
          else
            trace == old(trace)
    {
      match k {
        case AfterHandshake =>
          if error.Some? {
            Emit(DidFailToOpen(error.value));
          }
        case AfterSend(closure) =>
          Emit(SendDidComplete(closure, error));
        case AfterCancel(closure) =>
          if error.Some? {
            Emit(CancelDidFail(closure, error.value));
          }
        case AfterInvocation(handler, id) =>
          if error.Some? {
            ghost var i :| 0 <= i < |trace| && trace[i].ConnectionSend? && trace[i].onSent == k;
            MentionedAt(trace, i);
            FailInvocationWithError(handler, id, error.value);
          }
      }
    }

    /**
     * The main-thread continuation of a delivered stream item: only when the
     * handler could not process the item is the call failed with that error.
     */
    method StreamItemProcessed(handler: Handler, item: Message, error: Option<Error>)
      requires Valid()
      requires item.StreamItem? && ProcessStreamItem(handler, item) in trace
      modifies this`pendingCalls, this`trace
      ensures Valid()
      ensures error.None? ==> pendingCalls == old(pendingCalls) && trace == old(trace)
      ensures error.Some? ==>
        pendingCalls == old(pendingCalls) - {item.invocationId}
        && trace == old(trace) + [RaiseError(handler, item.invocationId, error.value)]
    {
      if error.Some? {
        ghost var i :| 0 <= i < |trace| && trace[i] == ProcessStreamItem(handler, item);
        MentionedAt(trace, i);
        FailInvocationWithError(handler, item.invocationId, error.value);
      }
    }

    /**
     * Inbound data. The first delivery ever passes the handshake gate: the flag
     * is set whatever the outcome, a handshake error is reported and ends the
     * processing of the frame, and on success the bytes after the handshake are
     * dispatched. Every later delivery is dispatched whole.
     */
    method HubConnectionDidReceiveData(data: Bytes)
      requires Valid()
      modifies this`handshakeHandled, this`pendingCalls, this`trace
      ensures Valid()
      ensures handshakeHandled
      ensures old(handshakeHandled) ==>
        var r := Deliver(old(pendingCalls), callbacks, hubProtocol.parseMessages(data));
        pendingCalls == r.pending && trace == old(trace) + r.effects
      ensures !old(handshakeHandled) ==>
        var response := handshake.parseHandshakeResponse(data);
        if response.error.Some? then
          pendingCalls == old(pendingCalls) && trace == old(trace) + [DidFailToOpen(response.error.value)]
        else
          var r := Deliver(old(pendingCalls), callbacks, hubProtocol.parseMessages(response.remainingData));
          pendingCalls == r.pending && trace == old(trace) + [DidOpen] + r.effects
    {
      var bytes := data;
      if !handshakeHandled {
        var response := handshake.parseHandshakeResponse(bytes);
        handshakeHandled := true;
        bytes := response.remainingData;
        if response.error.Some? {
          Emit(DidFailToOpen(response.error.value));
          return;
        }
        Emit(DidOpen);
      }
      match hubProtocol.parseMessages(bytes) {
        case Failure(_) =>
        case Success(messages) => DispatchMessages(messages);
      }
    }

    /** The messages parsed from one frame, handled one after the other in array order. */
    method DispatchMessages(messages: seq<Message>)
      requires Valid()
      modifies this`pendingCalls, this`trace
      ensures Valid()
      ensures var r := DispatchAll(old(pendingCalls), callbacks, messages);
        pendingCalls == r.pending && trace == old(trace) + r.effects
    {
      var i := 0;
      while i < |messages|
        invariant 0 <= i <= |messages|
        invariant Valid() && DispatchedUpTo(old(pendingCalls), old(trace), messages, i)
      {
        HandleNext(old(pendingCalls), old(trace), messages, i);
        i := i + 1;
      }
      assert messages[..|messages|] == messages;
    }

    /** The first i messages of the frame have been handled, starting from pending and effects. */
    ghost predicate DispatchedUpTo(pending: map<string, Handler>, effects: seq<Event>, messages: seq<Message>, i: nat)
      requires i <= |messages|
      reads this
    {
      var done := DispatchAll(pending, callbacks, messages[..i]);
      pendingCalls == done.pending && trace == effects + done.effects
    }

    /** One turn of the dispatch loop: message i is handled after the ones before it. */
    method HandleNext(ghost pending: map<string, Handler>, ghost effects: seq<Event>, messages: seq<Message>, i: nat)
      requires i < |messages|
      requires Valid() && DispatchedUpTo(pending, effects, messages, i)
      modifies this`pendingCalls, this`trace
      ensures Valid() && DispatchedUpTo(pending, effects, messages, i + 1)
    {
      ghost var done := DispatchAll(pending, callbacks, messages[..i]);
      DispatchAllStep(pending, callbacks, messages, i);
      HandleMessage(messages[i]);
      ghost var step := DispatchMessage(done.pending, callbacks, messages[i]);
      assert effects + done.effects + step.effects == effects + (done.effects + step.effects);
    }

    /** One parsed message, by its type; Ping and unexpected types change nothing. */
    method HandleMessage(message: Message)
      requires Valid()
      modifies this`pendingCalls, this`trace
      ensures Valid()
      ensures var r := DispatchMessage(old(pendingCalls), callbacks, message);
        pendingCalls == r.pending && trace == old(trace) + r.effects
    {
      match message {
        case Completion(_, _, _) => HandleCompletion(message);
        case StreamItem(_, _) => HandleStreamItem(message);
        case Invocation(_, _, _) => HandleInvocation(message);
        case Close(error) => Emit(ConnectionStop(Some(ServerClose(error))));
        case Ping =>
        case _ =>
      }
    }

    /** A Completion takes its handler out of the table and delivers to it, once. */
    method HandleCompletion(message: Message)
      requires Valid()
      requires message.Completion?
      modifies this`pendingCalls, this`trace
      ensures Valid()
      ensures pendingCalls == old(pendingCalls) - {message.invocationId}
      ensures message.invocationId in old(pendingCalls) ==>
        trace == old(trace) + [ProcessCompletion(old(pendingCalls)[message.invocationId], message)]
        && TerminalCount(trace, message.invocationId) == 1
      ensures message.invocationId !in old(pendingCalls) ==> trace == old(trace)
    {
      var id := message.invocationId;
      if id in pendingCalls {
        var handler := pendingCalls[id];
        pendingCalls := pendingCalls - {id};
        Emit(ProcessCompletion(handler, message));
      } else {
        pendingCalls := pendingCalls - {id};
      }
    }

    /** A StreamItem goes to its handler, which stays in the table. */
    method HandleStreamItem(message: Message)
      requires Valid()
      requires message.StreamItem?
      modifies this`trace
      ensures Valid()
      ensures pendingCalls == old(pendingCalls)
      ensures message.invocationId in pendingCalls ==>
        trace == old(trace) + [ProcessStreamItem(pendingCalls[message.invocationId], message)]
      ensures message.invocationId !in pendingCalls ==> trace == old(trace)
    {
      var id := message.invocationId;
      if id in pendingCalls {
        Emit(ProcessStreamItem(pendingCalls[id], message));
      }
    }

    /** A server invocation goes to the callback registered for its target, if any. */
    method HandleInvocation(message: Message)
      requires Valid()
      requires message.Invocation?
      modifies this`trace
      ensures Valid()
      ensures message.target in callbacks ==>
        trace == old(trace) + [InvokeCallback(callbacks[message.target], message.arguments)]
      ensures message.target !in callbacks ==> trace == old(trace)
    {
      if message.target in callbacks {
        Emit(InvokeCallback(callbacks[message.target], message.arguments));
      }
    }

    /**
     * The connection closed: the table is drained at once, every drained handler
     * gets the transport's error (or a cancellation error) exactly once, in no
     * particular order, and then the delegate is told. The callbacks stay.
     */
    method HubConnectionDidClose(error: Option<Error>)
      requires Valid()
      modifies this`pendingCalls, this`trace
      ensures Valid()
      ensures pendingCalls == map[] && callbacks == old(callbacks)
      ensures |trace| == |old(trace)| + |old(pendingCalls)| + 1
      ensures trace[..|old(trace)|] == old(trace) && trace[|trace| - 1] == DidClose(error)
      ensures FanOut(trace[|old(trace)|..|trace| - 1], old(pendingCalls), InvocationError(error))
      ensures forall i | |old(trace)| <= i < |trace| - 1 ::
        trace[i].RaiseError? && trace[i].raised == (if error.Some? then error.value else HubInvocationCancelled)
      ensures forall id | id in old(pendingCalls) :: TerminalCount(trace, id) == 1
    {
      var invocationError := InvocationError(error);
      var handlers := TakePending();
      ghost var raised := RaiseOnEach(handlers, invocationError);
      Emit(DidClose(error));
      ClosedOnce(old(trace), raised, DidClose(error), handlers, invocationError);
    }

    /** Empties the pending-call table and returns what it held. */
    method TakePending() returns (handlers: map<string, Handler>)
      requires Valid()
      modifies this`pendingCalls
      ensures Valid() && pendingCalls == map[] && handlers == old(pendingCalls)
      ensures forall k: nat | k > invocationId :: DecimalString(k) !in handlers
    {
      handlers := pendingCalls;
      pendingCalls := map[];
    }

    /** The loop over the drained handlers: each one gets the error once, in no particular order. */
    method RaiseOnEach(handlers: map<string, Handler>, invocationError: Error) returns (ghost raised: seq<Event>)
      requires Valid() && pendingCalls == map[]
      requires forall k: nat | k > invocationId :: DecimalString(k) !in handlers
      modifies this`trace
      ensures Valid()
      ensures trace == old(trace) + raised
      ensures FanOut(raised, handlers, invocationError)
    {
      var remaining := handlers.Keys;
      raised := [];
      while remaining != {}
        invariant Valid() && pendingCalls == map[]
        invariant trace == old(trace) + raised
        invariant Draining(raised, handlers, remaining, invocationError)
        decreases |remaining|
      {
        var id :| id in remaining;
        var e := RaiseError(handlers[id], id, invocationError);
        RaiseOneMore(raised, handlers, remaining, id, invocationError);
        assert old(trace) + raised + [e] == old(trace) + (raised + [e]);
        Emit(e);
        raised := raised + [e];
        remaining := remaining - {id};
      }
      DrainedFanOut(raised, handlers, invocationError);
    }
  }
}
