/**
 * Inbound dispatch on values: what one parsed message, and a whole parsed
 * frame taken in array order, does to the pending-call table and which
 * callbacks it delivers. Also the measures on a sequence of effects used to
 * state exactly-once delivery.
 */
module Dispatch {
  import opened Wrappers
  import opened Messages

  /** The pending-call table after some dispatch, and the effects delivered on the way. */
  datatype Outcome = Outcome(pending: map<string, Handler>, effects: seq<Event>)

  /**
   * One parsed message. A Completion removes its id and delivers the completion
   * to the removed handler; a StreamItem only reads the table; an Invocation
   * goes to the callback registered for its target; Close asks the transport to
   * stop with a server-close error. Everything else (Ping, unexpected types,
   * unknown ids, unregistered targets) changes nothing and delivers nothing.
   */
  function DispatchMessage(pending: map<string, Handler>, callbacks: map<string, ClosureId>, m: Message): (r: Outcome)
    ensures r.pending == if m.Completion? then pending - {m.invocationId} else pending
    ensures |r.effects| <= 1
  {
    match m
    case Completion(id, _, _) =>
      if id in pending then Outcome(pending - {id}, [ProcessCompletion(pending[id], m)])
      else Outcome(pending, [])
    case StreamItem(id, _) =>
      if id in pending then Outcome(pending, [ProcessStreamItem(pending[id], m)])
      else Outcome(pending, [])
    case Invocation(_, target, arguments) =>
      if target in callbacks then Outcome(pending, [InvokeCallback(callbacks[target], arguments)])
      else Outcome(pending, [])
    case Close(error) => Outcome(pending, [ConnectionStop(Some(ServerClose(error)))])
    case Ping => Outcome(pending, [])
    case _ => Outcome(pending, [])
  }

  /**
   * A parsed frame, dispatched message by message in array order. It removes
   * exactly the ids of its Completion messages and leaves every other entry as
   * it was; it delivers at most one callback per message.
   */
  function DispatchAll(pending: map<string, Handler>, callbacks: map<string, ClosureId>, messages: seq<Message>): (r: Outcome)
    ensures r.pending == pending - CompletedIds(messages)
    ensures |r.effects| <= |messages|
    decreases |messages|
  {
    if messages == [] then Outcome(pending, [])
    else
      var before := DispatchAll(pending, callbacks, messages[..|messages| - 1]);
      var last := DispatchMessage(before.pending, callbacks, messages[|messages| - 1]);
      Outcome(last.pending, before.effects + last.effects)
  }

  /** Dispatching one more message of the frame extends the outcome of the messages before it. */
  lemma DispatchAllStep(pending: map<string, Handler>, callbacks: map<string, ClosureId>, messages: seq<Message>, i: nat)
    requires i < |messages|
    ensures var before := DispatchAll(pending, callbacks, messages[..i]);
            var step := DispatchMessage(before.pending, callbacks, messages[i]);
            DispatchAll(pending, callbacks, messages[..i + 1]) == Outcome(step.pending, before.effects + step.effects)
  {
    assert messages[..i + 1][..i] == messages[..i];
  }

  /**
   * The bytes of a frame after parsing: a frame that parses is dispatched
   * whole; one that does not changes nothing and delivers nothing.
   */
  function Deliver(pending: map<string, Handler>, callbacks: map<string, ClosureId>, parsed: Result<seq<Message>, Error>): (r: Outcome)
    ensures parsed.Success? ==> r.pending == pending - CompletedIds(parsed.value)
    ensures parsed.Failure? ==> r.pending == pending && r.effects == []
  {
    match parsed
    case Success(messages) => DispatchAll(pending, callbacks, messages)
    case Failure(_) => Outcome(pending, [])
  }

  /** The ids of the Completion messages in a frame. */
  function CompletedIds(messages: seq<Message>): set<string>
    decreases |messages|
  {
    if messages == [] then {}
    else
      var last := messages[|messages| - 1];
      CompletedIds(messages[..|messages| - 1]) + (if last.Completion? then {last.invocationId} else {})
  }

  /** The invocation ids an effect concerns. */
  function Mentions(e: Event): set<string>
  {
    match e
    case ProcessCompletion(_, m) => if m.Completion? then {m.invocationId} else {}
    case ProcessStreamItem(_, m) => if m.StreamItem? then {m.invocationId} else {}
    case RaiseError(_, id, _) => {id}
    case ConnectionSend(_, k) => if k.AfterInvocation? then {k.invocationId} else {}
    case _ => {}
  }

  /** The invocation ids an effect ends: a delivered completion or a raised error. */
  function Terminates(e: Event): set<string>
  {
    match e
    case ProcessCompletion(_, m) => if m.Completion? then {m.invocationId} else {}
    case RaiseError(_, id, _) => {id}
    case _ => {}
  }

  function MentionedIds(effects: seq<Event>): set<string>
    decreases |effects|
  {
    if effects == [] then {}
    else MentionedIds(effects[..|effects| - 1]) + Mentions(effects[|effects| - 1])
  }

  /** How many terminal callbacks for id a sequence of effects delivers. */
  function TerminalCount(effects: seq<Event>, id: string): nat
    decreases |effects|
  {
    if effects == [] then 0
    else TerminalCount(effects[..|effects| - 1], id) + (if id in Terminates(effects[|effects| - 1]) then 1 else 0)
  }

  lemma {:induction false} MentionedIdsAppend(a: seq<Event>, b: seq<Event>)
    ensures MentionedIds(a + b) == MentionedIds(a) + MentionedIds(b)
    decreases |b|
  {
    if b != [] {
      var init := b[..|b| - 1];
      assert (a + b)[..|a + b| - 1] == a + init;
      MentionedIdsAppend(a, init);
    } else {
      assert a + b == a;
    }
  }

  lemma {:induction false} TerminalCountAppend(a: seq<Event>, b: seq<Event>, id: string)
    ensures TerminalCount(a + b, id) == TerminalCount(a, id) + TerminalCount(b, id)
    decreases |b|
  {
    if b != [] {
      var init := b[..|b| - 1];
      assert (a + b)[..|a + b| - 1] == a + init;
      TerminalCountAppend(a, init, id);
    } else {
      assert a + b == a;
    }
  }

  /** Appending one effect adds its ids and counts its terminal callback. */
  lemma AppendEffect(effects: seq<Event>, e: Event)
    ensures MentionedIds(effects + [e]) == MentionedIds(effects) + Mentions(e)
    ensures forall id :: TerminalCount(effects + [e], id) == TerminalCount(effects, id) + (if id in Terminates(e) then 1 else 0)
  {
    assert (effects + [e])[..|effects|] == effects;
  }

  /** Every effect's ids are among the ids the sequence mentions. */
  lemma {:induction false} MentionedAt(effects: seq<Event>, i: nat)
    requires i < |effects|
    ensures Mentions(effects[i]) <= MentionedIds(effects)
    decreases |effects|
  {
    if i < |effects| - 1 {
      var init := effects[..|effects| - 1];
      assert init[i] == effects[i];
      MentionedAt(init, i);
    }
  }

  /** A terminal callback is only ever delivered for a mentioned id. */
  lemma {:induction false} TerminalCountMentioned(effects: seq<Event>, id: string)
    ensures TerminalCount(effects, id) > 0 ==> id in MentionedIds(effects)
    decreases |effects|
  {
    if effects != [] {
      TerminalCountMentioned(effects[..|effects| - 1], id);
    }
  }

  /** A single effect mentions and ends exactly its own ids. */
  lemma SingleEffect(e: Event)
    ensures MentionedIds([e]) == Mentions(e)
    ensures forall id :: TerminalCount([e], id) == if id in Terminates(e) then 1 else 0
  {
    assert [e][..0] == [];
  }

  /** One message delivers at most one effect, about a call that was pending. */
  lemma DispatchMessageEffects(pending: map<string, Handler>, callbacks: map<string, ClosureId>, m: Message, id: string)
    ensures MentionedIds(DispatchMessage(pending, callbacks, m).effects) <= pending.Keys
    ensures TerminalCount(DispatchMessage(pending, callbacks, m).effects, id)
         == if m.Completion? && m.invocationId == id && id in pending then 1 else 0
  {
    var effects := DispatchMessage(pending, callbacks, m).effects;
    if effects != [] {
      assert |effects| == 1 && effects == [effects[0]];
      SingleEffect(effects[0]);
    }
  }

  /** A frame only delivers callbacks for calls that were pending when it arrived. */
  lemma {:induction false} DispatchAllMentions(pending: map<string, Handler>, callbacks: map<string, ClosureId>, messages: seq<Message>)
    ensures MentionedIds(DispatchAll(pending, callbacks, messages).effects) <= pending.Keys
    decreases |messages|
  {
    if messages != [] {
      var init := messages[..|messages| - 1];
      var before := DispatchAll(pending, callbacks, init);
      var last := DispatchMessage(before.pending, callbacks, messages[|messages| - 1]);
      DispatchAllMentions(pending, callbacks, init);
      DispatchMessageEffects(before.pending, callbacks, messages[|messages| - 1], "");
      MentionedIdsAppend(before.effects, last.effects);
    }
  }

  /**
   * Exactly-once completion within a frame: a pending call gets one terminal
   * callback if the frame completes it and none otherwise, however many
   * Completion messages repeat its id; a call that is not pending gets none.
   */
  lemma {:induction false} DispatchAllCompletesOnce(pending: map<string, Handler>, callbacks: map<string, ClosureId>, messages: seq<Message>, id: string)
    ensures TerminalCount(DispatchAll(pending, callbacks, messages).effects, id)
         == if id in pending && id in CompletedIds(messages) then 1 else 0
    decreases |messages|
  {
    if messages != [] {
      var init := messages[..|messages| - 1];
      var before := DispatchAll(pending, callbacks, init);
      var last := DispatchMessage(before.pending, callbacks, messages[|messages| - 1]);
      DispatchAllCompletesOnce(pending, callbacks, init, id);
      DispatchMessageEffects(before.pending, callbacks, messages[|messages| - 1], id);
      TerminalCountAppend(before.effects, last.effects, id);
    }
  }

  /**
   * Messages are dispatched strictly in order: dispatching a + b is dispatching
   * a, then dispatching b against the table a left behind.
   */
  lemma {:induction false} DispatchAllConcat(pending: map<string, Handler>, callbacks: map<string, ClosureId>, a: seq<Message>, b: seq<Message>)
    ensures var first := DispatchAll(pending, callbacks, a);
            var second := DispatchAll(first.pending, callbacks, b);
            DispatchAll(pending, callbacks, a + b) == Outcome(second.pending, first.effects + second.effects)
    decreases |b|
  {
    if b == [] {
      assert a + b == a;
    } else {
      var init := b[..|b| - 1];
      assert (a + b)[..|a + b| - 1] == a + init;
      assert (a + b)[|a + b| - 1] == b[|b| - 1];
      DispatchAllConcat(pending, callbacks, a, init);
      var first := DispatchAll(pending, callbacks, a);
      var mid := DispatchAll(first.pending, callbacks, init);
      var last := DispatchMessage(mid.pending, callbacks, b[|b| - 1]);
      ConcatStep(DispatchAll(pending, callbacks, a + b), DispatchAll(pending, callbacks, a + init),
                 first, mid, DispatchAll(first.pending, callbacks, b), last);
    }
  }

  /** The bookkeeping of one step of DispatchAllConcat, kept apart from the definitions. */
  lemma ConcatStep(whole: Outcome, prefix: Outcome, first: Outcome, mid: Outcome, second: Outcome, last: Outcome)
    requires prefix == Outcome(mid.pending, first.effects + mid.effects)
    requires whole == Outcome(last.pending, prefix.effects + last.effects)
    requires second == Outcome(last.pending, mid.effects + last.effects)
    ensures whole == Outcome(second.pending, first.effects + second.effects)
  {
    assert first.effects + mid.effects + last.effects == first.effects + (mid.effects + last.effects);
  }

  /**
   * After a call is cancelled (its id is gone from the table), no later frame
   * delivers anything for it: its stream items and its completion are dropped.
   */
  lemma CancelledCallIsSilent(pending: map<string, Handler>, callbacks: map<string, ClosureId>, messages: seq<Message>, id: string)
    ensures id !in MentionedIds(DispatchAll(pending - {id}, callbacks, messages).effects)
  {
    DispatchAllMentions(pending - {id}, callbacks, messages);
  }
}
