/**
 * `gptcli/composite.py`: a chat listener and a response streamer that
 * forward every call to a list of children. The children are identified by
 * number; what they do with a call is outside the model, so each composite
 * records the calls it makes, in order, in its `trace`.
 */
module Composite {
  import opened Base

  /** The calls a chat listener receives. */
  datatype ChatEvent =
    | ChatStart
    | ChatClear
    | ChatRerun(success: bool)
    | ErrorRaised(error: string)
    | ChatMessage(message: Message)
    | ChatResponse(messages: seq<Message>, response: Message, overrides: Config)
    | StreamerRequested

  /** The calls a response streamer receives; `Leave` carries the `__exit__` arguments. */
  datatype StreamEvent = Enter | NextToken(token: string) | Leave(args: seq<string>)

  /** One forwarded call: which child got which event. */
  datatype Call<E> = Call(target: nat, event: E)

  /** The calls that forwarding `e` to `targets` makes, one per target, in list order. */
  function Fanout<E>(targets: seq<nat>, e: E): (r: seq<Call<E>>)
    ensures |r| == |targets|
    ensures forall i :: 0 <= i < |targets| ==> r[i] == Call(targets[i], e)
  {
    if targets == [] then [] else [Call(targets[0], e)] + Fanout(targets[1..], e)
  }

  /** Forwarding to a list is forwarding to its first part, then to the rest. */
  lemma {:induction false} FanoutSplit<E>(a: seq<nat>, b: seq<nat>, e: E)
    ensures Fanout(a + b, e) == Fanout(a, e) + Fanout(b, e)
  {
    if a == [] {
      assert a + b == b;
    } else {
      assert (a + b)[1..] == a[1..] + b;
      FanoutSplit(a[1..], b, e);
    }
  }

  class CompositeResponseStreamer {
    const streamers: seq<nat>
    var trace: seq<Call<StreamEvent>>

    constructor (streamers: seq<nat>)
      ensures this.streamers == streamers && trace == []
    {
      this.streamers := streamers;
      trace := [];
    }

    /** One loop over `self.streamers`, forwarding `e` to each. */
    method Forward(e: StreamEvent)
      modifies this
      ensures trace == old(trace) + Fanout(streamers, e)
    {
      for i := 0 to |streamers|
        invariant trace == old(trace) + Fanout(streamers[..i], e)
      {
        FanoutSplit(streamers[..i], [streamers[i]], e);
        assert streamers[..i + 1] == streamers[..i] + [streamers[i]];
        trace := trace + [Call(streamers[i], e)];
      }
      assert streamers[..|streamers|] == streamers;
    }

    /** `__enter__`: enters every streamer in order and returns the composite itself. */
    method EnterContext() returns (self: CompositeResponseStreamer)
      modifies this
      ensures self == this
      ensures trace == old(trace) + Fanout(streamers, Enter)
    {
      Forward(Enter);
      self := this;
    }

    /** `on_next_token`: the same token to every streamer, in order. */
    method OnNextToken(token: string)
      modifies this
      ensures trace == old(trace) + Fanout(streamers, NextToken(token))
    {
      Forward(NextToken(token));
    }

    /** `__exit__`: the arguments, unchanged, to every streamer in order. */
    method ExitContext(args: seq<string>)
      modifies this
      ensures trace == old(trace) + Fanout(streamers, Leave(args))
    {
      Forward(Leave(args));
    }
  }

  class CompositeChatListener {
    const listeners: seq<nat>
    var trace: seq<Call<ChatEvent>>

    constructor (listeners: seq<nat>)
      ensures this.listeners == listeners && trace == []
    {
      this.listeners := listeners;
      trace := [];
    }

    /** One loop over `self.listeners`, forwarding `e` to each. */
    method Forward(e: ChatEvent)
      modifies this
      ensures trace == old(trace) + Fanout(listeners, e)
    {
      for i := 0 to |listeners|
        invariant trace == old(trace) + Fanout(listeners[..i], e)
      {
        FanoutSplit(listeners[..i], [listeners[i]], e);
        assert listeners[..i + 1] == listeners[..i] + [listeners[i]];
        trace := trace + [Call(listeners[i], e)];
      }
      assert listeners[..|listeners|] == listeners;
    }

    method OnChatStart()
      modifies this
      ensures trace == old(trace) + Fanout(listeners, ChatStart)
    {
      Forward(ChatStart);
    }

    method OnChatClear()
      modifies this
      ensures trace == old(trace) + Fanout(listeners, ChatClear)
    {
      Forward(ChatClear);
    }

    method OnChatRerun(success: bool)
      modifies this
      ensures trace == old(trace) + Fanout(listeners, ChatRerun(success))
    {
      Forward(ChatRerun(success));
    }

    method OnError(e: string)
      modifies this
      ensures trace == old(trace) + Fanout(listeners, ErrorRaised(e))
    {
      Forward(ErrorRaised(e));
    }

    method OnChatMessage(message: Message)
      modifies this
      ensures trace == old(trace) + Fanout(listeners, ChatMessage(message))
    {
      Forward(ChatMessage(message));
    }

    method OnChatResponse(messages: seq<Message>, response: Message, overrides: Config)
      modifies this
      ensures trace == old(trace) + Fanout(listeners, ChatResponse(messages, response, overrides))
    {
      Forward(ChatResponse(messages, response, overrides));
    }

    /**
     * `response_streamer`: asks each listener, in order, for its streamer
     * (`childOf` says which one it hands back) and wraps them in a new
     * composite streamer, in the same order.
     */
    method ResponseStreamer(childOf: nat -> nat) returns (s: CompositeResponseStreamer)
      modifies this
      ensures fresh(s) && s.trace == []
      ensures |s.streamers| == |listeners|
      ensures forall i :: 0 <= i < |listeners| ==> s.streamers[i] == childOf(listeners[i])
      ensures trace == old(trace) + Fanout(listeners, StreamerRequested)
    {
      var children := seq(|listeners|, i requires 0 <= i < |listeners| => childOf(listeners[i]));
      Forward(StreamerRequested);
      s := new CompositeResponseStreamer(children);
    }
  }
}
