/** The agent and the lists its loop works on, updated in place. */
module AgentState {
  import opened Common
  import opened AgentTrace

  datatype QueueMode = All | OneAtATime

  class PendingMessageQueue {
    var messages: seq<Message>
    var mode: QueueMode
    /** Everything enqueued, and everything drained, since the queue was last cleared. */
    ghost var enqueued: seq<Message>
    ghost var drained: seq<Message>

    ghost predicate Valid()
      reads this
    {
      enqueued == drained + messages
    }

    constructor (mode: QueueMode)
      ensures Valid() && messages == [] && this.mode == mode && enqueued == []
    {
      this.messages, this.mode, enqueued, drained := [], mode, [], [];
    }

    method Enqueue(message: Message)
      requires Valid()
      modifies this`messages, this`enqueued
      ensures Valid() && enqueued == old(enqueued) + [message] && messages == old(messages) + [message]
    {
      messages := messages + [message];
      enqueued := enqueued + [message];
    }

    /** Takes what the mode allows; an empty result means that the queue was empty. */
    method Drain() returns (taken: seq<Message>)
      requires Valid()
      modifies this`messages, this`drained
      ensures Valid() && drained == old(drained) + taken
      ensures |taken| == if mode.All? then |old(messages)| else if old(messages) == [] then 0 else 1
      ensures old(messages) == taken + messages
    {
      if mode.All? {
        taken := messages;
        messages := [];
      } else if messages == [] {
        return [];
      } else {
        taken := [messages[0]];
        messages := messages[1..];
      }
      drained := drained + taken;
    }

    method Clear()
      modifies this`messages, this`enqueued, this`drained
      ensures Valid() && messages == [] && enqueued == []
    {
      messages, enqueued, drained := [], [], [];
    }
  }

  datatype Source = Prompted | Steered | FollowedUp | Streamed | Executed

  /** The messages of a run that came from one source. */
  function Select(items: seq<Message>, sources: seq<Source>, source: Source): seq<Message>
    requires |items| == |sources|
  {
    if items == [] then []
    else
      var n := |items| - 1;
      Select(items[..n], sources[..n], source) + if sources[n] == source then [items[n]] else []
  }

  lemma {:induction false} SelectAll(items: seq<Message>, sources: seq<Source>, all: Source, source: Source)
    requires |items| == |sources| && forall i :: 0 <= i < |sources| ==> sources[i] == all
    ensures Select(items, sources, source) == if source == all then items else []
  {
    if items != [] {
      var n := |items| - 1;
      SelectAll(items[..n], sources[..n], all, source);
      assert items == items[..n] + [items[n]];
    }
  }

  /** The array of new messages of a run. */
  class NewMessages {
    var items: seq<Message>
    ghost var sources: seq<Source>

    ghost predicate Valid()
      reads this
    {
      |items| == |sources|
    }

    ghost function From(source: Source): seq<Message>
      requires Valid()
      reads this
    {
      Select(items, sources, source)
    }

    constructor (items: seq<Message>, ghost source: Source)
      ensures Valid() && this.items == items && forall s :: From(s) == if s == source then items else []
    {
      this.items, sources := items, seq(|items|, _ => source);
      new;
      forall s {
        SelectAll(items, sources, source, s);
      }
    }

    method Push(message: Message, ghost source: Source)
      requires Valid()
      modifies this
      ensures Valid() && items == old(items) + [message]
      ensures forall s :: From(s) == old(From(s)) + if s == source then [message] else []
    {
      items, sources := items + [message], sources + [source];
      assert items[..|items| - 1] == old(items) && sources[..|items| - 1] == old(sources);
    }
  }

  /** The messages array of the loop's own context. */
  class MessageList {
    var items: seq<Message>

    constructor (items: seq<Message>)
      ensures this.items == items
    {
      this.items := items;
    }
  }

  class Agent {
    var messages: seq<Message>
    var streamingMessage: Option<Message>
    var pendingToolCalls: set<CallId>
    var errorMessage: string
    var activeRun: bool
    const steeringQueue: PendingMessageQueue
    const followUpQueue: PendingMessageQueue
    /** The state at the start of the run, and the events since then. */
    ghost var base: FoldedState
    ghost var trace: Trace

    constructor (messages: seq<Message>, steeringMode: QueueMode, followUpMode: QueueMode)
      ensures this.messages == messages && !activeRun && State() == FoldedState(messages, None, {}, "")
      ensures fresh(steeringQueue) && fresh(followUpQueue) && steeringQueue != followUpQueue
      ensures steeringQueue.Valid() && followUpQueue.Valid()
    {
      this.messages, streamingMessage, pendingToolCalls, errorMessage, activeRun := messages, None, {}, "", false;
      steeringQueue := new PendingMessageQueue(steeringMode);
      followUpQueue := new PendingMessageQueue(followUpMode);
      base, trace := FoldedState(messages, None, {}, ""), [];
    }

    ghost function State(): FoldedState
      reads this
    {
      FoldedState(messages, streamingMessage, pendingToolCalls, errorMessage)
    }

    /** No run is in progress, and nothing of an earlier one is left. */
    ghost predicate Idle()
      reads this
    {
      !activeRun && streamingMessage.None? && pendingToolCalls == {} && steeringQueue != followUpQueue
    }

    method BeginRun()
      requires Idle()
      modifies this
      ensures Running() && trace == [] && base == FoldedState(old(messages), None, {}, "") && messages == old(messages)
    {
      activeRun, streamingMessage, errorMessage := true, None, "";
      base, trace := State(), [];
    }

    method FinishRun()
      requires Running() && steeringQueue != followUpQueue
      modifies this
      ensures Idle() && messages == old(messages) && errorMessage == old(errorMessage) && trace == old(trace)
    {
      streamingMessage, pendingToolCalls, activeRun := None, {}, false;
    }

    ghost predicate Running()
      reads this
    {
      activeRun && State() == FoldAll(base, trace)
    }

    /** Fold one event into the state. */
    method ProcessEvents(event: AgentEvent)
      requires Running()
      modifies this
      ensures Running() && base == old(base) && trace == old(trace) + [event]
      ensures Read(trace) == Step(Read(old(trace)), event)
    {
      hide FoldAll, Read, Step;
      AppendEvent(base, trace, event);
      match event {
        case MessageStart(message) => streamingMessage := Some(message);
        case MessageUpdate(message) => streamingMessage := Some(message);
        case MessageEnd(message) =>
          streamingMessage := None;
          messages := messages + [message];
        case ToolStart(id) => pendingToolCalls := pendingToolCalls + {id};
        case ToolEnd(id, _) => pendingToolCalls := pendingToolCalls - {id};
        case TurnEnd(message, _) =>
          if message.AssistantMessage? && message.reply.errorMessage != "" {
            errorMessage := message.reply.errorMessage;
          }
        case AgentEnd(_) => streamingMessage := None;
        case _ =>
      }
      trace := trace + [event];
    }
  }
}
