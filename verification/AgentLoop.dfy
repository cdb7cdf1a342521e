/**
 * The agent loop. What the model, the tools, the hooks and the callers do is given as one script per
 * turn; the loop is followed until it ends or the scripts do.
 */
module AgentLoop {
  import opened Common
  import opened AgentTrace
  import opened AgentState
  import opened ToolBatches
  import opened ToolExecution

  datatype StreamEvent = StreamStart(partial: Reply) | StreamDelta(partial: Reply) | StreamEnd

  /** What callers enqueue, and how they set the queues, before one poll. */
  datatype Interruption = Interruption(steering: seq<Message>, followUps: seq<Message>, steeringMode: QueueMode,
                                       followUpMode: QueueMode)

  /**
   * One turn: the stream and the reply it results in, what comes of each tool call, the configured mode,
   * the context that prepareNextTurn puts in place of the loop's own, whether the loop is told to stop after
   * the turn, and what callers do before the queues are polled.
   */
  datatype Turn = Turn(
    stream: seq<StreamEvent>, reply: Reply, calls: seq<CallRun>, sequential: bool,
    replacement: Option<seq<Message>>, stops: bool, beforeSteering: Interruption, beforeFollowUps: Interruption)

  /** A stream announces its message at most once, and the script speaks of the calls of the reply. */
  ghost predicate TurnOk(turn: Turn) {
    && OneStart(turn.stream)
    && |turn.calls| == |turn.reply.toolCalls|
    && forall i :: 0 <= i < |turn.calls| ==> turn.calls[i].call == turn.reply.toolCalls[i]
  }

  ghost predicate OneStart(stream: seq<StreamEvent>) {
    forall i, j :: 0 <= i < j < |stream| ==> !(stream[i].StreamStart? && stream[j].StreamStart?)
  }

  predicate Fails(turn: Turn) {
    turn.reply.stopReason.StopError? || turn.reply.stopReason.StopAborted?
  }

  /** The tool results of a turn. */
  function Results(turn: Turn): seq<Message> {
    if Fails(turn) || turn.calls == [] then []
    else if turn.reply.stopReason.StopLength? then TruncatedResults(turn.reply.toolCalls)
    else ResultMessages(turn.calls[..Handled(turn.calls)])
  }

  /** Whether the results call for another turn. */
  predicate HasMore(turn: Turn) {
    && !Fails(turn) && turn.calls != []
    && (turn.reply.stopReason.StopLength? || !ShouldTerminateToolBatch(Outcomes(turn.calls[..Handled(turn.calls)])))
  }

  predicate InSequence(turn: Turn) {
    turn.sequential || exists c <- turn.calls :: c.sequentialTool
  }

  /** A parallel batch in which a call begins under the id of one that is still being executed. */
  predicate Clashes(turn: Turn) {
    && !Fails(turn) && !turn.reply.stopReason.StopLength? && !InSequence(turn)
    && SharesId(turn.calls, Handled(turn.calls))
  }

  /**
   * Ids clash in a turn exactly if its calls are executed in parallel, which no tool and no setting forbids, and a
   * handled one has the id of an earlier one that nothing keeps from being executed.
   */
  lemma ClashesExactly(turn: Turn)
    ensures Clashes(turn) <==>
              && !Fails(turn) && !turn.reply.stopReason.StopLength? && !turn.sequential
              && (forall c <- turn.calls :: !c.sequentialTool)
              && exists i, j :: 0 <= i < j < Handled(turn.calls) && Cleared(turn.calls[i])
                                && turn.calls[i].call.id == turn.calls[j].call.id
  {
    var calls := turn.calls;
    forall i | 0 <= i < |calls| ensures Prepare(calls[i]).None? <==> Cleared(calls[i]) {
      ExecutedOnlyWhenCleared(calls[i]);
    }
    hide Prepare, Cleared;
    if j :| 0 <= j < Handled(calls) && IdInUse(calls, j) {
      var i :| 0 <= i < j && Prepare(calls[i]).None? && calls[i].call.id == calls[j].call.id;
      assert Cleared(calls[i]);
    }
    if i, j :| 0 <= i < j < Handled(calls) && Cleared(calls[i]) && calls[i].call.id == calls[j].call.id {
      assert Prepare(calls[i]).None? && IdInUse(calls, j);
    }
  }

  predicate Ends(turn: Turn) {
    Fails(turn) || turn.stops
  }

  /**
   * Another turn is called for exactly when the reply is not a failure, calls tools, and was cut off or has a
   * handled call that does not ask to end the run.
   */
  lemma MoreExactly(turn: Turn)
    ensures HasMore(turn) <==>
              && !turn.reply.stopReason.StopError? && !turn.reply.stopReason.StopAborted? && turn.calls != []
              && (turn.reply.stopReason.StopLength?
                  || exists i :: 0 <= i < Handled(turn.calls) && !AsksToTerminate(turn.calls[i]))
  {
    var handled := turn.calls[..Handled(turn.calls)];
    var outcomes := Outcomes(handled);
    forall i | 0 <= i < |handled| ensures outcomes[i].result.terminate <==> AsksToTerminate(turn.calls[i]) {
      OutcomeExactly(turn.calls[i]);
    }
    hide OutcomeOf, AsksToTerminate;
    if ShouldTerminateToolBatch(outcomes) {
      forall i | 0 <= i < |handled| ensures AsksToTerminate(turn.calls[i]) {
        assert outcomes[i] in outcomes;
      }
    } else if turn.calls != [] {
      var o :| o in outcomes && !o.result.terminate;
      var i :| 0 <= i < |outcomes| && outcomes[i] == o;
      assert !AsksToTerminate(turn.calls[i]);
    }
  }

  /** The events of one streamed reply, from here on. */
  function Shown(stream: seq<StreamEvent>, started: bool, final: Reply): Trace {
    if stream == [] || stream[0].StreamEnd? then
      (if started then [] else [MessageStart(AssistantMessage(final))]) + [MessageEnd(AssistantMessage(final))]
    else if stream[0].StreamStart? then
      [MessageStart(AssistantMessage(stream[0].partial))] + Shown(stream[1..], true, final)
    else
      (if started then [MessageUpdate(AssistantMessage(stream[0].partial))] else [])
      + Shown(stream[1..], started, final)
  }

  /** Once the reply has started every partial reply is shown, in order, and then the final one. */
  lemma {:induction false} PartialsAreShown(partials: seq<Reply>, rest: seq<StreamEvent>, final: Reply)
    requires rest == [] || rest[0].StreamEnd?
    ensures Shown(seq(|partials|, i requires 0 <= i < |partials| => StreamDelta(partials[i])) + rest, true, final)
         == seq(|partials|, i requires 0 <= i < |partials| => MessageUpdate(AssistantMessage(partials[i])))
            + [MessageEnd(AssistantMessage(final))]
    ensures Shown(rest, false, final) == [MessageStart(AssistantMessage(final)), MessageEnd(AssistantMessage(final))]
  {
    var stream := seq(|partials|, i requires 0 <= i < |partials| => StreamDelta(partials[i])) + rest;
    var updates := seq(|partials|, i requires 0 <= i < |partials| => MessageUpdate(AssistantMessage(partials[i])));
    if partials == [] {
      assert stream == rest && updates == [];
    } else {
      var fewer := partials[1..];
      PartialsAreShown(fewer, rest, final);
      assert stream[1..] == seq(|fewer|, i requires 0 <= i < |fewer| => StreamDelta(fewer[i])) + rest;
      assert updates == [updates[0]]
                        + seq(|fewer|, i requires 0 <= i < |fewer| => MessageUpdate(AssistantMessage(fewer[i])));
    }
  }

  method FinishStream(agent: Agent, context: MessageList, addedPartial: bool, final: Reply)
    requires agent.Running() && (addedPartial ==> context.items != [])
    requires Read(agent.trace).scope.InTurn? && Read(agent.trace).open == multiset{}
    requires if addedPartial then Read(agent.trace).message.Some? && Read(agent.trace).message.value.AssistantMessage?
             else Read(agent.trace).message.None?
    modifies agent, context
    ensures agent.Running() && agent.base == old(agent.base)
    ensures context.items == (if addedPartial then old(context.items)[..|old(context.items)| - 1]
                              else old(context.items)) + [AssistantMessage(final)]
    ensures var (r, m) := (Read(old(agent.trace)), AssistantMessage(final));
            Read(agent.trace) == r.(message := None, transcript := r.transcript + [m], turn := r.turn + [m])
    ensures agent.trace == old(agent.trace) + Shown([], addedPartial, final)
  {
    hide Read, FoldAll;
    var message := AssistantMessage(final);
    if addedPartial {
      context.items := context.items[|context.items| - 1 := message];
    } else {
      context.items := context.items + [message];
      agent.ProcessEvents(MessageStart(message));
    }
    agent.ProcessEvents(MessageEnd(message));
  }

  method StreamAssistantResponse(agent: Agent, context: MessageList, stream: seq<StreamEvent>, final: Reply)
    requires agent.Running() && Quiet(Read(agent.trace)) && OneStart(stream)
    modifies agent, context
    ensures agent.Running() && agent.base == old(agent.base)
    ensures context.items == old(context.items) + [AssistantMessage(final)]
    ensures Quiet(Read(agent.trace)) && Adds(Read(old(agent.trace)), [AssistantMessage(final)], Read(agent.trace))
    ensures Read(agent.trace).clash == Read(old(agent.trace)).clash
    ensures agent.trace == old(agent.trace) + Shown(stream, false, final)
  {
    hide Read, FoldAll;
    var addedPartial, i := false, 0;
    ghost var r := Read(agent.trace);
    while i < |stream|
      invariant 0 <= i <= |stream| && agent.Running() && agent.base == old(agent.base)
      invariant addedPartial <==> exists j :: 0 <= j < i && stream[j].StreamStart?
      invariant if addedPartial then context.items != [] && context.items[..|context.items| - 1] == old(context.items)
                else context.items == old(context.items)
      invariant Read(agent.trace) == r.(message := Read(agent.trace).message)
      invariant agent.trace + Shown(stream[i..], addedPartial, final)
             == old(agent.trace) + Shown(stream, false, final)
      invariant if addedPartial then Read(agent.trace).message.Some?
                && Read(agent.trace).message.value.AssistantMessage?
                else Read(agent.trace).message.None?
    {
      match stream[i] {
        case StreamStart(partial) =>
          context.items := context.items + [AssistantMessage(partial)];
          addedPartial := true;
          agent.ProcessEvents(MessageStart(AssistantMessage(partial)));
        case StreamDelta(partial) =>
          if addedPartial {
            context.items := context.items[|context.items| - 1 := AssistantMessage(partial)];
            agent.ProcessEvents(MessageUpdate(AssistantMessage(partial)));
          }
        case StreamEnd =>
          FinishStream(agent, context, addedPartial, final);
          return;
      }
      i := i + 1;
    }
    FinishStream(agent, context, addedPartial, final);
  }

  /** Messages are emitted, and become part of the context and of the new messages. */
  method InjectPending(agent: Agent, context: MessageList, newMessages: NewMessages, pending: seq<Message>,
                       ghost origin: Source)
    requires agent.Running() && Quiet(Read(agent.trace)) && newMessages.Valid()
    modifies agent, context, newMessages
    ensures agent.Running() && agent.base == old(agent.base) && newMessages.Valid()
    ensures context.items == old(context.items) + pending && newMessages.items == old(newMessages.items) + pending
    ensures forall s :: newMessages.From(s) == old(newMessages.From(s)) + if s == origin then pending else []
    ensures Quiet(Read(agent.trace)) && Adds(Read(old(agent.trace)), pending, Read(agent.trace))
    ensures Read(agent.trace).clash == Read(old(agent.trace)).clash
  {
    hide Read, FoldAll, Adds, Quiet;
    ghost var r := Read(agent.trace);
    AddsNothing(r);
    for i := 0 to |pending|
      invariant agent.Running() && agent.base == old(agent.base) && newMessages.Valid()
      invariant context.items == old(context.items) + pending[..i]
                && newMessages.items == old(newMessages.items) + pending[..i]
      invariant forall s :: newMessages.From(s) == old(newMessages.From(s)) + if s == origin then pending[..i] else []
      invariant Quiet(Read(agent.trace)) && Adds(r, pending[..i], Read(agent.trace))
                && Read(agent.trace).clash == r.clash
    {
      ghost var before := Read(agent.trace);
      EmitMessage(agent, pending[i]);
      AddsMore(r, pending[..i], before, [pending[i]], Read(agent.trace));
      assert pending[..i + 1] == pending[..i] + [pending[i]];
      context.items := context.items + [pending[i]];
      newMessages.Push(pending[i], origin);
    }
    assert pending[..|pending|] == pending;
  }

  /** The results of a batch join the context and the new messages without further events. */
  method AddResults(context: MessageList, newMessages: NewMessages, results: seq<Message>)
    requires newMessages.Valid()
    modifies context, newMessages
    ensures newMessages.Valid()
    ensures context.items == old(context.items) + results && newMessages.items == old(newMessages.items) + results
    ensures forall s :: newMessages.From(s) == old(newMessages.From(s)) + if s.Executed? then results else []
  {
    for i := 0 to |results|
      invariant newMessages.Valid()
      invariant context.items == old(context.items) + results[..i]
                && newMessages.items == old(newMessages.items) + results[..i]
      invariant forall s :: newMessages.From(s) == old(newMessages.From(s)) + if s.Executed? then results[..i] else []
    {
      assert results[..i + 1] == results[..i] + [results[i]];
      context.items := context.items + [results[i]];
      newMessages.Push(results[i], Executed);
    }
    assert results[..|results|] == results;
  }

  method ExecuteToolCalls(agent: Agent, turn: Turn) returns (messages: seq<Message>, terminate: bool)
    requires agent.Running() && Quiet(Read(agent.trace)) && TurnOk(turn) && !Fails(turn) && turn.calls != []
    modifies agent
    ensures agent.Running() && agent.base == old(agent.base)
    ensures messages == Results(turn) && terminate == !HasMore(turn)
    ensures Quiet(Read(agent.trace)) && Adds(Read(old(agent.trace)), messages, Read(agent.trace))
    ensures Read(agent.trace).clash <==> Read(old(agent.trace)).clash || Clashes(turn)
  {
    hide Read, FoldAll, Adds, Quiet, OneStart, SharesId;
    if turn.reply.stopReason.StopLength? {
      messages, terminate := FailToolCallsFromTruncatedMessage(agent, turn.reply.toolCalls);
    } else if InSequence(turn) {
      messages, terminate := ExecuteToolCallsSequential(agent, turn.calls);
    } else {
      messages, terminate := ExecuteToolCallsParallel(agent, turn.calls);
    }
  }

  /** The messages a turn adds after those injected. */
  function TurnMessages(turn: Turn): seq<Message> {
    [AssistantMessage(turn.reply)] + Results(turn)
  }

  /** Where a turn may begin: inside the first one, whose start has been emitted already, or after another. */
  predicate MayBegin(r: Reading, first: bool) {
    if first then Quiet(r) else r.scope.InRun? && r.message.None? && r.open == multiset{}
  }

  /** What a reading has become when a turn was completed. */
  predicate AddsTurn(r: Reading, messages: seq<Message>, r': Reading) {
    && r'.scope.InRun? && r'.message.None? && r'.open == multiset{}
    && r'.transcript == r.transcript + messages
  }

  method EndTurn(agent: Agent, ghost r: Reading, ghost before: seq<Message>, message: Message, results: seq<Message>)
    requires agent.Running() && Quiet(r) && Quiet(Read(agent.trace))
    requires Adds(r, before + [message] + results, Read(agent.trace))
    modifies agent
    ensures agent.Running() && agent.base == old(agent.base)
    ensures AddsTurn(r, before + [message] + results, Read(agent.trace))
            && Read(agent.trace).clash == Read(old(agent.trace)).clash
  {
    hide Read, FoldAll;
    ghost var turn := Read(agent.trace).turn;
    assert turn == (r.turn + before) + ([message] + results);
    assert turn[|turn| - 1 - |results|..] == [message] + results;
    agent.ProcessEvents(TurnEnd(message, results));
  }

  method EndRun(agent: Agent, newMessages: NewMessages)
    requires agent.Running() && MayBegin(Read(agent.trace), false) && Read(agent.trace).transcript == newMessages.items
    modifies agent
    ensures agent.Running() && agent.base == old(agent.base)
    ensures Read(agent.trace) == Read(old(agent.trace)).(scope := Finished)
    ensures agent.trace == old(agent.trace) + [AgentEnd(newMessages.items)]
  {
    hide Read, FoldAll;
    agent.ProcessEvents(AgentEnd(newMessages.items));
  }

  /** The first half of a turn: pending messages are injected, and the reply is streamed. */
  method InjectAndStream(agent: Agent, context: MessageList, newMessages: NewMessages, turn: Turn,
                         pending: seq<Message>, ghost origin: Source)
    requires agent.Running() && newMessages.Valid() && OneStart(turn.stream) && Quiet(Read(agent.trace))
    modifies agent, context, newMessages
    ensures agent.Running() && agent.base == old(agent.base) && newMessages.Valid()
    ensures newMessages.items == old(newMessages.items) + (pending + [AssistantMessage(turn.reply)])
    ensures context.items == old(context.items) + (pending + [AssistantMessage(turn.reply)])
    ensures forall s: Source :: !s.Streamed? ==>
            newMessages.From(s) == old(newMessages.From(s)) + if s == origin then pending else []
    ensures Quiet(Read(agent.trace))
            && Adds(Read(old(agent.trace)), pending + [AssistantMessage(turn.reply)], Read(agent.trace))
    ensures Read(agent.trace).clash == Read(old(agent.trace)).clash
  {
    hide Read, FoldAll, Adds, Quiet, OneStart, Select;
    ghost var r := Read(agent.trace);
    InjectPending(agent, context, newMessages, pending, origin);
    ghost var r1 := Read(agent.trace);
    StreamAssistantResponse(agent, context, turn.stream, turn.reply);
    AddsMore(r, pending, r1, [AssistantMessage(turn.reply)], Read(agent.trace));
    newMessages.Push(AssistantMessage(turn.reply), Streamed);
  }

  /** From the start of a turn to its end; the reply is streamed and its tool calls are executed. */
  method PlayTurn(agent: Agent, context: MessageList, newMessages: NewMessages, turn: Turn, first: bool,
                  pending: seq<Message>, ghost origin: Source) returns (hasMore: bool)
    requires agent.Running() && newMessages.Valid() && TurnOk(turn) && MayBegin(Read(agent.trace), first)
    modifies agent, context, newMessages
    ensures agent.Running() && agent.base == old(agent.base) && newMessages.Valid() && hasMore == HasMore(turn)
    ensures newMessages.items == old(newMessages.items) + (pending + TurnMessages(turn))
    ensures context.items == old(context.items) + (pending + TurnMessages(turn))
    ensures forall s: Source :: !s.Streamed? && !s.Executed? ==>
            newMessages.From(s) == old(newMessages.From(s)) + if s == origin then pending else []
    ensures AddsTurn(Read(old(agent.trace)), pending + TurnMessages(turn), Read(agent.trace))
    ensures Read(agent.trace).clash <==> Read(old(agent.trace)).clash || Clashes(turn)
  {
    hide Read, FoldAll, Adds, Clashes, Results, HasMore, OneStart, Select;
    if !first {
      agent.ProcessEvents(TurnStart);
    }
    ghost var r := Read(agent.trace);
    InjectAndStream(agent, context, newMessages, turn, pending, origin);
    hasMore := PlayResults(agent, context, newMessages, turn, pending, r);
  }

  /** The second half of a turn: its tool calls are executed, unless the reply failed. */
  method PlayResults(agent: Agent, context: MessageList, newMessages: NewMessages, turn: Turn, pending: seq<Message>,
                     ghost r: Reading)
    returns (hasMore: bool)
    requires agent.Running() && newMessages.Valid() && TurnOk(turn) && Quiet(r) && Quiet(Read(agent.trace))
    requires Adds(r, pending + [AssistantMessage(turn.reply)], Read(agent.trace))
    modifies agent, context, newMessages
    ensures agent.Running() && agent.base == old(agent.base) && newMessages.Valid() && hasMore == HasMore(turn)
    ensures newMessages.items == old(newMessages.items) + Results(turn)
    ensures context.items == old(context.items) + Results(turn)
    ensures forall s: Source :: !s.Executed? ==> newMessages.From(s) == old(newMessages.From(s))
    ensures AddsTurn(r, pending + TurnMessages(turn), Read(agent.trace))
    ensures Read(agent.trace).clash <==> Read(old(agent.trace)).clash || Clashes(turn)
  {
    hide Read, FoldAll, Adds, Clashes, Results, HasMore, OneStart, Select;
    ghost var r2 := Read(agent.trace);
    NoResults(turn);
    var results: seq<Message> := [];
    hasMore := false;
    if !Fails(turn) && turn.calls != [] {
      var terminate;
      results, terminate := ExecuteToolCalls(agent, turn);
      AddResults(context, newMessages, results);
      hasMore := !terminate;
    } else {
      AddsNothing(r2);
    }
    AddsMore(r, pending + [AssistantMessage(turn.reply)], r2, results, Read(agent.trace));
    assert pending + [AssistantMessage(turn.reply)] + results == pending + TurnMessages(turn);
    EndTurn(agent, r, pending, AssistantMessage(turn.reply), results);
  }

  lemma NoResults(turn: Turn)
    ensures Fails(turn) || turn.calls == [] ==> Results(turn) == [] && !HasMore(turn) && !Clashes(turn)
  {
  }

  /** What callers do while the loop awaits something. */
  method Interrupt(agent: Agent, i: Interruption)
    requires agent.steeringQueue.Valid() && agent.followUpQueue.Valid() && agent.steeringQueue != agent.followUpQueue
    modifies agent.steeringQueue, agent.followUpQueue
    ensures agent.steeringQueue.Valid() && agent.followUpQueue.Valid()
    ensures agent.steeringQueue.drained == old(agent.steeringQueue.drained)
    ensures agent.followUpQueue.drained == old(agent.followUpQueue.drained)
    ensures agent.steeringQueue.enqueued == old(agent.steeringQueue.enqueued) + i.steering
    ensures agent.followUpQueue.enqueued == old(agent.followUpQueue.enqueued) + i.followUps
    ensures agent.steeringQueue.messages == old(agent.steeringQueue.messages) + i.steering
    ensures agent.followUpQueue.messages == old(agent.followUpQueue.messages) + i.followUps
  {
    EnqueueAll(agent.steeringQueue, i.steering);
    EnqueueAll(agent.followUpQueue, i.followUps);
    agent.steeringQueue.mode := i.steeringMode;
    agent.followUpQueue.mode := i.followUpMode;
  }

  method EnqueueAll(queue: PendingMessageQueue, messages: seq<Message>)
    requires queue.Valid()
    modifies queue
    ensures queue.Valid() && queue.drained == old(queue.drained) && queue.enqueued == old(queue.enqueued) + messages
    ensures queue.messages == old(queue.messages) + messages
  {
    for i := 0 to |messages|
      invariant queue.Valid() && queue.drained == old(queue.drained)
                && queue.enqueued == old(queue.enqueued) + messages[..i]
                && queue.messages == old(queue.messages) + messages[..i]
    {
      queue.Enqueue(messages[i]);
      assert messages[..i + 1] == messages[..i] + [messages[i]];
    }
    assert messages[..|messages|] == messages;
  }

  /**
   * What was drained from each queue, beyond what had been drained before the run, is among the new messages
   * or about to be injected.
   */
  ghost predicate Conserved(agent: Agent, newMessages: NewMessages, steered: seq<Message>, followed: seq<Message>,
                            pending: seq<Message>, origin: Source)
    reads agent.steeringQueue, agent.followUpQueue, newMessages
  {
    && newMessages.Valid() && agent.steeringQueue.Valid() && agent.followUpQueue.Valid()
    && agent.steeringQueue.drained == steered + newMessages.From(Steered) + (if origin.Steered? then pending else [])
    && agent.followUpQueue.drained
          == followed + newMessages.From(FollowedUp) + (if origin.FollowedUp? then pending else [])
  }

  /** The context is what it was taken from and the messages added since. */
  predicate ContextIs(context: seq<Message>, base: seq<Message>, newMessages: seq<Message>, since: nat) {
    since <= |newMessages| && context == base + newMessages[since..]
  }

  /** The context the loop began with, or the replacement of the last turn that has one. */
  function BaseOf(turns: seq<Turn>, initial: seq<Message>): seq<Message> {
    if turns == [] then initial
    else if turns[|turns| - 1].replacement.Some? && !Fails(turns[|turns| - 1]) then turns[|turns| - 1].replacement.value
    else BaseOf(turns[..|turns| - 1], initial)
  }

  /** Between two turns, or before the first: nothing is lost, and the three transcripts agree. */
  ghost predicate LoopInv(agent: Agent, newMessages: NewMessages, context: seq<Message>, first: bool,
                          steered: seq<Message>, followed: seq<Message>, pending: seq<Message>, origin: Source,
                          contextBase: seq<Message>, since: nat)
    reads agent, agent.steeringQueue, agent.followUpQueue, newMessages
  {
    && agent.Running() && agent.steeringQueue != agent.followUpQueue
    && MayBegin(Read(agent.trace), first) && Read(agent.trace).transcript == newMessages.items
    && Conserved(agent, newMessages, steered, followed, pending, origin)
    && ContextIs(context, contextBase, newMessages.items, since)
  }

  /** The end of a run: what the observer has read is what the loop returns. */
  ghost predicate RunEnded(agent: Agent, newMessages: NewMessages)
    reads agent, newMessages
  {
    && agent.Running() && Read(agent.trace).scope.Finished? && Read(agent.trace).transcript == newMessages.items
    && agent.trace != [] && agent.trace[|agent.trace| - 1] == AgentEnd(newMessages.items)
  }

  /** The context is that of the last replacement, unless the reply of its turn failed. */
  lemma {:induction false} LastReplacementCounts(turns: seq<Turn>, initial: seq<Message>, n: nat)
    requires n < |turns| && turns[n].replacement.Some? && !Fails(turns[n])
    requires forall j :: n < j < |turns| ==> turns[j].replacement.None? || Fails(turns[j])
    ensures BaseOf(turns, initial) == turns[n].replacement.value
  {
    if n < |turns| - 1 {
      LastReplacementCounts(turns[..|turns| - 1], initial, n);
    }
  }

  /** prepareNextTurn may put another context in place of the loop's own. */
  method PrepareNextTurn(context: MessageList, newMessages: NewMessages, turn: Turn,
                         ghost contextBase: seq<Message>, ghost since: nat)
    returns (next: MessageList, ghost since': nat)
    requires !Fails(turn) && ContextIs(context.items, contextBase, newMessages.items, since)
    ensures next == context || fresh(next)
    ensures ContextIs(next.items, BaseOf([turn], contextBase), newMessages.items, since')
    ensures turn.replacement.None? ==> since' == since
  {
    next, since' := context, since;
    if turn.replacement.Some? {
      next := new MessageList(turn.replacement.value);
      since' := |newMessages.items|;
      assert next.items == turn.replacement.value + newMessages.items[since'..];
    }
  }

  /** One round of the inner loop: a turn, and unless the run ends with it, the poll for steering messages. */
  method PlayRound(agent: Agent, context: MessageList, newMessages: NewMessages, turn: Turn, first: bool,
                   pending: seq<Message>, ghost origin: Source, ghost steered: seq<Message>,
                   ghost followed: seq<Message>,
                   ghost contextBase: seq<Message>, ghost since: nat)
    returns (ended: bool, hasMore: bool, next: MessageList, polled: seq<Message>, ghost since': nat)
    requires LoopInv(agent, newMessages, context.items, first, steered, followed, pending, origin, contextBase, since)
    requires TurnOk(turn) && (origin.Steered? || origin.FollowedUp?)
    modifies agent, agent.steeringQueue, agent.followUpQueue, context, newMessages
    ensures agent.base == old(agent.base) && (next == context || fresh(next)) && hasMore == HasMore(turn)
    ensures newMessages.items == old(newMessages.items) + (pending + TurnMessages(turn))
    ensures ended == Ends(turn)
    ensures ended ==>
              && RunEnded(agent, newMessages) && polled == []
              && Conserved(agent, newMessages, steered, followed, [], Steered)
    ensures !ended ==> LoopInv(agent, newMessages, next.items, false, steered, followed, polled, Steered,
                               BaseOf([turn], contextBase), since')
    ensures ContextIs(next.items, BaseOf([turn], contextBase), newMessages.items, since')
    ensures turn.replacement.None? ==> since' == since
    ensures !ended && polled == [] ==> agent.steeringQueue.messages == []
    ensures Read(agent.trace).clash <==> Read(old(agent.trace)).clash || Clashes(turn)
  {
    hide Read, FoldAll, Clashes, OneStart, HasMore, Results, Select, TurnMessages, ContextIs;
    next, polled, since' := context, [], since;
    hasMore := PlayTurn(agent, context, newMessages, turn, first, pending, origin);
    StillContext(old(context.items), contextBase, old(newMessages.items), since, pending + TurnMessages(turn));
    if Fails(turn) {
      EndRun(agent, newMessages);
      return true, hasMore, next, polled, since';
    }
    next, since' := PrepareNextTurn(context, newMessages, turn, contextBase, since);
    if turn.stops {
      EndRun(agent, newMessages);
      return true, hasMore, next, polled, since';
    }
    polled := PollSteering(
      agent, newMessages, next, false, turn.beforeSteering, false, steered, followed,
      BaseOf([turn], contextBase), since');
    ended := false;
  }

  lemma StillContext(context: seq<Message>, contextBase: seq<Message>, items: seq<Message>, since: nat,
                     more: seq<Message>)
    requires ContextIs(context, contextBase, items, since)
    ensures ContextIs(context + more, contextBase, items + more, since)
  {
    assert (items + more)[since..] == items[since..] + more;
    assert contextBase + items[since..] + more == contextBase + (items[since..] + more);
  }

  lemma {:induction false} BaseOfMore(turns: seq<Turn>, turn: Turn, initial: seq<Message>)
    ensures BaseOf(turns + [turn], initial) == BaseOf([turn], BaseOf(turns, initial))
  {
    assert (turns + [turn])[..|turns|] == turns;
  }

  /** getSteeringMessages: the first poll of a run may be skipped. */
  method PollSteering(agent: Agent, newMessages: NewMessages, context: MessageList, skip: bool, i: Interruption,
                      first: bool,
                      ghost steered: seq<Message>, ghost followed: seq<Message>, ghost contextBase: seq<Message>,
                      ghost since: nat)
    returns (pending: seq<Message>)
    requires LoopInv(agent, newMessages, context.items, first, steered, followed, [], Steered, contextBase, since)
    modifies agent.steeringQueue, agent.followUpQueue
    ensures LoopInv(agent, newMessages, context.items, first, steered, followed, pending, Steered, contextBase, since)
    ensures skip ==> pending == []
    ensures !skip ==> (pending == [] <==> old(agent.steeringQueue.messages) + i.steering == [])
    ensures !skip && pending == [] ==> agent.steeringQueue.messages == []
  {
    hide Read, FoldAll, Select, ContextIs, MayBegin;
    Interrupt(agent, i);
    pending := [];
    if !skip {
      pending := agent.steeringQueue.Drain();
    }
  }

  method PollFollowUps(agent: Agent, newMessages: NewMessages, context: MessageList, i: Interruption,
                       first: bool, ghost origin: Source,
                       ghost steered: seq<Message>, ghost followed: seq<Message>,
                       ghost contextBase: seq<Message>, ghost since: nat)
    returns (pending: seq<Message>)
    requires LoopInv(agent, newMessages, context.items, first, steered, followed, [], origin, contextBase, since)
    modifies agent.steeringQueue, agent.followUpQueue
    ensures LoopInv(agent, newMessages, context.items, first, steered, followed, pending, FollowedUp,
                    contextBase, since)
    ensures agent.steeringQueue.messages == old(agent.steeringQueue.messages) + i.steering
    ensures pending == [] ==> agent.followUpQueue.messages == []
  {
    hide Read, FoldAll, Select, ContextIs, MayBegin;
    Interrupt(agent, i);
    pending := agent.followUpQueue.Drain();
  }

  /** prepareNextTurn never replaced the context. */
  predicate KeepsContext(turns: seq<Turn>) {
    forall t <- turns :: t.replacement.None?
  }

  /** What was injected before a turn, and where it had been queued. */
  datatype Round = Round(injected: seq<Message>, origin: Source)

  /** The messages of the turns played, one for each round. */
  function Played(turns: seq<Turn>, rounds: seq<Round>): seq<Message>
    requires |rounds| <= |turns|
  {
    if rounds == [] then []
    else
      var n := |rounds| - 1;
      Played(turns, rounds[..n]) + (rounds[n].injected + TurnMessages(turns[n]))
  }

  /**
   * A run goes on after a turn only if that turn does not end it, and there is a reason: its tool results call for
   * another turn, or there is a message to inject, which is a follow-up only if the results do not.
   */
  predicate GoesOnWithReason(turns: seq<Turn>, rounds: seq<Round>) {
    && |rounds| <= |turns|
    && forall i :: 0 <= i < |rounds| - 1 ==>
         && !Ends(turns[i]) && (HasMore(turns[i]) || rounds[i + 1].injected != [])
         && (rounds[i + 1].origin.FollowedUp? ==> !HasMore(turns[i]))
  }

  /**
   * A run ends only after a turn that ends it, or after one whose results do not call for another when both queues
   * were found empty; what was queued for steering after that poll is still there.
   */
  ghost predicate EndsWithReason(agent: Agent, turns: seq<Turn>, rounds: seq<Round>)
    reads agent, agent.steeringQueue, agent.followUpQueue
  {
    && 0 < |rounds| <= |turns|
    && var last := turns[|rounds| - 1];
       || Ends(last)
       || (!HasMore(last) && agent.followUpQueue.messages == []
           && agent.steeringQueue.messages == last.beforeFollowUps.steering)
  }

  /** Why another turn was played: the last one neither failed nor was told to stop, and something was left to do. */
  lemma WhyItGoesOn(turns: seq<Turn>, rounds: seq<Round>, i: nat)
    requires GoesOnWithReason(turns, rounds) && i < |rounds| - 1
    ensures !turns[i].stops && !turns[i].reply.stopReason.StopError? && !turns[i].reply.stopReason.StopAborted?
    ensures || rounds[i + 1].injected != []
            || (turns[i].calls != []
                && (turns[i].reply.stopReason.StopLength?
                    || exists k :: 0 <= k < Handled(turns[i].calls) && !AsksToTerminate(turns[i].calls[k])))
  {
    MoreExactly(turns[i]);
  }

  /** And why none was: the last turn failed or was told to stop, or its results call for no other. */
  lemma WhyItEnds(agent: Agent, turns: seq<Turn>, rounds: seq<Round>)
    requires EndsWithReason(agent, turns, rounds)
    ensures var last := turns[|rounds| - 1];
            || last.stops || last.reply.stopReason.StopError? || last.reply.stopReason.StopAborted?
            || (agent.followUpQueue.messages == []
                && (last.calls == []
                    || (!last.reply.stopReason.StopLength?
                        && forall k :: 0 <= k < Handled(last.calls) ==> AsksToTerminate(last.calls[k]))))
  {
    MoreExactly(turns[|rounds| - 1]);
  }

  /** The scripts ran out while the run would have gone on. */
  predicate WouldGoOn(turns: seq<Turn>, rounds: seq<Round>, pending: seq<Message>) {
    && |rounds| == |turns| && NoneEnds(turns, |rounds|)
    && (turns != [] ==> HasMore(turns[|turns| - 1]) || pending != [])
  }

  predicate NoneEnds(turns: seq<Turn>, n: nat)
    requires n <= |turns|
  {
    forall i :: 0 <= i < n ==> !Ends(turns[i])
  }

  /** Where the inner loop decides: after its first round hasMore is what the results of the last turn call for. */
  predicate Deciding(turns: seq<Turn>, rounds: seq<Round>, hasMore: bool, pending: seq<Message>, origin: Source) {
    && GoesOnWithReason(turns, rounds) && NoneEnds(turns, |rounds|)
    && (rounds == [] ==> hasMore && origin.Steered?)
    && (rounds != [] && origin.FollowedUp? ==> pending != [] && !HasMore(turns[|rounds| - 1]))
    && (rounds != [] && !origin.FollowedUp? ==> (hasMore <==> HasMore(turns[|rounds| - 1])))
  }

  /** So far the rounds account for the new messages, and the first one is as the first poll found it. */
  predicate Scheduled(turns: seq<Turn>, rounds: seq<Round>, hasMore: bool, pending: seq<Message>, origin: Source,
                      start: seq<Message>, items: seq<Message>, nothingFirst: bool)
  {
    && Deciding(turns, rounds, hasMore, pending, origin) && items == start + Played(turns, rounds)
    && (nothingFirst <==> (if rounds == [] then pending else rounds[0].injected) == [])
  }

  lemma NextRound(turns: seq<Turn>, rounds: seq<Round>, hasMore: bool, pending: seq<Message>, origin: Source,
                  start: seq<Message>, items: seq<Message>, nothingFirst: bool)
    requires Scheduled(turns, rounds, hasMore, pending, origin, start, items, nothingFirst)
    requires (hasMore || pending != []) && |rounds| < |turns|
    ensures var (turn, more) := (turns[|rounds|], rounds + [Round(pending, origin)]);
            var after := items + (pending + TurnMessages(turn));
            if Ends(turn)
            then GoesOnWithReason(turns, more) && after == start + Played(turns, more)
                 && (nothingFirst <==> more[0].injected == [])
            else forall polled :: Scheduled(turns, more, HasMore(turn), polled, Steered, start, after, nothingFirst)
  {
    hide HasMore, Ends, TurnMessages, GoesOnWithReason, NoneEnds;
    PlayedMore(turns, rounds, pending, origin);
    ReasonMore(turns, rounds, hasMore, pending, origin);
    if rounds != [] {
      assert (rounds + [Round(pending, origin)])[0] == rounds[0];
    }
  }

  lemma PlayedMore(turns: seq<Turn>, rounds: seq<Round>, pending: seq<Message>, origin: Source)
    requires |rounds| < |turns|
    ensures Played(turns, rounds + [Round(pending, origin)])
         == Played(turns, rounds) + (pending + TurnMessages(turns[|rounds|]))
  {
    hide TurnMessages;
    assert (rounds + [Round(pending, origin)])[..|rounds|] == rounds;
  }

  lemma ReasonMore(turns: seq<Turn>, rounds: seq<Round>, hasMore: bool, pending: seq<Message>, origin: Source)
    requires Deciding(turns, rounds, hasMore, pending, origin) && (hasMore || pending != []) && |rounds| < |turns|
    ensures GoesOnWithReason(turns, rounds + [Round(pending, origin)])
    ensures !Ends(turns[|rounds|]) ==> NoneEnds(turns, |rounds| + 1)
  {
    hide HasMore, Ends;
  }

  predicate SomeClash(turns: seq<Turn>) {
    exists t <- turns :: Clashes(t)
  }

  /** There is none when no reply uses the id of a tool call twice. */
  lemma DistinctNeverClash(turns: seq<Turn>)
    requires forall t <- turns :: DistinctIds(t.calls)
    ensures !SomeClash(turns)
  {
    hide DistinctIds, SharesId;
    forall t | t in turns ensures !Clashes(t) {
      DistinctShareNone(t.calls, Handled(t.calls));
    }
  }

  /** The run so far, of which the first turns have been played. */
  ghost predicate Underway(agent: Agent, newMessages: NewMessages, context: seq<Message>, first: bool,
                           steered: seq<Message>,
                           followed: seq<Message>, pending: seq<Message>, origin: Source, turns: seq<Turn>, played: nat,
                           initial: seq<Message>, start: seq<Message>, since: nat, clash: bool)
    reads agent, agent.steeringQueue, agent.followUpQueue, newMessages
  {
    && played <= |turns| && (origin.Steered? || origin.FollowedUp?) && (first ==> played == 0)
    && LoopInv(agent, newMessages, context, first, steered, followed, pending, origin,
               BaseOf(turns[..played], initial), since)
    && start <= newMessages.items && (KeepsContext(turns[..played]) ==> since == |start|)
    && (Read(agent.trace).clash <==> clash || SomeClash(turns[..played]))
  }

  lemma OneMore(turns: seq<Turn>, played: nat, initial: seq<Message>)
    requires played < |turns|
    ensures BaseOf(turns[..played + 1], initial) == BaseOf([turns[played]], BaseOf(turns[..played], initial))
    ensures KeepsContext(turns[..played + 1]) ==> KeepsContext(turns[..played]) && turns[played].replacement.None?
    ensures SomeClash(turns[..played + 1]) <==> SomeClash(turns[..played]) || Clashes(turns[played])
  {
    hide Clashes;
    assert turns[..played + 1] == turns[..played] + [turns[played]];
    BaseOfMore(turns[..played], turns[played], initial);
    assert turns[played] in turns[..played + 1];
  }

  /** How the inner loop stops: the run is over, the scripts are, or only follow-ups can keep the run going. */
  datatype Pause = RunOver | ScriptsOver | NothingToDo

  /** The inner loop goes on while tool results or pending messages call for another turn. */
  method InnerLoop(agent: Agent, current: MessageList, newMessages: NewMessages, turns: seq<Turn>, playedBefore: nat,
                   pendingBefore: seq<Message>, ghost originBefore: Source, ghost steered: seq<Message>,
                   ghost followed: seq<Message>, ghost initial: seq<Message>, ghost start: seq<Message>,
                   ghost sinceBefore: nat, ghost clash: bool, ghost roundsBefore: seq<Round>, ghost nothingFirst: bool)
    returns (pause: Pause, context: MessageList, played: nat, pending: seq<Message>, ghost origin: Source,
             ghost since: nat, ghost rounds: seq<Round>)
    requires Underway(agent, newMessages, current.items, playedBefore == 0, steered, followed, pendingBefore,
                      originBefore, turns, playedBefore, initial, start, sinceBefore, clash)
    requires |roundsBefore| == playedBefore && forall t <- turns :: TurnOk(t)
    requires Scheduled(turns, roundsBefore, true, pendingBefore, originBefore, start, newMessages.items, nothingFirst)
    modifies agent, agent.steeringQueue, agent.followUpQueue, current, newMessages
    ensures agent.base == old(agent.base) && (context == current || fresh(context))
    ensures playedBefore <= played <= |turns| && |rounds| == played && (origin.Steered? || origin.FollowedUp?)
    ensures pause.NothingToDo? ==>
              && playedBefore < played && pending == [] && agent.steeringQueue.messages == []
              && Underway(agent, newMessages, context.items, false, steered, followed, [], origin, turns,
                          played, initial, start, since, clash)
              && Scheduled(turns, rounds, false, [], origin, start, newMessages.items, nothingFirst)
    ensures !pause.NothingToDo? ==>
              Stopped(agent, newMessages, context.items, steered, followed, pending, origin, turns,
                      played, initial, start, since, rounds, nothingFirst)
    ensures Read(agent.trace).clash <==> clash || SomeClash(turns[..played])
    ensures pause.RunOver? ==> RunEnded(agent, newMessages) && pending == [] && EndsWithReason(agent, turns, rounds)
    ensures pause.ScriptsOver? ==>
              && agent.Running() && !Read(agent.trace).scope.Broken? && played == |turns|
              && Read(agent.trace).transcript == newMessages.items && WouldGoOn(turns, rounds, pending)
  {
    hide Read, FoldAll, Clashes, SomeClash, Scheduled, Played, GoesOnWithReason, WouldGoOn, Ends, TurnOk, Fails,
         HasMore, Select, TurnMessages, ContextIs, Conserved, KeepsContext, BaseOf, LoopInv;
    context, played, pending, origin := current, playedBefore, pendingBefore, originBefore;
    since, rounds := sinceBefore, roundsBefore;
    var hasMore := true;
    while hasMore || pending != []
      invariant playedBefore <= played && (hasMore || played > playedBefore) && |rounds| == played
      invariant agent.base == old(agent.base) && (context == current || fresh(context))
      invariant Underway(agent, newMessages, context.items, played == 0, steered, followed, pending, origin, turns,
                         played, initial, start, since, clash)
      invariant Scheduled(turns, rounds, hasMore, pending, origin, start, newMessages.items, nothingFirst)
      invariant played > playedBefore && pending == [] ==> agent.steeringQueue.messages == []
      decreases |turns| - played
    {
      if played == |turns| {
        Interrupted(agent, newMessages, context.items, played == 0, steered, followed, pending, origin,
                    BaseOf(turns[..played], initial), since);
        ScriptsEnd(turns, rounds, hasMore, pending, origin, start, newMessages.items, nothingFirst);
        return ScriptsOver, context, played, pending, origin, since, rounds;
      }
      OneMore(turns, played, initial);
      NextRound(turns, rounds, hasMore, pending, origin, start, newMessages.items, nothingFirst);
      rounds := rounds + [Round(pending, origin)];
      var ended;
      ended, hasMore, context, pending, since := PlayRound(
        agent, context, newMessages, turns[played], played == 0, pending, origin, steered, followed,
        BaseOf(turns[..played], initial), since);
      origin, played := Steered, played + 1;
      if ended {
        return RunOver, context, played, [], origin, since, rounds;
      }
    }
    return NothingToDo, context, played, pending, origin, since, rounds;
  }

  /** What holds of a run where it stops. */
  ghost predicate Stopped(agent: Agent, newMessages: NewMessages, context: seq<Message>, steered: seq<Message>,
                          followed: seq<Message>, pending: seq<Message>, origin: Source, turns: seq<Turn>, played: nat,
                          initial: seq<Message>, start: seq<Message>, since: nat, rounds: seq<Round>,
                          nothingFirst: bool)
    reads agent.steeringQueue, agent.followUpQueue, newMessages
  {
    && |rounds| == played <= |turns|
    && Conserved(agent, newMessages, steered, followed, pending, origin)
    && ContextIs(context, BaseOf(turns[..played], initial), newMessages.items, since)
    && start <= newMessages.items && (KeepsContext(turns[..played]) ==> since == |start|)
    && newMessages.items == start + Played(turns, rounds) && GoesOnWithReason(turns, rounds)
    && (played > 0 ==> (nothingFirst <==> rounds[0].injected == []))
  }

  /**
   * Two loops: the inner one goes on while tool results or pending messages call for another turn, the outer
   * one while follow-ups arrive. ended is false when the scripts ran out first.
   */
  method RunLoop(agent: Agent, initialContext: MessageList, newMessages: NewMessages, turns: seq<Turn>,
                 skipInitialPoll: bool,
                 before: Interruption, ghost steered: seq<Message>, ghost followed: seq<Message>)
    returns (ended: bool, context: MessageList, played: nat, pending: seq<Message>, ghost origin: Source,
             ghost since: nat, ghost rounds: seq<Round>)
    requires LoopInv(agent, newMessages, initialContext.items, true, steered, followed, [], Steered,
                     initialContext.items, |newMessages.items|)
    requires forall t <- turns :: TurnOk(t)
    modifies agent, agent.steeringQueue, agent.followUpQueue, initialContext, newMessages
    ensures agent.base == old(agent.base) && played <= |turns| && (origin.Steered? || origin.FollowedUp?)
    ensures Stopped(agent, newMessages, context.items, steered, followed, pending, origin, turns, played,
                    old(initialContext.items), old(newMessages.items), since, rounds,
                    skipInitialPoll || old(agent.steeringQueue.messages) + before.steering == [])
    ensures Read(agent.trace).clash <==> Read(old(agent.trace)).clash || SomeClash(turns[..played])
    ensures ended ==> RunEnded(agent, newMessages) && pending == [] && EndsWithReason(agent, turns, rounds)
    ensures !ended ==> played == |turns| && agent.Running() && !Read(agent.trace).scope.Broken?
    ensures !ended ==> Read(agent.trace).transcript == newMessages.items && WouldGoOn(turns, rounds, pending)
  {
    hide Read, FoldAll, Clashes, SomeClash, Scheduled, Played, GoesOnWithReason, WouldGoOn, Ends, TurnOk, Fails,
         HasMore, Select, TurnMessages, ContextIs, Conserved, KeepsContext, BaseOf, LoopInv, Stopped, Underway;
    ghost var (initial, start, clash) := (initialContext.items, newMessages.items, Read(agent.trace).clash);
    context, played, origin, since, rounds := initialContext, 0, Steered, |start|, [];
    NoTurns(turns, initial);
    pending := PollSteering(agent, newMessages, context, skipInitialPoll, before, true, steered, followed,
                            initial, |start|);
    ghost var nothingFirst := pending == [];
    NoRounds(turns, pending, start);
    Starts(agent, newMessages, context.items, steered, followed, pending, turns, start);
    while true
      invariant agent.base == old(agent.base) && (context == initialContext || fresh(context)) && |rounds| == played
      invariant Underway(agent, newMessages, context.items, played == 0, steered, followed, pending, origin, turns,
                         played, initial, start, since, clash)
      invariant Scheduled(turns, rounds, true, pending, origin, start, newMessages.items, nothingFirst)
      decreases |turns| - played
    {
      var pause;
      pause, context, played, pending, origin, since, rounds := InnerLoop(
        agent, context, newMessages, turns, played, pending, origin, steered, followed, initial, start, since, clash,
        rounds, nothingFirst);
      if !pause.NothingToDo? {
        return pause.RunOver?, context, played, pending, origin, since, rounds;
      }
      NothingMore(turns, rounds, origin, start, newMessages.items, nothingFirst);
      pending := AskFollowUps(agent, newMessages, context, turns, played, origin, steered, followed, initial, start,
                              since, clash);
      origin := FollowedUp;
      if pending == [] {
        break;
      }
    }
    StopsHere(agent, newMessages, context.items, steered, followed, pending, origin, turns, played, initial, start,
              since, clash, rounds, nothingFirst);
    EndRun(agent, newMessages);
    ended := true;
  }

  method AskFollowUps(agent: Agent, newMessages: NewMessages, context: MessageList, turns: seq<Turn>, played: nat,
                      ghost origin: Source, ghost steered: seq<Message>, ghost followed: seq<Message>,
                      ghost initial: seq<Message>, ghost start: seq<Message>, ghost since: nat, ghost clash: bool)
    returns (pending: seq<Message>)
    requires 0 < played <= |turns|
    requires Underway(agent, newMessages, context.items, false, steered, followed, [], origin, turns, played, initial,
                      start, since, clash)
    modifies agent.steeringQueue, agent.followUpQueue
    ensures Underway(agent, newMessages, context.items, false, steered, followed, pending, FollowedUp, turns, played,
                     initial, start, since, clash)
    ensures agent.steeringQueue.messages
         == old(agent.steeringQueue.messages) + turns[played - 1].beforeFollowUps.steering
    ensures pending == [] ==> agent.followUpQueue.messages == []
  {
    hide Read, FoldAll, LoopInv, BaseOf, KeepsContext, SomeClash;
    pending := PollFollowUps(
      agent, newMessages, context, turns[played - 1].beforeFollowUps, false, origin, steered, followed,
      BaseOf(turns[..played], initial), since);
  }

  lemma Starts(agent: Agent, newMessages: NewMessages, context: seq<Message>, steered: seq<Message>,
               followed: seq<Message>, pending: seq<Message>, turns: seq<Turn>, start: seq<Message>)
    requires LoopInv(agent, newMessages, context, true, steered, followed, pending, Steered, context, |start|)
    requires newMessages.items == start
    ensures Underway(agent, newMessages, context, true, steered, followed, pending, Steered, turns, 0, context, start,
                     |start|, Read(agent.trace).clash)
  {
    hide Read, LoopInv;
  }

  lemma StopsHere(agent: Agent, newMessages: NewMessages, context: seq<Message>, steered: seq<Message>,
                  followed: seq<Message>, pending: seq<Message>, origin: Source, turns: seq<Turn>, played: nat,
                  initial: seq<Message>, start: seq<Message>, since: nat, clash: bool, rounds: seq<Round>,
                  nothingFirst: bool)
    requires Underway(agent, newMessages, context, played == 0, steered, followed, pending, origin, turns, played,
                      initial, start, since, clash)
    requires |rounds| == played && newMessages.items == start + Played(turns, rounds) && GoesOnWithReason(turns, rounds)
    requires played > 0 ==> (nothingFirst <==> rounds[0].injected == [])
    ensures Stopped(agent, newMessages, context, steered, followed, pending, origin, turns, played, initial, start,
                    since, rounds, nothingFirst)
    ensures agent.Running() && Read(agent.trace).transcript == newMessages.items
    ensures played > 0 ==> MayBegin(Read(agent.trace), false)
    ensures Read(agent.trace).clash <==> clash || SomeClash(turns[..played])
  {
  }

  lemma {:induction false} BaseKept(turns: seq<Turn>, initial: seq<Message>)
    requires KeepsContext(turns)
    ensures BaseOf(turns, initial) == initial
  {
    if turns != [] {
      var n := |turns| - 1;
      assert forall t <- turns[..n] :: t in turns;
      assert turns[n] in turns;
      BaseKept(turns[..n], initial);
    }
  }

  lemma NoRounds(turns: seq<Turn>, pending: seq<Message>, start: seq<Message>)
    ensures Scheduled(turns, [], true, pending, Steered, start, start, pending == [])
  {
  }

  lemma ScriptsEnd(turns: seq<Turn>, rounds: seq<Round>, hasMore: bool, pending: seq<Message>, origin: Source,
                   start: seq<Message>, items: seq<Message>, nothingFirst: bool)
    requires Scheduled(turns, rounds, hasMore, pending, origin, start, items, nothingFirst)
    requires |rounds| == |turns| && (hasMore || pending != [])
    ensures GoesOnWithReason(turns, rounds) && WouldGoOn(turns, rounds, pending)
    ensures items == start + Played(turns, rounds)
    ensures rounds != [] ==> (nothingFirst <==> rounds[0].injected == [])
  {
  }

  lemma NothingMore(turns: seq<Turn>, rounds: seq<Round>, origin: Source,
                    start: seq<Message>, items: seq<Message>, nothingFirst: bool)
    requires Scheduled(turns, rounds, false, [], origin, start, items, nothingFirst)
    ensures GoesOnWithReason(turns, rounds) && rounds != [] && !HasMore(turns[|rounds| - 1])
    ensures items == start + Played(turns, rounds) && (nothingFirst <==> rounds[0].injected == [])
    ensures forall more: seq<Message> :: more != [] ==>
              Scheduled(turns, rounds, true, more, FollowedUp, start, items, nothingFirst)
  {
  }

  lemma NoTurns(turns: seq<Turn>, initial: seq<Message>)
    ensures BaseOf(turns[..0], initial) == initial && !SomeClash(turns[..0])
  {
  }

  lemma Interrupted(agent: Agent, newMessages: NewMessages, context: seq<Message>, first: bool, steered: seq<Message>,
                    followed: seq<Message>, pending: seq<Message>, origin: Source, contextBase: seq<Message>,
                    since: nat)
    requires LoopInv(agent, newMessages, context, first, steered, followed, pending, origin, contextBase, since)
    ensures agent.Running() && !Read(agent.trace).scope.Broken? && Read(agent.trace).transcript == newMessages.items
    ensures Conserved(agent, newMessages, steered, followed, pending, origin)
    ensures ContextIs(context, contextBase, newMessages.items, since)
    ensures !first ==> MayBegin(Read(agent.trace), false)
  {
  }
}
