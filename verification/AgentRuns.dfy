/** Whole runs: prompting the agent, and continuing from its transcript. */
module AgentRuns {
  import opened Common
  import opened AgentTrace
  import opened AgentState
  import opened ToolBatches
  import opened ToolExecution
  import opened AgentLoop

  datatype Result = Completed | Unfinished | Busy | NoMessages | EndsWithAssistant

  /**
   * What a run that began with the given transcript has come to: the agent's transcript is the old one and the
   * messages added, each queue has given up what was added from it, and what was taken but is not added yet.
   */
  ghost predicate Accounted(agent: Agent, transcript: seq<Message>, added: seq<Message>, sources: seq<Source>,
                            steered: seq<Message>, followed: seq<Message>, taken: seq<Message>, takenFrom: Source)
    reads agent, agent.steeringQueue, agent.followUpQueue
  {
    && |added| == |sources| && agent.messages == transcript + added
    && agent.steeringQueue.Valid() && agent.followUpQueue.Valid()
    && agent.steeringQueue.drained
          == steered + Select(added, sources, Steered) + (if takenFrom.Steered? then taken else [])
    && agent.followUpQueue.drained
          == followed + Select(added, sources, FollowedUp) + (if takenFrom.FollowedUp? then taken else [])
  }

  method EmitAll(agent: Agent, messages: seq<Message>)
    requires agent.Running() && Quiet(Read(agent.trace))
    modifies agent
    ensures agent.Running() && agent.base == old(agent.base)
    ensures Quiet(Read(agent.trace)) && Adds(Read(old(agent.trace)), messages, Read(agent.trace))
    ensures Read(agent.trace).clash == Read(old(agent.trace)).clash
  {
    hide Read, FoldAll, Adds, Quiet;
    ghost var r := Read(agent.trace);
    AddsNothing(r);
    for i := 0 to |messages|
      invariant agent.Running() && agent.base == old(agent.base)
      invariant Quiet(Read(agent.trace)) && Adds(r, messages[..i], Read(agent.trace))
                && Read(agent.trace).clash == r.clash
    {
      ghost var before := Read(agent.trace);
      EmitMessage(agent, messages[i]);
      AddsMore(r, messages[..i], before, [messages[i]], Read(agent.trace));
      assert messages[..i + 1] == messages[..i] + [messages[i]];
    }
    assert messages[..|messages|] == messages;
  }

  /** The events and messages before the loop. */
  method StartLoop(agent: Agent, prompts: seq<Message>, ghost source: Source, ghost steered: seq<Message>,
                   ghost followed: seq<Message>)
    returns (newMessages: NewMessages, context: MessageList)
    requires agent.Running() && agent.trace == [] && agent.steeringQueue != agent.followUpQueue
    requires agent.steeringQueue.Valid() && agent.followUpQueue.Valid()
    requires agent.steeringQueue.drained == steered + if source.Steered? then prompts else []
    requires agent.followUpQueue.drained == followed + if source.FollowedUp? then prompts else []
    modifies agent
    ensures agent.base == old(agent.base) && fresh(newMessages) && fresh(context)
    ensures newMessages.items == prompts && context.items == old(agent.messages) + prompts
    ensures LoopInv(agent, newMessages, context.items, true, steered, followed, [], Steered, context.items, |prompts|)
    ensures !Read(agent.trace).clash
  {
    hide FoldAll, Select;
    newMessages := new NewMessages(prompts, source);
    context := new MessageList(agent.messages + prompts);
    agent.ProcessEvents(AgentStart);
    agent.ProcessEvents(TurnStart);
    EmitAll(agent, prompts);
  }

  lemma WholeContext(context: seq<Message>, transcript: seq<Message>, prompts: seq<Message>, items: seq<Message>)
    requires ContextIs(context, transcript + prompts, items, |prompts|) && prompts <= items
    ensures context == transcript + items
  {
    assert items == prompts + items[|prompts|..];
    assert transcript + prompts + items[|prompts|..] == transcript + (prompts + items[|prompts|..]);
  }

  /** A run goes on, and ends, only with reason. */
  ghost predicate Paced(agent: Agent, ended: bool, turns: seq<Turn>, rounds: seq<Round>, taken: seq<Message>)
    reads agent, agent.steeringQueue, agent.followUpQueue
  {
    && GoesOnWithReason(turns, rounds)
    && if ended then EndsWithReason(agent, turns, rounds) else WouldGoOn(turns, rounds, taken)
  }

  /** runAgentLoop, and with no prompts runAgentLoopContinue. */
  method RunAgentLoop(agent: Agent, prompts: seq<Message>, ghost source: Source, turns: seq<Turn>,
                      skipInitialPoll: bool,
                      before: Interruption, ghost steered: seq<Message>, ghost followed: seq<Message>)
    returns (ended: bool, newMessages: NewMessages, ghost played: nat, ghost context: seq<Message>,
             ghost taken: seq<Message>, ghost takenFrom: Source, ghost rounds: seq<Round>)
    requires agent.Running() && agent.trace == [] && agent.steeringQueue != agent.followUpQueue
    requires agent.steeringQueue.Valid() && agent.followUpQueue.Valid()
    requires agent.steeringQueue.drained == steered + if source.Steered? then prompts else []
    requires agent.followUpQueue.drained == followed + if source.FollowedUp? then prompts else []
    requires forall t <- turns :: TurnOk(t)
    modifies agent, agent.steeringQueue, agent.followUpQueue
    ensures agent.base == old(agent.base) && agent.Running() && fresh(newMessages)
    ensures ended ==> RunEnded(agent, newMessages) && taken == []
    ensures !Read(agent.trace).scope.Broken? && Read(agent.trace).transcript == newMessages.items
    ensures Conserved(agent, newMessages, steered, followed, taken, takenFrom)
    ensures played <= |turns| && (KeepsContext(turns[..played]) ==> context == old(agent.messages) + newMessages.items)
    ensures Read(agent.trace).clash <==> SomeClash(turns[..played])
    ensures ended && agent.base.pendingToolCalls == {} && agent.base.streamingMessage.None? ==>
              (PendingIsOpen(agent.base, agent.trace) <==> !SomeClash(turns[..played]))
    ensures |rounds| == played && Paced(agent, ended, turns, rounds, taken)
    ensures newMessages.items == prompts + Played(turns, rounds)
    ensures rounds != [] ==>
              (rounds[0].injected == [] <==>
               skipInitialPoll || old(agent.steeringQueue.messages) + before.steering == [])
  {
    hide FoldAll, Read, TurnOk, Select, Played, GoesOnWithReason, WouldGoOn, SomeClash, KeepsContext, LoopInv,
         Conserved, ContextIs, BaseOf, PendingIsOpen;
    var current;
    newMessages, current := StartLoop(agent, prompts, source, steered, followed);
    var loopContext, count, pending;
    ghost var origin, since;
    ended, loopContext, count, pending, origin, since, rounds := RunLoop(
      agent, current, newMessages, turns, skipInitialPoll, before, steered, followed);
    played, context, taken, takenFrom := count, loopContext.items, pending, origin;
    if KeepsContext(turns[..count]) {
      BaseKept(turns[..count], old(agent.messages) + prompts);
      WholeContext(context, old(agent.messages), prompts, newMessages.items);
    }
    if ended && agent.base.pendingToolCalls == {} && agent.base.streamingMessage.None? {
      OpenOnlyInTurn(agent.trace);
      PendingCallsExactly(agent.base, agent.trace);
    }
  }

  /** The folded transcript of a run that has come this far, from the events it emitted. */
  lemma Folded(agent: Agent, newMessages: NewMessages, transcript: seq<Message>)
    requires agent.Running() && agent.base == FoldedState(transcript, None, {}, "")
    requires !Read(agent.trace).scope.Broken? && Read(agent.trace).transcript == newMessages.items
    ensures agent.messages == transcript + newMessages.items
    ensures forall id <- agent.pendingToolCalls :: id in Read(agent.trace).open
    ensures !Read(agent.trace).clash ==> forall id <- Read(agent.trace).open :: id in agent.pendingToolCalls
  {
    hide Read, FoldAll;
    FoldFollowsReading(agent.base, agent.trace);
  }

  /** runWithLifecycle around one loop. An unfinished run leaves the agent running. */
  method RunWithLifecycle(agent: Agent, prompts: seq<Message>, ghost source: Source, turns: seq<Turn>,
                          skipInitialPoll: bool,
                          before: Interruption, ghost steered: seq<Message>, ghost followed: seq<Message>)
    returns (result: Result, added: seq<Message>, ghost sources: seq<Source>, ghost taken: seq<Message>,
             ghost takenFrom: Source, ghost rounds: seq<Round>)
    requires agent.Idle() && agent.steeringQueue.Valid() && agent.followUpQueue.Valid()
    requires agent.steeringQueue.drained == steered + if source.Steered? then prompts else []
    requires agent.followUpQueue.drained == followed + if source.FollowedUp? then prompts else []
    requires forall t <- turns :: TurnOk(t)
    modifies agent, agent.steeringQueue, agent.followUpQueue
    ensures result.Completed? || result.Unfinished?
    ensures Accounted(agent, old(agent.messages), added, sources, steered, followed, taken, takenFrom)
    ensures result.Completed? ==> agent.Idle() && taken == []
    ensures result.Unfinished? ==> agent.Running()
    ensures !Read(agent.trace).scope.Broken? && Read(agent.trace).transcript == added
    ensures result.Completed? ==>
            Read(agent.trace).scope.Finished? && agent.trace != [] && agent.trace[|agent.trace| - 1] == AgentEnd(added)
    ensures |rounds| <= |turns| && Paced(agent, result.Completed?, turns, rounds, taken)
    ensures added == prompts + Played(turns, rounds)
    ensures rounds != [] ==>
              (rounds[0].injected == [] <==>
               skipInitialPoll || old(agent.steeringQueue.messages) + before.steering == [])
  {
    hide Read, FoldAll, TurnOk, Select, SomeClash, KeepsContext, Played, GoesOnWithReason, WouldGoOn;
    agent.BeginRun();
    var ended, newMessages;
    ghost var played, context;
    ended, newMessages, played, context, taken, takenFrom, rounds := RunAgentLoop(
      agent, prompts, source, turns, skipInitialPoll, before, steered, followed);
    Folded(agent, newMessages, old(agent.messages));
    added, sources := newMessages.items, newMessages.sources;
    result := if ended then Completed else Unfinished;
    if ended {
      agent.FinishRun();
    }
  }

  method Prompt(agent: Agent, messages: seq<Message>, turns: seq<Turn>, before: Interruption)
    returns (result: Result, added: seq<Message>, ghost sources: seq<Source>, ghost taken: seq<Message>,
             ghost takenFrom: Source, ghost rounds: seq<Round>)
    requires agent.activeRun || agent.Idle()
    requires agent.steeringQueue.Valid() && agent.followUpQueue.Valid()
    requires forall t <- turns :: TurnOk(t)
    modifies agent, agent.steeringQueue, agent.followUpQueue
    ensures result.Busy? <==> old(agent.activeRun)
    ensures result.Busy? ==> unchanged(agent) && unchanged(agent.steeringQueue) && unchanged(agent.followUpQueue)
    ensures !result.Busy? ==> result.Completed? || result.Unfinished?
    ensures !result.Busy? ==> Accounted(agent, old(agent.messages), added, sources,
                                        old(agent.steeringQueue.drained), old(agent.followUpQueue.drained),
                                        taken, takenFrom)
    ensures result.Completed? ==>
            agent.Idle() && taken == [] && |agent.trace| > 0 && agent.trace[|agent.trace| - 1] == AgentEnd(added)
    ensures |rounds| <= |turns| && added == (if result.Busy? then [] else messages) + Played(turns, rounds)
    ensures !result.Busy? ==> Paced(agent, result.Completed?, turns, rounds, taken)
    ensures rounds != [] ==> (rounds[0].injected == [] <==> old(agent.steeringQueue.messages) + before.steering == [])
  {
    hide Paced;
    if agent.activeRun {
      return Busy, [], [], [], Prompted, [];
    }
    result, added, sources, taken, takenFrom, rounds := RunWithLifecycle(
      agent, messages, Prompted, turns, false, before, agent.steeringQueue.drained, agent.followUpQueue.drained);
  }

  /** What a drain of the queue takes. */
  predicate TakenFrom(queued: seq<Message>, mode: QueueMode, taken: seq<Message>) {
    taken <= queued && (if mode.All? then taken == queued else |taken| == 1)
  }

  /** After a reply of the model the queued messages become prompts, steering before follow-ups; otherwise none do. */
  predicate PromptsOf(transcript: seq<Message>, steering: seq<Message>, steeringMode: QueueMode,
                      followUps: seq<Message>, followUpMode: QueueMode, prompts: seq<Message>)
  {
    if transcript == [] || !transcript[|transcript| - 1].AssistantMessage? then prompts == []
    else if steering != [] then TakenFrom(steering, steeringMode, prompts)
    else TakenFrom(followUps, followUpMode, prompts)
  }

  lemma Queued(transcript: seq<Message>, steering: seq<Message>, steeringMode: QueueMode, followUps: seq<Message>,
               followUpMode: QueueMode, prompts: seq<Message>)
    requires transcript != [] && transcript[|transcript| - 1].AssistantMessage?
    requires if steering != [] then TakenFrom(steering, steeringMode, prompts)
             else TakenFrom(followUps, followUpMode, prompts)
    ensures PromptsOf(transcript, steering, steeringMode, followUps, followUpMode, prompts)
  {
  }

  lemma Unqueued(transcript: seq<Message>, steering: seq<Message>, steeringMode: QueueMode, followUps: seq<Message>,
                 followUpMode: QueueMode)
    requires transcript == [] || !transcript[|transcript| - 1].AssistantMessage?
    ensures PromptsOf(transcript, steering, steeringMode, followUps, followUpMode, [])
  {
  }

  lemma NothingAdded(agent: Agent)
    requires agent.steeringQueue.Valid() && agent.followUpQueue.Valid()
    ensures Accounted(agent, agent.messages, [], [], agent.steeringQueue.drained, agent.followUpQueue.drained,
                      [], Prompted)
  {
  }

  /**
   * continue(): from a transcript that ends with a reply of the model only queued messages can go on, steering
   * before follow-ups; they are the prompts of the new run.
   */
  method Continue(agent: Agent, turns: seq<Turn>, before: Interruption)
    returns (result: Result, added: seq<Message>, ghost sources: seq<Source>, ghost taken: seq<Message>,
             ghost takenFrom: Source, ghost rounds: seq<Round>, ghost prompts: seq<Message>)
    requires agent.activeRun || agent.Idle()
    requires agent.steeringQueue.Valid() && agent.followUpQueue.Valid()
    requires forall t <- turns :: TurnOk(t)
    modifies agent, agent.steeringQueue, agent.followUpQueue
    ensures result.Busy? <==> old(agent.activeRun)
    ensures result.NoMessages? <==> !old(agent.activeRun) && old(agent.messages) == []
    ensures result.EndsWithAssistant? <==>
              !old(agent.activeRun) && old(agent.messages) != []
                  && old(agent.messages)[|old(agent.messages)| - 1].AssistantMessage?
              && old(agent.steeringQueue.messages) == [] && old(agent.followUpQueue.messages) == []
    ensures !result.Busy? ==> Accounted(agent, old(agent.messages), added, sources,
                                        old(agent.steeringQueue.drained), old(agent.followUpQueue.drained),
                                        taken, takenFrom)
    ensures result.Completed? ==>
            agent.Idle() && taken == [] && |agent.trace| > 0 && agent.trace[|agent.trace| - 1] == AgentEnd(added)
    ensures result.Completed? || result.Unfinished? ==>
              && |rounds| <= |turns| && added == prompts + Played(turns, rounds)
              && Paced(agent, result.Completed?, turns, rounds, taken)
    ensures result.Completed? || result.Unfinished? ==>
              PromptsOf(old(agent.messages), old(agent.steeringQueue.messages), old(agent.steeringQueue.mode),
                        old(agent.followUpQueue.messages), old(agent.followUpQueue.mode), prompts)
    // The first poll for steering is skipped when steering messages have just become the prompts.
    ensures rounds != [] ==>
              (rounds[0].injected == [] <==>
               || (old(agent.messages) != [] && old(agent.messages)[|old(agent.messages)| - 1].AssistantMessage?
                   && old(agent.steeringQueue.messages) != [])
               || old(agent.steeringQueue.messages) + before.steering == [])
  {
    hide TurnOk, Paced, Played, Accounted, PromptsOf;
    prompts, rounds := [], [];
    ghost var (transcript, steering, followUps) :=
      (agent.messages, agent.steeringQueue.messages, agent.followUpQueue.messages);
    ghost var (steeringMode, followUpMode) := (agent.steeringQueue.mode, agent.followUpQueue.mode);
    if agent.activeRun {
      return Busy, [], [], [], Prompted, [], [];
    }
    if agent.messages == [] {
      NothingAdded(agent);
      return NoMessages, [], [], [], Prompted, [], [];
    }
    ghost var (steered, followed) := (agent.steeringQueue.drained, agent.followUpQueue.drained);
    if agent.messages[|agent.messages| - 1].AssistantMessage? {
      var queuedSteering := agent.steeringQueue.Drain();
      if queuedSteering != [] {
        prompts := queuedSteering;
        Queued(transcript, steering, steeringMode, followUps, followUpMode, prompts);
        result, added, sources, taken, takenFrom, rounds := RunWithLifecycle(
          agent, queuedSteering, Steered, turns, true, before, steered, followed);
        return;
      }
      var queuedFollowUps := agent.followUpQueue.Drain();
      if queuedFollowUps != [] {
        prompts := queuedFollowUps;
        Queued(transcript, steering, steeringMode, followUps, followUpMode, prompts);
        result, added, sources, taken, takenFrom, rounds := RunWithLifecycle(
          agent, queuedFollowUps, FollowedUp, turns, false, before, steered, followed);
        return;
      }
      assert agent.steeringQueue.drained == steered && agent.followUpQueue.drained == followed;
      NothingAdded(agent);
      return EndsWithAssistant, [], [], [], Prompted, [], [];
    }
    Unqueued(transcript, steering, steeringMode, followUps, followUpMode);
    result, added, sources, taken, takenFrom, rounds :=
      RunWithLifecycle(agent, [], Prompted, turns, false, before, steered, followed);
  }
}
