/**
 * The events of a run, how an observer may read them, and what the agent makes of them. A reading
 * accepts exactly the traces in which runs, turns, messages and tool executions are bracketed.
 */
module AgentTrace {
  import opened Common

  type CallId = string

  datatype ToolCall = ToolCall(id: CallId, name: string, arguments: string)
  datatype StopReason = StopTurn | StopToolUse | StopLength | StopError | StopAborted
  datatype Reply = Reply(text: string, toolCalls: seq<ToolCall>, stopReason: StopReason, errorMessage: string)
  datatype ToolResult = ToolResult(content: string, terminate: bool)

  datatype Message =
    | UserMessage(text: string)
    | AssistantMessage(reply: Reply)
    | ToolResultMessage(callId: CallId, content: string, isError: bool)

  datatype AgentEvent =
    | AgentStart
    | TurnStart
    | MessageStart(message: Message)
    | MessageUpdate(message: Message)
    | MessageEnd(message: Message)
    | ToolStart(id: CallId)
    | ToolUpdate(id: CallId)
    | ToolEnd(id: CallId, isError: bool)
    | TurnEnd(message: Message, toolResults: seq<Message>)
    | AgentEnd(messages: seq<Message>)

  type Trace = seq<AgentEvent>

  datatype Scope = Outside | InRun | InTurn | Finished | Broken

  /**
   * transcript: the messages ended so far; turn: those of the current turn; message: the one being
   * streamed; open: the tool calls started and not ended; clash: some call began under an id still open.
   */
  datatype Reading = Reading(
    scope: Scope, transcript: seq<Message>, turn: seq<Message>, message: Option<Message>, open: multiset<CallId>,
    clash: bool)

  const NOTHING_READ := Reading(Outside, [], [], None, multiset{}, false)

  /** A streamed reply may differ from its final form; any other message ends as it started. */
  predicate MayEndAs(started: Message, ended: Message) {
    (started.AssistantMessage? && ended.AssistantMessage?) || started == ended
  }

  predicate Accepts(r: Reading, e: AgentEvent) {
    match e
    case AgentStart => r.scope.Outside?
    case TurnStart => r.scope.InRun?
    case MessageStart(_) => r.scope.InTurn? && r.message.None? && r.open == multiset{}
    case MessageUpdate(m) => r.scope.InTurn? && r.message.Some? && r.message.value.AssistantMessage?
      && m.AssistantMessage?
    case MessageEnd(m) => r.scope.InTurn? && r.message.Some? && MayEndAs(r.message.value, m)
    case ToolStart(_) => r.scope.InTurn? && r.message.None?
    case ToolUpdate(id) => r.scope.InTurn? && r.message.None? && id in r.open
    case ToolEnd(id, _) => r.scope.InTurn? && r.message.None? && id in r.open
    case TurnEnd(m, results) =>
      && r.scope.InTurn? && r.message.None? && r.open == multiset{}
      && |results| < |r.turn| && r.turn[|r.turn| - 1 - |results|..] == [m] + results
    case AgentEnd(ms) => r.scope.InRun? && ms == r.transcript
  }

  function Step(r: Reading, e: AgentEvent): Reading {
    if !Accepts(r, e) then r.(scope := Broken)
    else
      match e
      case AgentStart => r.(scope := InRun)
      case TurnStart => r.(scope := InTurn, turn := [])
      case MessageStart(m) => r.(message := Some(m))
      case MessageUpdate(m) => r.(message := Some(m))
      case MessageEnd(m) => r.(message := None, transcript := r.transcript + [m], turn := r.turn + [m])
      case ToolStart(id) => r.(open := r.open + multiset{id}, clash := r.clash || id in r.open)
      case ToolUpdate(_) => r
      case ToolEnd(id, _) => r.(open := r.open - multiset{id})
      case TurnEnd(_, _) => r.(scope := InRun)
      case AgentEnd(_) => r.(scope := Finished)
  }

  function Read(trace: Trace): Reading {
    if trace == [] then NOTHING_READ else Step(Read(trace[..|trace| - 1]), trace[|trace| - 1])
  }

  /** The part of the agent's state that its events determine. */
  datatype FoldedState = FoldedState(
    messages: seq<Message>, streamingMessage: Option<Message>, pendingToolCalls: set<CallId>, errorMessage: string)

  function Fold(s: FoldedState, e: AgentEvent): FoldedState {
    match e
    case MessageStart(m) => s.(streamingMessage := Some(m))
    case MessageUpdate(m) => s.(streamingMessage := Some(m))
    case MessageEnd(m) => s.(streamingMessage := None, messages := s.messages + [m])
    case ToolStart(id) => s.(pendingToolCalls := s.pendingToolCalls + {id})
    case ToolEnd(id, _) => s.(pendingToolCalls := s.pendingToolCalls - {id})
    case TurnEnd(m, _) =>
      if m.AssistantMessage? && m.reply.errorMessage != "" then s.(errorMessage := m.reply.errorMessage) else s
    case AgentEnd(_) => s.(streamingMessage := None)
    case _ => s
  }

  function FoldAll(s: FoldedState, trace: Trace): FoldedState {
    if trace == [] then s else Fold(FoldAll(s, trace[..|trace| - 1]), trace[|trace| - 1])
  }

  lemma AppendEvent(s: FoldedState, trace: Trace, e: AgentEvent)
    ensures Read(trace + [e]) == Step(Read(trace), e)
    ensures FoldAll(s, trace + [e]) == Fold(FoldAll(s, trace), e)
  {
    assert (trace + [e])[..|trace|] == trace;
  }

  lemma {:induction false} BrokenStaysBroken(trace: Trace, n: nat)
    requires n <= |trace| && Read(trace[..n]).scope.Broken?
    ensures Read(trace).scope.Broken?
    decreases |trace|
  {
    if n < |trace| {
      assert trace[..|trace| - 1][..n] == trace[..n];
      BrokenStaysBroken(trace[..|trace| - 1], n);
    } else {
      assert trace[..n] == trace;
    }
  }

  /** A bracket of the reading is open only inside a turn. */
  lemma {:induction false} OpenOnlyInTurn(trace: Trace)
    requires !Read(trace).scope.Broken?
    ensures !Read(trace).scope.InTurn? ==> Read(trace).message.None? && Read(trace).open == multiset{}
  {
    if trace != [] {
      OpenOnlyInTurn(trace[..|trace| - 1]);
    }
  }

  /** Every pending call has not ended, and every open call is pending unless ids clashed. */
  ghost predicate CallsAgree(pending: set<CallId>, r: Reading) {
    && (forall id <- pending :: id in r.open)
    && (!r.clash ==> forall id <- r.open :: id in pending && r.open[id] == 1)
  }

  ghost predicate Agrees(s: FoldedState, f: FoldedState, r: Reading) {
    f.messages == s.messages + r.transcript && f.streamingMessage == r.message && CallsAgree(f.pendingToolCalls, r)
  }

  lemma CallsStep(pending: set<CallId>, r: Reading, id: CallId)
    requires CallsAgree(pending, r)
    ensures CallsAgree(pending + {id}, r.(open := r.open + multiset{id}, clash := r.clash || id in r.open))
    ensures id in r.open ==> CallsAgree(pending - {id}, r.(open := r.open - multiset{id}))
  {
  }

  lemma FoldStep(s: FoldedState, f: FoldedState, r: Reading, e: AgentEvent)
    requires Agrees(s, f, r) && Accepts(r, e) && (!r.scope.InTurn? ==> r.message.None?)
    ensures Agrees(s, Fold(f, e), Step(r, e))
  {
    hide CallsAgree;
    match e
    case ToolStart(id) => CallsStep(f.pendingToolCalls, r, id);
    case ToolEnd(id, _) => CallsStep(f.pendingToolCalls, r, id);
    case MessageStart(_) => SameCalls(f.pendingToolCalls, r, Step(r, e));
    case MessageUpdate(_) => SameCalls(f.pendingToolCalls, r, Step(r, e));
    case MessageEnd(_) => SameCalls(f.pendingToolCalls, r, Step(r, e));
    case _ => SameCalls(f.pendingToolCalls, r, Step(r, e));
  }

  lemma SameCalls(pending: set<CallId>, r: Reading, r': Reading)
    requires CallsAgree(pending, r) && r'.open == r.open && r'.clash == r.clash
    ensures CallsAgree(pending, r')
  {
  }

  /**
   * Folding the events of a well-bracketed trace yields the old transcript and the messages read. The pending
   * calls are calls that have not ended, and all of them unless some call began under an id still open.
   */
  lemma {:induction false} FoldFollowsReading(s: FoldedState, trace: Trace)
    requires !Read(trace).scope.Broken? && s.pendingToolCalls == {} && s.streamingMessage.None?
    ensures Agrees(s, FoldAll(s, trace), Read(trace))
  {
    if trace != [] {
      var init := trace[..|trace| - 1];
      FoldFollowsReading(s, init);
      OpenOnlyInTurn(init);
      FoldStep(s, FoldAll(s, init), Read(init), trace[|trace| - 1]);
    } else {
      assert s.messages + [] == s.messages;
    }
  }

  /** No call is pending where a turn ends, whatever the ids. */
  lemma NothingPendingAtTurnEnd(s: FoldedState, trace: Trace)
    requires !Read(trace).scope.Broken? && s.pendingToolCalls == {} && s.streamingMessage.None?
    requires trace != [] && (trace[|trace| - 1].TurnEnd? || trace[|trace| - 1].AgentEnd?)
    ensures FoldAll(s, trace).pendingToolCalls == {} && FoldAll(s, trace).streamingMessage.None?
  {
    FoldFollowsReading(s, trace);
    OpenOnlyInTurn(trace);
  }

  /** The pending calls are just the calls that have not ended, after every event of the trace. */
  ghost predicate PendingIsOpen(s: FoldedState, trace: Trace) {
    forall n :: 0 <= n <= |trace| ==> PendingAt(s, trace, n)
  }

  ghost predicate PendingAt(s: FoldedState, trace: Trace, n: nat)
    requires n <= |trace|
  {
    forall id :: id in FoldAll(s, trace[..n]).pendingToolCalls <==> id in Read(trace[..n]).open
  }

  lemma {:induction false} ClashOpensTwice(trace: Trace) returns (n: nat, id: CallId)
    requires Read(trace).clash && !Read(trace).scope.Broken?
    ensures n <= |trace| && Read(trace[..n]).open[id] >= 2
  {
    var k := |trace| - 1;
    if Read(trace[..k]).clash {
      n, id := ClashOpensTwice(trace[..k]);
      assert trace[..k][..n] == trace[..n];
    } else {
      n, id := |trace|, trace[k].id;
      assert trace[..n] == trace;
    }
  }

  lemma OpenTwiceStep(s: FoldedState, r: Reading, e: AgentEvent, id: CallId)
    requires r.open[id] >= 2
    ensures !Step(r, e).scope.Broken? && e.ToolEnd? && e.id == id ==>
            id in Step(r, e).open && id !in Fold(s, e).pendingToolCalls
    ensures !(e.ToolEnd? && e.id == id) ==> Step(r, e).open[id] >= 2
  {
  }

  /** Of two calls open under one id, the first to end takes the id out of the pending calls. */
  lemma {:induction false} FirstEndHidesSecond(s: FoldedState, trace: Trace, n: nat, id: CallId)
    requires !Read(trace).scope.Broken? && Read(trace).open == multiset{} && n <= |trace|
             && Read(trace[..n]).open[id] >= 2
    ensures !PendingIsOpen(s, trace)
    decreases |trace| - n
  {
    hide Read, FoldAll, Step, Fold;
    assert trace[..|trace|] == trace;
    if n < |trace| {
      assert trace[..n + 1] == trace[..n] + [trace[n]];
      AppendEvent(s, trace[..n], trace[n]);
      OpenTwiceStep(FoldAll(s, trace[..n]), Read(trace[..n]), trace[n], id);
      if Read(trace[..n + 1]).scope.Broken? {
        BrokenStaysBroken(trace, n + 1);
      }
      if trace[n].ToolEnd? && trace[n].id == id {
        assert !PendingAt(s, trace, n + 1);
      } else {
        FirstEndHidesSecond(s, trace, n + 1, id);
      }
    }
  }

  /** Over a well-bracketed trace that leaves no call open, pending calls are right exactly when no ids clash. */
  lemma PendingCallsExactly(s: FoldedState, trace: Trace)
    requires !Read(trace).scope.Broken? && Read(trace).open == multiset{}
    requires s.pendingToolCalls == {} && s.streamingMessage.None?
    ensures PendingIsOpen(s, trace) <==> !Read(trace).clash
  {
    hide Read, FoldAll;
    if Read(trace).clash {
      var n, id := ClashOpensTwice(trace);
      FirstEndHidesSecond(s, trace, n, id);
    } else {
      forall n | 0 <= n <= |trace| ensures PendingAt(s, trace, n) {
        ClashStays(trace, n);
        if Read(trace[..n]).scope.Broken? {
          BrokenStaysBroken(trace, n);
        }
        FoldFollowsReading(s, trace[..n]);
      }
    }
  }

  lemma {:induction false} ClashStays(trace: Trace, n: nat)
    requires n <= |trace|
    ensures Read(trace[..n]).clash ==> Read(trace).clash
    decreases |trace|
  {
    if n < |trace| {
      assert trace[..|trace| - 1][..n] == trace[..n];
      ClashStays(trace[..|trace| - 1], n);
    } else {
      assert trace[..n] == trace;
    }
  }

  /** A run up to its first reply, which calls two tools under one id. */
  function SharedIdTrace(reply: Reply, id: CallId): Trace {
    [AgentStart, TurnStart, MessageStart(AssistantMessage(reply)), MessageEnd(AssistantMessage(reply)),
     ToolStart(id), ToolStart(id), ToolEnd(id, false)]
  }

  lemma ReadReply(s: FoldedState, reply: Reply)
    requires s.pendingToolCalls == {}
    ensures var m := AssistantMessage(reply);
            var trace := [AgentStart, TurnStart, MessageStart(m), MessageEnd(m)];
            && Read(trace) == Reading(InTurn, [m], [m], None, multiset{}, false)
            && FoldAll(s, trace).pendingToolCalls == {}
  {
    var m := AssistantMessage(reply);
    var t1: Trace := [AgentStart];
    AppendEvent(s, [], AgentStart);
    AppendEvent(s, t1, TurnStart);
    AppendEvent(s, t1 + [TurnStart], MessageStart(m));
    AppendEvent(s, t1 + [TurnStart, MessageStart(m)], MessageEnd(m));
    assert [] + [AgentStart] == t1;
    assert t1 + [TurnStart] + [MessageStart(m)] == t1 + [TurnStart, MessageStart(m)];
    assert t1 + [TurnStart, MessageStart(m)] + [MessageEnd(m)]
      == [AgentStart, TurnStart, MessageStart(m), MessageEnd(m)];
  }

  /**
   * In a run whose reply calls two tools under one id, both are started before either ends; after the first end
   * one call is still open and none is pending.
   */
  lemma SharedIdHidesCall(s: FoldedState, reply: Reply, id: CallId)
    requires s.pendingToolCalls == {}
    requires |reply.toolCalls| == 2 && reply.toolCalls[0].id == id && reply.toolCalls[1].id == id
    ensures var trace := SharedIdTrace(reply, id);
            !Read(trace).scope.Broken? && Read(trace).open == multiset{id} && FoldAll(s, trace).pendingToolCalls == {}
  {
    hide Read, FoldAll;
    ReadReply(s, reply);
    var m := AssistantMessage(reply);
    var t: Trace := [AgentStart, TurnStart, MessageStart(m), MessageEnd(m)];
    AppendEvent(s, t, ToolStart(id));
    AppendEvent(s, t + [ToolStart(id)], ToolStart(id));
    AppendEvent(s, t + [ToolStart(id)] + [ToolStart(id)], ToolEnd(id, false));
    assert t + [ToolStart(id)] + [ToolStart(id)] + [ToolEnd(id, false)] == SharedIdTrace(reply, id);
  }

  /** A turn that ends with a reply that failed. */
  predicate ReportsError(e: AgentEvent) {
    e.TurnEnd? && e.message.AssistantMessage? && e.message.reply.errorMessage != ""
  }

  /** The error the agent shows is that of the last turn that failed. */
  lemma {:induction false} LastErrorIsShown(s: FoldedState, trace: Trace, n: nat)
    requires n < |trace| && ReportsError(trace[n]) && forall j :: n < j < |trace| ==> !ReportsError(trace[j])
    ensures FoldAll(s, trace).errorMessage == trace[n].message.reply.errorMessage
  {
    if n < |trace| - 1 {
      LastErrorIsShown(s, trace[..|trace| - 1], n);
    }
  }

  lemma {:induction false} NoErrorIsShown(s: FoldedState, trace: Trace)
    requires forall j :: 0 <= j < |trace| ==> !ReportsError(trace[j])
    ensures FoldAll(s, trace).errorMessage == s.errorMessage
  {
    if trace != [] {
      NoErrorIsShown(s, trace[..|trace| - 1]);
    }
  }
}
