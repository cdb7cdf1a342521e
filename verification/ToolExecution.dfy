/** The execution of the tool calls of one assistant message. */
module ToolExecution {
  import opened Common
  import opened AgentTrace
  import opened AgentState
  import opened ToolBatches

  /** Between two messages of a turn, with no tool call open. */
  predicate Quiet(r: Reading) {
    r.scope.InTurn? && r.message.None? && r.open == multiset{}
  }

  /** What a reading has become when whole messages were added to the turn. */
  predicate Adds(r: Reading, messages: seq<Message>, r': Reading) {
    r' == r.(transcript := r.transcript + messages, turn := r.turn + messages, clash := r'.clash)
  }

  lemma AddsMore(r: Reading, messages: seq<Message>, r': Reading, more: seq<Message>, r'': Reading)
    requires Adds(r, messages, r') && Adds(r', more, r'')
    ensures Adds(r, messages + more, r'')
  {
    assert r.transcript + messages + more == r.transcript + (messages + more);
    assert r.turn + messages + more == r.turn + (messages + more);
  }

  lemma AddsNothing(r: Reading)
    ensures Adds(r, [], r)
  {
    assert r.transcript + [] == r.transcript && r.turn + [] == r.turn;
  }

  method EmitMessage(agent: Agent, message: Message)
    requires agent.Running() && Quiet(Read(agent.trace))
    modifies agent
    ensures agent.Running() && agent.base == old(agent.base)
    ensures Quiet(Read(agent.trace)) && Adds(Read(old(agent.trace)), [message], Read(agent.trace))
    ensures Read(agent.trace).clash == Read(old(agent.trace)).clash
  {
    agent.ProcessEvents(MessageStart(message));
    agent.ProcessEvents(MessageEnd(message));
  }

  /** Calls are not executed when the reply was cut off: each of them fails. */
  method FailToolCallsFromTruncatedMessage(agent: Agent, toolCalls: seq<ToolCall>)
    returns (messages: seq<Message>, terminate: bool)
    requires agent.Running() && Quiet(Read(agent.trace))
    modifies agent
    ensures agent.Running() && agent.base == old(agent.base)
    ensures !terminate && messages == TruncatedResults(toolCalls)
    ensures Quiet(Read(agent.trace)) && Adds(Read(old(agent.trace)), messages, Read(agent.trace))
    ensures Read(agent.trace).clash == Read(old(agent.trace)).clash
  {
    hide Read, FoldAll, Adds, TruncatedResult;
    messages, terminate := [], false;
    ghost var r := Read(agent.trace);
    AddsNothing(r);
    for i := 0 to |toolCalls|
      invariant agent.Running() && agent.base == old(agent.base) && |messages| == i
      invariant forall j :: 0 <= j < i ==> messages[j] == TruncatedResult(toolCalls[j])
      invariant Quiet(Read(agent.trace)) && Adds(r, messages, Read(agent.trace)) && Read(agent.trace).clash == r.clash
    {
      StartAndEnd(agent, toolCalls[i].id);
      var message := TruncatedResult(toolCalls[i]);
      ghost var before := Read(agent.trace);
      EmitMessage(agent, message);
      AddsMore(r, messages, before, [message], Read(agent.trace));
      messages := messages + [message];
    }
  }

  method StartAndEnd(agent: Agent, id: CallId)
    requires agent.Running() && Quiet(Read(agent.trace))
    modifies agent
    ensures agent.Running() && agent.base == old(agent.base) && Read(agent.trace) == Read(old(agent.trace))
  {
    hide Read, FoldAll;
    agent.ProcessEvents(ToolStart(id));
    agent.ProcessEvents(ToolEnd(id, true));
  }

  /** One call from its start to its result; the outcome is the one the surroundings determine. */
  method ExecuteOne(agent: Agent, c: CallRun) returns (outcome: Outcome)
    requires agent.Running() && Quiet(Read(agent.trace))
    modifies agent
    ensures agent.Running() && agent.base == old(agent.base) && outcome == OutcomeOf(c)
    ensures Read(agent.trace) == Read(old(agent.trace))
  {
    hide Read, FoldAll;
    agent.ProcessEvents(ToolStart(c.call.id));
    var prepared := Prepare(c);
    if prepared.Some? {
      outcome := prepared.value;
    } else {
      EmitUpdates(agent, c.call.id);
      outcome := Finalize(c, Execute(c));
    }
    agent.ProcessEvents(ToolEnd(c.call.id, outcome.isError));
  }

  method ExecuteToolCallsSequential(agent: Agent, calls: seq<CallRun>) returns (messages: seq<Message>, terminate: bool)
    requires agent.Running() && Quiet(Read(agent.trace))
    modifies agent
    ensures agent.Running() && agent.base == old(agent.base)
    ensures messages == ResultMessages(calls[..Handled(calls)])
            && terminate == ShouldTerminateToolBatch(Outcomes(calls[..Handled(calls)]))
    ensures Quiet(Read(agent.trace)) && Adds(Read(old(agent.trace)), messages, Read(agent.trace))
    ensures Read(agent.trace).clash == Read(old(agent.trace)).clash
  {
    hide Read, FoldAll, Adds, Quiet, OutcomeOf;
    messages := [];
    var finalized: seq<Outcome> := [];
    ghost var r := Read(agent.trace);
    AddsNothing(r);
    var i := 0;
    while i < |calls|
      invariant 0 <= i <= |calls| && agent.Running() && agent.base == old(agent.base)
      invariant messages == ResultMessages(calls[..i])
      invariant finalized == Outcomes(calls[..i])
      invariant Quiet(Read(agent.trace)) && Adds(r, messages, Read(agent.trace)) && Read(agent.trace).clash == r.clash
      invariant forall j :: 0 <= j < i ==> !calls[j].abortedAfter
    {
      var c := calls[i];
      var outcome := ExecuteOne(agent, c);
      var message := ToolResultMessage(c.call.id, outcome.result.content, outcome.isError);
      ghost var before := Read(agent.trace);
      EmitMessage(agent, message);
      AddsMore(r, messages, before, [message], Read(agent.trace));
      finalized := finalized + [outcome];
      assert calls[..i + 1][..i] == calls[..i];
      messages := messages + [message];
      i := i + 1;
      if c.abortedAfter {
        break;
      }
    }
    HandledIs(calls, i);
    assert finalized == Outcomes(calls[..Handled(calls)]);
    terminate := ShouldTerminateToolBatch(finalized);
  }

  /** Any number of progress events of the one tool that is being executed. */
  method EmitUpdates(agent: Agent, id: CallId)
    requires agent.Running() && Read(agent.trace).scope.InTurn? && Read(agent.trace).message.None?
             && id in Read(agent.trace).open
    modifies agent
    ensures agent.Running() && agent.base == old(agent.base) && Read(agent.trace) == Read(old(agent.trace))
  {
    var count: int := *;
    while count > 0
      invariant agent.Running() && agent.base == old(agent.base) && Read(agent.trace) == Read(old(agent.trace))
    {
      agent.ProcessEvents(ToolUpdate(id));
      count := count - 1;
    }
  }

  /** The ids of some calls of a batch. */
  ghost function Ids(calls: seq<CallRun>, indices: seq<nat>): seq<CallId>
    requires forall k :: 0 <= k < |indices| ==> indices[k] < |calls|
  {
    seq(|indices|, k requires 0 <= k < |indices| => calls[indices[k]].call.id)
  }

  /** The calls before n either have their outcome or are being executed. */
  ghost predicate InFlight(calls: seq<CallRun>, n: nat, settled: map<nat, Outcome>, running: seq<nat>) {
    && n <= |calls|
    && (forall k :: 0 <= k < |running| ==> running[k] < n && Prepare(calls[running[k]]).None?)
    && (forall i :: i in settled ==> i < n && settled[i] == OutcomeOf(calls[i]))
    && (forall i :: 0 <= i < n ==> i in settled || i in running)
  }

  /** A reading in which just the calls being executed are open. */
  ghost predicate OnlyOpen(calls: seq<CallRun>, running: seq<nat>, r: Reading, r': Reading)
    requires forall k :: 0 <= k < |running| ==> running[k] < |calls|
  {
    r' == r.(open := multiset(Ids(calls, running)), clash := r'.clash)
  }

  /** The calls before n that passed the checks are being executed, and no other. */
  ghost predicate AllRunning(calls: seq<CallRun>, n: nat, running: seq<nat>) {
    n <= |calls| && forall i: nat :: i in running <==> i < n && Prepare(calls[i]).None?
  }

  /** One call begins: a refusal ends it at once, otherwise it stays open. */
  method StartOne(agent: Agent, calls: seq<CallRun>, n: nat, running: seq<nat>, ghost r: Reading)
    returns (prepared: Option<Outcome>)
    requires agent.Running() && Quiet(r) && n < |calls| && forall k :: 0 <= k < |running| ==> running[k] < n
    requires AllRunning(calls, n, running) && OnlyOpen(calls, running, r, Read(agent.trace))
    modifies agent
    ensures agent.Running() && agent.base == old(agent.base) && prepared == Prepare(calls[n])
    ensures OnlyOpen(calls, if prepared.None? then running + [n] else running, r, Read(agent.trace))
    ensures Read(agent.trace).clash <==> Read(old(agent.trace)).clash || IdInUse(calls, n)
  {
    hide Read, FoldAll, Prepare, OnlyOpen, AllRunning, IdInUse, Step;
    var id := calls[n].call.id;
    StartStep(calls, n, running, r, Read(agent.trace));
    agent.ProcessEvents(ToolStart(id));
    prepared := Prepare(calls[n]);
    if prepared.Some? {
      EndStep(calls, running, n, r, Read(agent.trace), prepared.value.isError);
      agent.ProcessEvents(ToolEnd(id, prepared.value.isError));
    }
  }

  lemma StartStep(calls: seq<CallRun>, n: nat, running: seq<nat>, r: Reading, r': Reading)
    requires Quiet(r) && n < |calls| && forall k :: 0 <= k < |running| ==> running[k] < n
    requires AllRunning(calls, n, running) && OnlyOpen(calls, running, r, r')
    ensures OnlyOpen(calls, running + [n], r, Step(r', ToolStart(calls[n].call.id)))
    ensures Step(r', ToolStart(calls[n].call.id)).clash <==> r'.clash || IdInUse(calls, n)
  {
    hide IdInUse, AllRunning;
    assert Ids(calls, running + [n]) == Ids(calls, running) + [calls[n].call.id];
    UsedId(calls, n, running);
  }

  /** The call that ends may be any of those being executed. */
  lemma EndStep(calls: seq<CallRun>, running: seq<nat>, n: nat, r: Reading, r': Reading, isError: bool)
    requires Quiet(r) && n < |calls| && forall k :: 0 <= k < |running| ==> running[k] < |calls|
    requires OnlyOpen(calls, running + [n], r, r')
    ensures OnlyOpen(calls, running, r, Step(r', ToolEnd(calls[n].call.id, isError)))
    ensures Accepts(r', ToolEnd(calls[n].call.id, isError))
    ensures Step(r', ToolEnd(calls[n].call.id, isError)).clash == r'.clash
  {
    assert Ids(calls, running + [n]) == Ids(calls, running) + [calls[n].call.id];
    assert calls[n].call.id in r'.open && Accepts(r', ToolEnd(calls[n].call.id, isError));
  }

  lemma UsedId(calls: seq<CallRun>, n: nat, running: seq<nat>)
    requires n < |calls| && AllRunning(calls, n, running) && forall k :: 0 <= k < |running| ==> running[k] < |calls|
    ensures calls[n].call.id in multiset(Ids(calls, running)) <==> IdInUse(calls, n)
  {
    hide Prepare;
    if IdInUse(calls, n) {
      var i: nat :| i < n && Prepare(calls[i]).None? && calls[i].call.id == calls[n].call.id;
      assert i in running;
      var k :| 0 <= k < |running| && running[k] == i;
      assert Ids(calls, running)[k] == calls[n].call.id;
    }
    if calls[n].call.id in Ids(calls, running) {
      var k :| 0 <= k < |running| && calls[running[k]].call.id == calls[n].call.id;
      assert running[k] in running;
    }
  }

  /** The calls are started in their order; those refused settle at once. */
  method StartAll(agent: Agent, calls: seq<CallRun>) returns (n: nat, settled: map<nat, Outcome>, running: seq<nat>)
    requires agent.Running() && Quiet(Read(agent.trace))
    modifies agent
    ensures agent.Running() && agent.base == old(agent.base) && n == Handled(calls)
    ensures InFlight(calls, n, settled, running) && OnlyOpen(calls, running, Read(old(agent.trace)), Read(agent.trace))
    ensures Read(agent.trace).clash <==> Read(old(agent.trace)).clash || SharesId(calls, n)
  {
    hide Read, FoldAll, OutcomeOf, OnlyOpen, Prepare, InFlight, AllRunning, IdInUse, Quiet;
    n, settled, running := 0, map[], [];
    ghost var r := Read(agent.trace);
    NoneOpen(calls, r);
    while n < |calls|
      invariant n <= |calls| && agent.Running() && agent.base == old(agent.base)
                && forall k :: 0 <= k < |running| ==> running[k] < n
      invariant InFlight(calls, n, settled, running) && OnlyOpen(calls, running, r, Read(agent.trace))
      invariant AllRunning(calls, n, running) && (Read(agent.trace).clash <==> r.clash || SharesId(calls, n))
      invariant forall j :: 0 <= j < n ==> !calls[j].abortedAfter
    {
      var prepared := StartOne(agent, calls, n, running, r);
      RunningOneMore(calls, n, running);
      BegunOne(calls, n, settled, running);
      if prepared.Some? {
        settled := settled[n := prepared.value];
      } else {
        running := running + [n];
      }
      n := n + 1;
      if calls[n - 1].abortedAfter {
        break;
      }
    }
    HandledIs(calls, n);
  }

  lemma RunningOneMore(calls: seq<CallRun>, n: nat, running: seq<nat>)
    requires n < |calls| && AllRunning(calls, n, running)
    ensures AllRunning(calls, n + 1, if Prepare(calls[n]).None? then running + [n] else running)
    ensures SharesId(calls, n + 1) <==> SharesId(calls, n) || IdInUse(calls, n)
  {
    hide Prepare, IdInUse;
    forall i: nat ensures i in running + [n] <==> i in running || i == n {}
  }

  lemma BegunOne(calls: seq<CallRun>, n: nat, settled: map<nat, Outcome>, running: seq<nat>)
    requires InFlight(calls, n, settled, running) && n < |calls|
    ensures Prepare(calls[n]).Some? ==> InFlight(calls, n + 1, settled[n := Prepare(calls[n]).value], running)
    ensures Prepare(calls[n]).None? ==> InFlight(calls, n + 1, settled, running + [n])
  {
    hide Prepare;
    Refused(calls[n]);
    assert n in running + [n];
  }

  lemma Refused(c: CallRun)
    ensures Prepare(c).Some? ==> OutcomeOf(c) == Prepare(c).value
  {
  }

  lemma NoneOpen(calls: seq<CallRun>, r: Reading)
    requires Quiet(r)
    ensures OnlyOpen(calls, [], r, r) && InFlight(calls, 0, map[], []) && AllRunning(calls, 0, [])
  {
    assert Ids(calls, []) == [];
  }

  function Without(running: seq<nat>, k: nat): seq<nat>
    requires k < |running|
  {
    running[..k] + running[k + 1..]
  }

  lemma MovedLast(calls: seq<CallRun>, running: seq<nat>, k: nat, r: Reading, r': Reading)
    requires k < |running| && forall j :: 0 <= j < |running| ==> running[j] < |calls|
    requires OnlyOpen(calls, running, r, r')
    ensures OnlyOpen(calls, Without(running, k) + [running[k]], r, r') && calls[running[k]].call.id in r'.open
  {
    var last := Without(running, k) + [running[k]];
    var (a, b) := (running[..k], running[k + 1..]);
    assert Ids(calls, running) == Ids(calls, a) + [calls[running[k]].call.id] + Ids(calls, b);
    assert Ids(calls, last) == Ids(calls, a) + Ids(calls, b) + [calls[running[k]].call.id];
  }

  lemma SettledOne(calls: seq<CallRun>, n: nat, settled: map<nat, Outcome>, running: seq<nat>, k: nat)
    requires InFlight(calls, n, settled, running) && k < |running|
    ensures InFlight(calls, n, settled[running[k] := OutcomeOf(calls[running[k]])], Without(running, k))
  {
    hide OutcomeOf, Prepare;
    var rest := Without(running, k);
    forall i | 0 <= i < n && i !in settled && i != running[k] ensures i in rest {
      var j :| 0 <= j < |running| && running[j] == i;
      assert rest[if j < k then j else j - 1] == i;
    }
  }

  /** The calls being executed report progress and end in any order whatever. */
  method FinishAll(agent: Agent, calls: seq<CallRun>, n: nat, begun: map<nat, Outcome>, started: seq<nat>,
                   ghost r: Reading)
    returns (settled: map<nat, Outcome>)
    requires agent.Running() && Quiet(r)
    requires InFlight(calls, n, begun, started) && OnlyOpen(calls, started, r, Read(agent.trace))
    modifies agent
    ensures agent.Running() && agent.base == old(agent.base)
    ensures InFlight(calls, n, settled, []) && OnlyOpen(calls, [], r, Read(agent.trace))
    ensures Read(agent.trace).clash == Read(old(agent.trace)).clash
  {
    hide Read, FoldAll, OnlyOpen, InFlight, OutcomeOf;
    settled := begun;
    var running: seq<nat> := started;
    RunningInBounds(calls, n, settled, running);
    var progress: int := *;
    while running != []
      invariant agent.Running() && agent.base == old(agent.base)
      invariant forall j :: 0 <= j < |running| ==> running[j] < |calls|
      invariant Read(agent.trace).clash == Read(old(agent.trace)).clash
      invariant InFlight(calls, n, settled, running) && OnlyOpen(calls, running, r, Read(agent.trace))
      decreases |running|, progress
    {
      var k: nat :| k < |running|;
      var c := calls[running[k]];
      WasPrepared(calls, n, settled, running, k);
      MovedLast(calls, running, k, r, Read(agent.trace));
      if progress > 0 {
        StillInTurn(calls, running, r, Read(agent.trace));
        agent.ProcessEvents(ToolUpdate(c.call.id));
        progress := progress - 1;
      } else {
        progress := *;
        var outcome := Finalize(c, Execute(c));
        EndStep(calls, Without(running, k), running[k], r, Read(agent.trace), outcome.isError);
        agent.ProcessEvents(ToolEnd(c.call.id, outcome.isError));
        SettledOne(calls, n, settled, running, k);
        settled := settled[running[k] := outcome];
        running := Without(running, k);
        RunningInBounds(calls, n, settled, running);
      }
    }
  }

  lemma RunningInBounds(calls: seq<CallRun>, n: nat, settled: map<nat, Outcome>, running: seq<nat>)
    requires InFlight(calls, n, settled, running)
    ensures forall j :: 0 <= j < |running| ==> running[j] < |calls|
  {
  }

  lemma WasPrepared(calls: seq<CallRun>, n: nat, settled: map<nat, Outcome>, running: seq<nat>, k: nat)
    requires InFlight(calls, n, settled, running) && k < |running|
    ensures OutcomeOf(calls[running[k]]) == Finalize(calls[running[k]], Execute(calls[running[k]]))
  {
  }

  lemma StillInTurn(calls: seq<CallRun>, running: seq<nat>, r: Reading, r': Reading)
    requires Quiet(r) && forall j :: 0 <= j < |running| ==> running[j] < |calls|
    requires OnlyOpen(calls, running, r, r')
    ensures r'.scope.InTurn? && r'.message.None?
  {
  }

  /** The result messages, in source order. */
  method EmitResults(agent: Agent, calls: seq<CallRun>, outcomes: seq<Outcome>) returns (messages: seq<Message>)
    requires agent.Running() && Quiet(Read(agent.trace)) && outcomes == Outcomes(calls)
    modifies agent
    ensures agent.Running() && agent.base == old(agent.base) && messages == ResultMessages(calls)
    ensures Quiet(Read(agent.trace)) && Adds(Read(old(agent.trace)), messages, Read(agent.trace))
    ensures Read(agent.trace).clash == Read(old(agent.trace)).clash
  {
    hide Read, FoldAll, Adds, OutcomeOf;
    ghost var r := Read(agent.trace);
    AddsNothing(r);
    messages := [];
    for i := 0 to |calls|
      invariant agent.Running() && agent.base == old(agent.base)
      invariant messages == ResultMessages(calls[..i])
      invariant Quiet(Read(agent.trace)) && Adds(r, messages, Read(agent.trace)) && Read(agent.trace).clash == r.clash
    {
      var message := ToolResultMessage(calls[i].call.id, outcomes[i].result.content, outcomes[i].isError);
      ghost var before := Read(agent.trace);
      EmitMessage(agent, message);
      AddsMore(r, messages, before, [message], Read(agent.trace));
      assert calls[..i + 1][..i] == calls[..i];
      messages := messages + [message];
    }
    assert calls[..|calls|] == calls;
  }

  method ExecuteToolCallsParallel(agent: Agent, calls: seq<CallRun>) returns (messages: seq<Message>, terminate: bool)
    requires agent.Running() && Quiet(Read(agent.trace))
    modifies agent
    ensures agent.Running() && agent.base == old(agent.base)
    ensures messages == ResultMessages(calls[..Handled(calls)])
            && terminate == ShouldTerminateToolBatch(Outcomes(calls[..Handled(calls)]))
    ensures Quiet(Read(agent.trace)) && Adds(Read(old(agent.trace)), messages, Read(agent.trace))
    ensures Read(agent.trace).clash <==> Read(old(agent.trace)).clash || SharesId(calls, Handled(calls))
  {
    hide Read, FoldAll, Adds, OutcomeOf, SharesId;
    ghost var r := Read(agent.trace);
    var n, begun, running := StartAll(agent, calls);
    var settled := FinishAll(agent, calls, n, begun, running, r);
    ghost var r' := Read(agent.trace);
    NoneLeft(calls, n, settled, r, r');
    hide InFlight, OnlyOpen;
    var ordered: seq<Outcome> := seq(n, i requires 0 <= i < n => settled[i]);
    assert ordered == Outcomes(calls[..n]);
    messages := EmitResults(agent, calls[..n], ordered);
    AddsMore(r, [], r', messages, Read(agent.trace));
    assert [] + messages == messages;
    terminate := ShouldTerminateToolBatch(ordered);
  }

  lemma NoneLeft(calls: seq<CallRun>, n: nat, settled: map<nat, Outcome>, r: Reading, r': Reading)
    requires Quiet(r) && InFlight(calls, n, settled, []) && OnlyOpen(calls, [], r, r')
    ensures forall i :: 0 <= i < n ==> i in settled && settled[i] == OutcomeOf(calls[i])
    ensures Quiet(r') && Adds(r, [], r')
  {
    assert Ids(calls, []) == [];
    AddsNothing(r);
  }
}
