/** What one tool call of an assistant message comes to, and what a batch of them must report. */
module ToolBatches {
  import opened Common
  import opened AgentTrace

  /** The beforeToolCall hook, the execution of the tool, and the afterToolCall hook. */
  datatype Before = NoBefore | Allows | Blocks(reason: string, terminates: bool) | BeforeThrows(error: string)
  datatype Execution = Returns(result: ToolResult) | Throws(error: string)
  datatype After =
    | NoAfter
    | Overrides(content: Option<string>, terminate: Option<bool>, isError: Option<bool>)
    | AfterThrows(error: string)

  /** How the surroundings answer one call; aborted: what the signal says before the tool would be executed. */
  datatype CallRun = CallRun(
    call: ToolCall, sequentialTool: bool, toolFound: bool, argumentError: Option<string>, before: Before, aborted: bool,
    execution: Execution, after: After, abortedAfter: bool)

  datatype Outcome = Outcome(result: ToolResult, isError: bool)

  function Failure(message: string): Outcome {
    Outcome(ToolResult(message, false), true)
  }

  /** The checks before a tool is executed; None means that it is executed. */
  function Prepare(c: CallRun): Option<Outcome> {
    if !c.toolFound then Some(Failure("Tool " + c.call.name + " not found"))
    else if c.argumentError.Some? then Some(Failure(c.argumentError.value))
    else if c.before.BeforeThrows? then Some(Failure(c.before.error))
    else if c.aborted then Some(Failure("Operation aborted"))
    else if c.before.Blocks? then
      var reason := if c.before.reason == "" then "Tool execution was blocked" else c.before.reason;
      Some(Outcome(ToolResult(reason, c.before.terminates), true))
    else None
  }

  function Execute(c: CallRun): Outcome {
    match c.execution
    case Returns(result) => Outcome(result, false)
    case Throws(error) => Failure(error)
  }

  function OrElse<T>(o: Option<T>, otherwise: T): T {
    if o.Some? then o.value else otherwise
  }

  function Finalize(c: CallRun, o: Outcome): Outcome {
    match c.after
    case NoAfter => o
    case Overrides(content, terminate, isError) =>
      Outcome(ToolResult(OrElse(content, o.result.content), OrElse(terminate, o.result.terminate)),
              OrElse(isError, o.isError))
    case AfterThrows(error) => Failure(error)
  }

  function OutcomeOf(c: CallRun): Outcome {
    if Prepare(c).Some? then Prepare(c).value else Finalize(c, Execute(c))
  }

  function ResultMessage(c: CallRun): Message {
    ToolResultMessage(c.call.id, OutcomeOf(c).result.content, OutcomeOf(c).isError)
  }

  /** The results of a batch, in the order of the calls. */
  function ResultMessages(calls: seq<CallRun>): (r: seq<Message>)
    ensures |r| == |calls| && forall i :: 0 <= i < |calls| ==> r[i] == ResultMessage(calls[i])
  {
    if calls == [] then [] else ResultMessages(calls[..|calls| - 1]) + [ResultMessage(calls[|calls| - 1])]
  }

  function TruncatedResult(call: ToolCall): Message {
    ToolResultMessage(
      call.id,
      "Tool call " + call.name + " was not executed: its arguments may be truncated. Issue it again in full.",
      true)
  }

  /** The results of calls that are not executed because the message was cut off. */
  function TruncatedResults(toolCalls: seq<ToolCall>): (r: seq<Message>)
    ensures |r| == |toolCalls| && forall i :: 0 <= i < |toolCalls| ==> r[i] == TruncatedResult(toolCalls[i])
  {
    seq(|toolCalls|, i requires 0 <= i < |toolCalls| => TruncatedResult(toolCalls[i]))
  }

  /** Each of them answers its own call, and says that it failed. */
  lemma TruncatedCallsFail(toolCalls: seq<ToolCall>, i: nat)
    requires i < |toolCalls|
    ensures var m := TruncatedResults(toolCalls)[i]; m.ToolResultMessage? && m.callId == toolCalls[i].id && m.isError
  {
  }

  function Outcomes(calls: seq<CallRun>): (r: seq<Outcome>)
    ensures |r| == |calls| && forall i :: 0 <= i < |calls| ==> r[i] == OutcomeOf(calls[i])
  {
    seq(|calls|, i requires 0 <= i < |calls| => OutcomeOf(calls[i]))
  }

  /** How many calls are handled: all up to the first after which the signal is found aborted. */
  function Handled(calls: seq<CallRun>): (n: nat)
    ensures n <= |calls| && (calls != [] ==> n > 0)
    ensures n < |calls| ==> calls[n - 1].abortedAfter
    ensures forall i :: 0 <= i < n - 1 ==> !calls[i].abortedAfter
  {
    if calls == [] then 0 else if calls[0].abortedAfter then 1 else 1 + Handled(calls[1..])
  }

  lemma {:induction false} HandledIs(calls: seq<CallRun>, n: nat)
    requires n <= |calls| && (calls != [] ==> n > 0) && (n < |calls| ==> calls[n - 1].abortedAfter)
    requires forall i :: 0 <= i < n - 1 ==> !calls[i].abortedAfter
    ensures Handled(calls) == n
  {
    if calls != [] && !calls[0].abortedAfter {
      HandledIs(calls[1..], n - 1);
    }
  }

  /** A batch ends the run's tool calls only if it is not empty and every handled call asks for it. */
  predicate ShouldTerminateToolBatch(outcomes: seq<Outcome>) {
    outcomes != [] && forall o <- outcomes :: o.result.terminate
  }

  predicate DistinctIds(calls: seq<CallRun>) {
    forall i, j :: 0 <= i < j < |calls| ==> calls[i].call.id != calls[j].call.id
  }

  /** The call has the id of an earlier call that passed the checks. */
  predicate IdInUse(calls: seq<CallRun>, j: nat)
    requires j < |calls|
  {
    exists i :: 0 <= i < j && Prepare(calls[i]).None? && calls[i].call.id == calls[j].call.id
  }

  /** Among the first n calls there is one with the id of an earlier one that passed the checks. */
  predicate SharesId(calls: seq<CallRun>, n: nat)
    requires n <= |calls|
  {
    exists j :: 0 <= j < n && IdInUse(calls, j)
  }

  lemma DistinctShareNone(calls: seq<CallRun>, n: nat)
    requires DistinctIds(calls) && n <= |calls|
    ensures !SharesId(calls, n)
  {
  }

  /** A call is executed only if its tool exists, its arguments are valid and nothing aborts or blocks it. */
  lemma ExecutedOnlyWhenCleared(c: CallRun)
    ensures Prepare(c).None? <==>
            c.toolFound && c.argumentError.None? && !c.aborted && (c.before.NoBefore? || c.before.Allows?)
    ensures Prepare(c).Some? ==> OutcomeOf(c).isError
    ensures Prepare(c).Some? && OutcomeOf(c).result.terminate ==> c.before.Blocks? && c.before.terminates
  {
  }

  /** Nothing keeps the tool from being executed. */
  predicate Cleared(c: CallRun) {
    c.toolFound && c.argumentError.None? && !c.aborted && (c.before.NoBefore? || c.before.Allows?)
  }

  /** What an override says, or else what was there without it. */
  predicate Says(override: Option<bool>, otherwise: bool) {
    override == Some(true) || (override == None && otherwise)
  }

  /** The hook that blocks the call, the tool, or the hook after it asks to end the run; a failure alone does not. */
  predicate AsksToTerminate(c: CallRun) {
    var returned := c.execution.Returns? && c.execution.result.terminate;
    if Cleared(c) then
      (c.after.NoAfter? && returned) || (c.after.Overrides? && Says(c.after.terminate, returned))
    else
      c.toolFound && c.argumentError.None? && !c.aborted && c.before.Blocks? && c.before.terminates
  }

  /** What a call comes to, in terms of what the tool and the hooks did. */
  lemma OutcomeExactly(c: CallRun)
    ensures OutcomeOf(c).result.terminate <==> AsksToTerminate(c)
    ensures OutcomeOf(c).isError <==>
              || !Cleared(c) || c.after.AfterThrows?
              || (c.after.NoAfter? && c.execution.Throws?)
              || (c.after.Overrides? && Says(c.after.isError, c.execution.Throws?))
    ensures Cleared(c) && c.after.AfterThrows? ==> OutcomeOf(c).result.content == c.after.error
    ensures Cleared(c) && c.after.Overrides? && c.after.content.Some? ==>
              OutcomeOf(c).result.content == c.after.content.value
    ensures Cleared(c) && (c.after.NoAfter? || (c.after.Overrides? && c.after.content.None?)) ==>
              OutcomeOf(c).result.content
              == if c.execution.Returns? then c.execution.result.content else c.execution.error
  {
  }

  /**
   * The results of a batch are in the order of the calls and answer a prefix of them, which is all of them unless
   * the signal was aborted. Nothing here depends on whether the batch is executed in sequence or in parallel.
   */
  lemma ResultsAnswerPrefix(calls: seq<CallRun>)
    ensures var (n, results) := (Handled(calls), ResultMessages(calls[..Handled(calls)]));
            && |results| == n <= |calls|
            && (forall i :: 0 <= i < n ==> results[i].ToolResultMessage? && results[i].callId == calls[i].call.id)
            && (n < |calls| ==> exists c :: c in calls && c.abortedAfter)
  {
    var n := Handled(calls);
    if n < |calls| {
      assert calls[n - 1] in calls && calls[n - 1].abortedAfter;
    }
  }

  lemma {:induction false} WithoutAbortAllHandled(calls: seq<CallRun>)
    requires forall c <- calls :: !c.abortedAfter
    ensures calls[..Handled(calls)] == calls
  {
    if calls != [] {
      assert forall c <- calls[1..] :: c in calls;
      WithoutAbortAllHandled(calls[1..]);
      assert calls[0] in calls;
      assert |calls[1..][..Handled(calls[1..])]| == |calls[1..]|;
    }
  }
}
