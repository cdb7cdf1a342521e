/** What holds in every reachable state of the session protocol. */
module SessionTheorems {
  import opened SessionProtocol
  import opened SessionSafety

  lemma CreationStepKeepsInv(s: State, e: Event)
    requires Inv(s) && MapsInRange(s) && ByCreation(e) && EnabledCreation(s, e)
    ensures Inv(ApplyCreation(s, e))
  {
    match e {
      case ResumeOpening(c, r) =>
        assert TaskOk(s, AwaitOpening(c, r));
        DropTask(s, AwaitOpening(c, r));
        if s.entries[r].creation.Resolved? {
          AddTask(Without(s, AwaitOpening(c, r)), Attach(c, r), -1);
        }
      case ResumeCreator(r) => ResumeCreatorKeeps(s, r);
      case SnapshotGood(r) => SnapshotGoodKeeps(s, r);
      case RuntimeAcquired(r) => ChangedCreation(s, e, r);
      case AcquireFailed(r) => ChangedCreation(s, e, r);
      case SnapshotBad(r) => ChangedCreation(s, e, r);
      case DiscardSettled(r) => ChangedCreation(s, e, r);
    }
  }

  lemma ChangedCreation(s: State, e: Event, r: Ref)
    requires Inv(s) && e in {RuntimeAcquired(r), AcquireFailed(r), SnapshotBad(r), DiscardSettled(r)}
    requires EnabledCreation(s, e)
    ensures Inv(ApplyCreation(s, e))
  {
    assert RefOk(s, r);
    ChangeEntry(s, r, ApplyCreation(s, e).entries[r]);
    assert NoOrphan(ApplyCreation(s, e), r);
  }

  lemma DropThenCheck(s: State, t: Task)
    requires Inv(s) && t in s.tasks && !t.Operation? && !t.Creator? && t.ref < |s.entries|
    ensures Inv(DisposeCheck(Without(s, t), t.ref))
  {
    DropTask(s, t);
    Check(Without(s, t), t.ref);
  }

  lemma OperationStepKeepsInv(s: State, e: Event)
    requires Inv(s) && MapsInRange(s) && EnabledOperation(s, e)
    ensures Inv(ApplyOperation(s, e))
  {
    hide InvBut, MaybeDispose;
    match e {
      case StartOperation(c, id) => StartKeeps(s, c, id);
      case FinishOperation(r) => FinishThenCheck(s, r);
      case ResumeTerminate(r) => DropThenCheck(s, Terminating(r));
      case ResumeDetach(r, failed) =>
        if failed {
          DropTask(s, DetachBroadcast(r));
        } else {
          DropThenCheck(s, DetachBroadcast(r));
        }
    }
  }

  lemma StartKeeps(s: State, c: ConnId, id: SessionId)
    requires Inv(s) && MapsInRange(s) && EnabledOperation(s, StartOperation(c, id))
    ensures Inv(ApplyOperation(s, StartOperation(c, id)))
  {
    assert IdOk(s, id);
    var r := RequireAttached(s, c, id);
    if r.Some? {
      OperationKeeps(s, r.value);
    }
  }

  lemma FinishThenCheck(s: State, r: Ref)
    requires Inv(s) && MapsInRange(s) && EnabledOperation(s, FinishOperation(r))
    ensures Inv(ApplyOperation(s, FinishOperation(r)))
  {
    hide InvBut, MaybeDispose;
    FinishKeeps(s, r);
    var e := s.entries[r];
    Check(SetEntry(Without(s, Operation(r)), r, e.(operationCount := e.operationCount - 1)), r);
  }

  lemma ErrorKeeps(s: State, r: Ref)
    requires Inv(s) && r < |s.entries| && s.entries[r].subscribed && !s.entries[r].terminal
    ensures Inv(ApplyRuntime(s, RuntimeError(r)))
  {
    assert RefOk(s, r);
    var e := s.entries[r].(terminal := true, subscribed := false, terminated := s.entries[r].connections);
    ChangeEntry(s, r, e);
    AddTask(SetEntry(s, r, e), Terminating(r), r);
    assert NoOrphan(With(SetEntry(s, r, e), Terminating(r)), r);
  }

  lemma PhaseKeeps(s: State, r: Ref, idle: bool)
    requires Inv(s) && r < |s.entries| && s.entries[r].acquired
    ensures Inv(ApplyRuntime(s, PhaseChanges(r, idle)))
  {
    assert RefOk(s, r) && NoOrphan(s, r);
    var e := s.entries[r].(idle := idle);
    ChangeEntry(s, r, e);
    if idle {
      AddTask(SetEntry(s, r, e), IdleNotice(r), r);
      assert NoOrphan(With(SetEntry(s, r, e), IdleNotice(r)), r);
    } else {
      assert NoOrphan(SetEntry(s, r, e), r);
    }
  }

  lemma RuntimeStepKeepsInv(s: State, e: Event)
    requires Inv(s) && ByRuntime(e) && EnabledRuntime(s, e)
    ensures Inv(ApplyRuntime(s, e))
  {
    match e {
      case RuntimeError(r) =>
        if !s.entries[r].terminal {
          ErrorKeeps(s, r);
        }
      case RuntimeEvent(r) => Check(s, r);
      case PhaseChanges(r, idle) => PhaseKeeps(s, r, idle);
      case DeliverIdleNotice(r) =>
        if s.entries[r].subscribed {
          DropThenCheck(s, IdleNotice(r));
        } else {
          assert RefOk(s, r) && NoOrphan(s, r);
          DropTask(s, IdleNotice(r));
          assert NoOrphan(Without(s, IdleNotice(r)), r);
        }
    }
  }

  lemma ConnectionStepKeepsInv(s: State, e: Event)
    requires Inv(s) && MapsInRange(s) && ByConnection(e) && EnabledConnection(s, e)
    ensures Inv(ApplyConnection(s, e))
  {
    match e {
      case Connect(c) => ChangeConnection(s, c, Conn(false, false, false, {}));
      case ConnectionChanges(c, ready, closed) =>
        ChangeConnection(s, c, s.conns[c].(ready := ready, transportClosed := closed));
      case AttachCommand(c, id) => AcquireKeeps(s, c, id);
      case ResumeDisposal(c, id, r) =>
        assert TaskOk(s, AwaitDisposal(c, id, r));
        DropTask(s, AwaitDisposal(c, id, r));
        if !s.entries[r].disposeFailed {
          AcquireKeeps(Without(s, AwaitDisposal(c, id, r)), c, id);
        }
      case ResumeAttach(c, r) =>
        assert TaskOk(s, Attach(c, r));
        if CanAttach(s.conns[c]) {
          DropTask(s, Attach(c, r));
          AttachKeeps(Without(s, Attach(c, r)), c, r);
        } else {
          DropThenCheck(s, Attach(c, r));
        }
      case DetachCommand(c, id) => DetachKeeps(s, c, id);
      case Disconnect(c) => DisconnectKeeps(s, c);
    }
  }

  lemma ShutdownStepKeepsInv(s: State, e: Event)
    requires Inv(s) && MapsInRange(s) && ByShutdown(e) && EnabledShutdown(s, e)
    ensures Inv(ApplyShutdown(s, e))
  {
    match e {
      case DisposeSettled(r, failed) => DisposeSettledKeeps(s, r, failed);
      case BeginShutdown => ShutdownKeeps(s);
      case AwaitOpenings => AwaitOpeningsKeeps(s);
      case ClearSessions => ClearKeeps(s);
    }
  }

  /** Every event keeps the invariant. */
  lemma StepKeepsInv(s: State, e: Event)
    requires Inv(s) && MapsInRange(s) && Enabled(s, e)
    ensures Inv(Apply(s, e))
  {
    hide InvBut, ApplyConnection, ApplyCreation, ApplyRuntime, ApplyShutdown, ApplyOperation;
    if ByConnection(e) {
      ConnectionStepKeepsInv(s, e);
    } else if ByCreation(e) {
      CreationStepKeepsInv(s, e);
    } else if ByRuntime(e) {
      RuntimeStepKeepsInv(s, e);
    } else if ByShutdown(e) {
      ShutdownStepKeepsInv(s, e);
    } else {
      OperationStepKeepsInv(s, e);
    }
  }

  lemma ShutdownKeeps(s: State)
    requires Inv(s)
    ensures Inv(s.(closing := true))
  {
    var s' := s.(closing := true);
    forall r | 0 <= r < |s'.entries| ensures RefOk(s', r) { assert RefOk(s, r); }
    forall id ensures IdOk(s', id) { assert IdOk(s, id); }
    forall u ensures TaskOk(s', u) { assert TaskOk(s, u); }
    forall r, c | 0 <= r < |s'.entries| ensures PairOk(s', r, c) { assert PairOk(s, r, c); }
  }

  /** States reached from the start by enabled events, in any order. */
  ghost predicate Execution(states: seq<State>, events: seq<Event>) {
    && |states| == |events| + 1 && states[0] == INITIAL
    && forall i :: 0 <= i < |events| ==>
         MapsInRange(states[i]) && Enabled(states[i], events[i]) && states[i + 1] == Apply(states[i], events[i])
  }

  ghost predicate Reachable(s: State) {
    exists states, events :: Execution(states, events) && s == states[|events|]
  }

  lemma {:induction false} ExecutionKeepsInv(states: seq<State>, events: seq<Event>, n: nat)
    requires Execution(states, events) && n <= |events|
    ensures Inv(states[n])
  {
    if n > 0 {
      ExecutionKeepsInv(states, events, n - 1);
      StepKeepsInv(states[n - 1], events[n - 1]);
    }
  }

  lemma ReachableInv(s: State)
    requires Reachable(s)
    ensures Inv(s) && MapsInRange(s)
  {
    var states, events :| Execution(states, events) && s == states[|events|];
    ExecutionKeepsInv(states, events, |events|);
    InRange(s);
  }

  /** Until close() empties the map, a session id has at most one runtime whose disposal has not settled. */
  lemma AtMostOneRuntime(s: State, r: Ref, q: Ref)
    requires Reachable(s) && !s.cleared && r < |s.entries| && q < |s.entries|
    requires Unsettled(s.entries[r]) && Unsettled(s.entries[q]) && s.entries[r].id == s.entries[q].id
    ensures r == q
  {
    ReachableInv(s);
    assert RefOk(s, r) && RefOk(s, q);
  }

  /** Every runtime is disposed at most once, in shutdown too, and only if it was acquired. */
  lemma DisposedAtMostOnce(s: State, r: Ref)
    requires Reachable(s) && r < |s.entries|
    ensures s.entries[r].disposeCalls <= 1
    ensures s.entries[r].disposeCalls == 1 ==> s.entries[r].acquired
  {
    ReachableInv(s);
    assert RefOk(s, r);
  }

  /** Once close() has emptied the map, every runtime ever acquired has been disposed exactly once. */
  lemma ShutdownDisposesAll(s: State, r: Ref)
    requires Reachable(s) && s.cleared && r < |s.entries| && s.entries[r].acquired
    ensures s.entries[r].disposeCalls == 1
  {
    ReachableInv(s);
    assert RefOk(s, r);
  }

  /** Sessions are only ever added, keep their id, and never leave disposal. */
  ghost predicate Grows(s: State, s': State, r: Ref) {
    && |s.entries| <= |s'.entries| <= |s.entries| + 1
    && (r < |s.entries| ==>
          s'.entries[r].id == s.entries[r].id && (s.entries[r].disposing ==> s'.entries[r].disposing))
    && (|s'.entries| > |s.entries| ==>
          s'.entries[|s.entries|].id !in s.liveSessions.Keys + s.openingSessions.Keys)
  }

  lemma AttachStepGrows(s: State, e: Event, r: Ref)
    requires MapsInRange(s) && (e.AttachCommand? || e.ResumeDisposal?) && EnabledConnection(s, e)
    ensures Grows(s, ApplyConnection(s, e), r)
  {
  }

  lemma ConnectionStepGrows(s: State, e: Event, r: Ref)
    requires e.Connect? || e.ConnectionChanges? || e.ResumeAttach? || e.DetachCommand? || e.Disconnect?
    requires MapsInRange(s) && EnabledConnection(s, e)
    ensures Grows(s, ApplyConnection(s, e), r)
  {
    match e
    case DetachCommand(c, id) =>
      hide DetachFrom;
      DetachGrows(s, c, id, r);
    case Disconnect(c) =>
      hide DisconnectFrom;
      DisconnectGrows(s, c, r);
    case ResumeAttach(c, q) =>
      hide ApplyConnection;
      AttachGrows(s, c, q, r);
    case _ =>
  }

  lemma AttachGrows(s: State, c: ConnId, q: Ref, r: Ref)
    requires MapsInRange(s) && EnabledConnection(s, ResumeAttach(c, q))
    ensures Grows(s, ApplyConnection(s, ResumeAttach(c, q)), r)
  {
  }

  lemma DisconnectGrows(s: State, c: ConnId, r: Ref)
    requires MapsInRange(s) && c in s.conns
    ensures Grows(s, DisconnectFrom(s, c), r)
  {
  }

  lemma DetachGrows(s: State, c: ConnId, id: SessionId, r: Ref)
    requires MapsInRange(s) && c in s.conns
    ensures Grows(s, DetachFrom(s, c, id), r)
  {
  }

  lemma CreationStepGrows(s: State, e: Event, r: Ref)
    requires ByCreation(e) && EnabledCreation(s, e)
    ensures Grows(s, ApplyCreation(s, e), r)
  {
  }

  lemma ShutdownStepGrows(s: State, e: Event, r: Ref)
    requires ByShutdown(e) && EnabledShutdown(s, e)
    ensures Grows(s, ApplyShutdown(s, e), r)
  {
  }

  lemma RuntimeStepGrows(s: State, e: Event, r: Ref)
    requires ByRuntime(e) && EnabledRuntime(s, e)
    ensures Grows(s, ApplyRuntime(s, e), r)
  {
  }

  lemma OperationStepGrows(s: State, e: Event, r: Ref)
    requires MapsInRange(s) && (e.StartOperation? || e.FinishOperation?) && EnabledOperation(s, e)
    ensures Grows(s, ApplyOperation(s, e), r)
  {
  }

  lemma ContinuationGrows(s: State, e: Event, r: Ref)
    requires MapsInRange(s) && (e.ResumeDetach? || e.ResumeTerminate?) && EnabledOperation(s, e)
    ensures Grows(s, ApplyOperation(s, e), r)
  {
  }

  lemma StepGrows(s: State, e: Event, r: Ref)
    requires MapsInRange(s) && Enabled(s, e)
    ensures Grows(s, Apply(s, e), r)
  {
    hide ApplyConnection, ApplyCreation, ApplyRuntime, ApplyShutdown, ApplyOperation;
    if e.AttachCommand? || e.ResumeDisposal? {
      AttachStepGrows(s, e, r);
    } else if ByConnection(e) {
      ConnectionStepGrows(s, e, r);
    } else if ByCreation(e) {
      CreationStepGrows(s, e, r);
    } else if ByShutdown(e) {
      ShutdownStepGrows(s, e, r);
    } else if ByRuntime(e) {
      RuntimeStepGrows(s, e, r);
    } else if e.ResumeDetach? || e.ResumeTerminate? {
      ContinuationGrows(s, e, r);
    } else {
      OperationStepGrows(s, e, r);
    }
  }

  /** The service is asked for a runtime only when neither map covers the id. */
  lemma OpenOnlyWhenUncovered(states: seq<State>, events: seq<Event>, i: nat)
    requires Execution(states, events) && i < |events|
    requires |states[i + 1].entries| != |states[i].entries|
    ensures |states[i + 1].entries| == |states[i].entries| + 1
    ensures var id := states[i + 1].entries[|states[i].entries|].id;
            id !in states[i].liveSessions && id !in states[i].openingSessions
  {
    hide Apply, Enabled;
    StepGrows(states[i], events[i], 0);
  }

  /** From the moment its disposal begins a session has no operation, and none is ever started on it. */
  lemma {:induction false} NoOperationAfterDisposal(states: seq<State>, events: seq<Event>, i: nat, j: nat, r: Ref)
    requires Execution(states, events) && i <= j <= |events|
    requires r < |states[i].entries| && states[i].entries[r].disposing
    ensures r < |states[j].entries| && states[j].entries[r].disposing
    ensures states[j].entries[r].operationCount == 0 && Operation(r) !in states[j].tasks
  {
    hide Apply, Enabled;
    if i < j {
      NoOperationAfterDisposal(states, events, i, j - 1, r);
      StepGrows(states[j - 1], events[j - 1], r);
    }
    ExecutionKeepsInv(states, events, j);
    assert RefOk(states[j], r);
  }

  /** No orphans: an unprotected live session that no pending step will look at is already being disposed. */
  lemma NoOrphanSessions(s: State, id: SessionId)
    requires Reachable(s) && !s.closing && id in s.liveSessions && s.liveSessions[id] < |s.entries|
    requires !Watched(s, s.liveSessions[id])
    ensures var e := s.entries[s.liveSessions[id]];
            && e.operationCount == s.tasks[Operation(s.liveSessions[id])]
            && (e.connections == {} && e.operationCount == 0 && (e.terminal || e.idle) ==> e.disposing)
  {
    ReachableInv(s);
    assert IdOk(s, id);
    var r := s.liveSessions[id];
    assert RefOk(s, r) && NoOrphan(s, r);
  }

  /** A connection in the set of a session in the map is connected and lists that session. */
  lemma ConnectionsAgree(s: State, id: SessionId, c: ConnId)
    requires Reachable(s) && id in s.liveSessions
    requires s.liveSessions[id] < |s.entries| && c in s.entries[s.liveSessions[id]].connections
    ensures c in s.conns && !s.conns[c].disconnected && id in s.conns[c].sessionIds
  {
    ReachableInv(s);
    assert IdOk(s, id) && PairOk(s, s.liveSessions[id], c);
  }
}
