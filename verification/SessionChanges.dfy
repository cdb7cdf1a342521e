/**
 * What may change a session, and when: each field of a live session changes by the events named here and by no
 * other. In particular disposal never begins while anything protects the session.
 */
module SessionChanges {
  import opened SessionProtocol
  import opened SessionSafety
  import opened SessionTheorems

  /** Nothing protects the session: it is live, nobody holds it, nothing runs on it, and it is idle or has failed. */
  predicate Unprotected(e: Entry) {
    e.creation.Resolved? && e.connections == {} && e.operationCount <= 0 && (e.terminal || e.idle)
  }

  /** Disposal begins only outside shutdown and on an unprotected session, and never ends again. */
  ghost predicate DisposalChange(s: State, s': State, r: Ref)
    requires r < |s.entries|
  {
    && r < |s'.entries|
    && (s.entries[r].disposing ==> s'.entries[r].disposing)
    && (s'.entries[r].disposing && !s.entries[r].disposing ==> !s.closing && Unprotected(s'.entries[r]))
  }

  /** dispose() is called where disposal begins, where an opening comes to nothing, and when the map is emptied. */
  predicate CallsDispose(s: State, s': State, e: Event, r: Ref)
    requires r < |s.entries| && r < |s'.entries|
  {
    || (s'.entries[r].disposing && !s.entries[r].disposing)
    || e == SnapshotBad(r)
    || (e == RuntimeAcquired(r) && s.closing)
    || (e.ClearSessions? && Listed(s, s.entries[r].id, r) && !s.entries[r].disposing)
  }

  ghost predicate CallChange(s: State, s': State, e: Event, r: Ref)
    requires r < |s.entries|
  {
    && r < |s'.entries|
    && s'.entries[r].disposeCalls == s.entries[r].disposeCalls + (if CallsDispose(s, s', e, r) then 1 else 0)
    && (s'.entries[r].disposeSettled <==>
          s.entries[r].disposeSettled || ((e.DiscardSettled? || e.DisposeSettled?) && e.ref == r))
    && (s'.entries[r].creation.Snapshotting? ==>
          s.entries[r].creation.Snapshotting? || (e == RuntimeAcquired(r) && !s.closing))
    && (s'.entries[r].creation.Resolved? <==> s.entries[r].creation.Resolved? || e == SnapshotGood(r))
    && (e == SnapshotGood(r) ==> s.entries[r].creation.Snapshotting?)
  }

  predicate MayAttach(s: State, c: ConnId) {
    c in s.conns && s.conns[c].ready && !s.conns[c].disconnected && !s.conns[c].transportClosed
  }

  /** The connection leaves the session: it detaches from its id, or disconnects, and lists the session. */
  predicate Goes(s: State, e: Event, c: ConnId, r: Ref)
    requires r < |s.entries|
  {
    var id := s.entries[r].id;
    && c in s.conns && id in s.conns[c].sessionIds && Listed(s, id, r)
    && (e == DetachCommand(c, id) || (e == Disconnect(c) && !s.conns[c].disconnected))
  }

  /** The command is one of a connection that lists the live session, which has not failed and is not being disposed. */
  predicate OperatesOn(s: State, e: Event, r: Ref)
    requires r < |s.entries|
  {
    && e.StartOperation? && e.id == s.entries[r].id && Listed(s, e.id, r)
    && e.conn in s.conns && e.id in s.conns[e.conn].sessionIds
    && !s.entries[r].terminal && !s.entries[r].disposing
  }

  ghost predicate HolderChange(s: State, s': State, e: Event, r: Ref)
    requires r < |s.entries|
  {
    && r < |s'.entries|
    && (forall c :: c in s'.entries[r].connections <==>
          (c in s.entries[r].connections && !Goes(s, e, c, r)) || (e == ResumeAttach(c, r) && MayAttach(s, c)))
    && s'.entries[r].operationCount
       == s.entries[r].operationCount
          + (if OperatesOn(s, e, r) then 1 else 0) - (if e == FinishOperation(r) then 1 else 0)
    && (s'.entries[r].terminal <==> s.entries[r].terminal || e == RuntimeError(r))
    && s'.entries[r].terminated
       == (if e == RuntimeError(r) && !s.entries[r].terminal then s.entries[r].connections else s.entries[r].terminated)
    && (s'.entries[r].idle <==> if e.PhaseChanges? && e.ref == r then e.idle else s.entries[r].idle)
  }

  /** All that a step may do to a session. */
  ghost predicate EntryChange(s: State, s': State, e: Event, r: Ref)
    requires r < |s.entries|
  {
    DisposalChange(s, s', r) && CallChange(s, s', e, r) && HolderChange(s, s', e, r)
  }

  /** Events that do not touch the session itself. */
  predicate Untouching(s: State, e: Event, r: Ref)
    requires r < |s.entries|
  {
    && !CallsDispose(s, s, e, r) && !OperatesOn(s, e, r) && !e.ResumeAttach? && !e.DetachCommand? && !e.Disconnect?
    && !(e.FinishOperation? && e.ref == r) && !(e.RuntimeError? && e.ref == r) && !(e.PhaseChanges? && e.ref == r)
    && e != SnapshotGood(r)
    && !((e.DiscardSettled? || e.DisposeSettled?) && e.ref == r)
  }

  /** The disposal check changes only that disposal begins. */
  predicate Checked(closing: bool, e: Entry, e': Entry) {
    || e' == e
    || (!closing && Unprotected(e) && !e.disposing
        && e' == e.(subscribed := false, disposing := true, disposeCalls := e.disposeCalls + 1))
  }

  lemma CheckOnly(e: Entry, closing: bool)
    ensures Checked(closing, e, MaybeDispose(e, closing))
  {
  }

  lemma CheckedSame(e: Entry, closing: bool)
    ensures Checked(closing, e, e)
  {
  }

  lemma CheckedChange(s: State, s': State, e: Event, r: Ref)
    requires r < |s.entries| && r < |s'.entries| && Untouching(s, e, r)
    requires Checked(s.closing, s.entries[r], s'.entries[r])
    ensures EntryChange(s, s', e, r)
  {
  }

  lemma AcquireAppends(s: State, c: ConnId, id: SessionId, r: Ref)
    requires MapsInRange(s) && r < |s.entries|
    ensures r < |Acquire(s, c, id).entries| && Acquire(s, c, id).entries[r] == s.entries[r]
  {
  }

  lemma ResumeOpeningChanges(s: State, c: ConnId, q: Ref, r: Ref)
    requires Inv(s) && MapsInRange(s) && EnabledCreation(s, ResumeOpening(c, q)) && r < |s.entries|
    ensures EntryChange(s, ApplyCreation(s, ResumeOpening(c, q)), ResumeOpening(c, q), r)
  {
    hide InvBut, MaybeDispose, EntryChange;
    CheckedChange(s, ApplyCreation(s, ResumeOpening(c, q)), ResumeOpening(c, q), r);
  }

  lemma ResumeCreatorChanges(s: State, q: Ref, r: Ref)
    requires Inv(s) && MapsInRange(s) && EnabledCreation(s, ResumeCreator(q)) && r < |s.entries|
    ensures EntryChange(s, ApplyCreation(s, ResumeCreator(q)), ResumeCreator(q), r)
  {
    hide InvBut, MaybeDispose, EntryChange;
    CheckedChange(s, ApplyCreation(s, ResumeCreator(q)), ResumeCreator(q), r);
  }

  lemma RuntimeAcquiredChanges(s: State, q: Ref, r: Ref)
    requires Inv(s) && MapsInRange(s) && EnabledCreation(s, RuntimeAcquired(q)) && r < |s.entries|
    ensures EntryChange(s, ApplyCreation(s, RuntimeAcquired(q)), RuntimeAcquired(q), r)
  {
    hide InvBut;
  }

  lemma AcquireFailedChanges(s: State, q: Ref, r: Ref)
    requires Inv(s) && MapsInRange(s) && EnabledCreation(s, AcquireFailed(q)) && r < |s.entries|
    ensures EntryChange(s, ApplyCreation(s, AcquireFailed(q)), AcquireFailed(q), r)
  {
    hide InvBut;
  }

  lemma SnapshotGoodChanges(s: State, q: Ref, r: Ref)
    requires Inv(s) && MapsInRange(s) && EnabledCreation(s, SnapshotGood(q)) && r < |s.entries|
    ensures EntryChange(s, ApplyCreation(s, SnapshotGood(q)), SnapshotGood(q), r)
  {
    hide InvBut;
  }

  lemma SnapshotBadChanges(s: State, q: Ref, r: Ref)
    requires Inv(s) && MapsInRange(s) && EnabledCreation(s, SnapshotBad(q)) && r < |s.entries|
    ensures EntryChange(s, ApplyCreation(s, SnapshotBad(q)), SnapshotBad(q), r)
  {
    hide InvBut;
  }

  lemma DiscardSettledChanges(s: State, q: Ref, r: Ref)
    requires Inv(s) && MapsInRange(s) && EnabledCreation(s, DiscardSettled(q)) && r < |s.entries|
    ensures EntryChange(s, ApplyCreation(s, DiscardSettled(q)), DiscardSettled(q), r)
  {
    hide InvBut;
  }

  /** The session fails: it remembers who holds it. */
  lemma FailedChange(s: State, s': State, q: Ref, r: Ref)
    requires r < |s.entries| == |s'.entries|
    requires var k := s.entries[r];
             s'.entries[r] == if r != q || k.terminal then k
                              else k.(terminal := true, subscribed := false, terminated := k.connections)
    ensures EntryChange(s, s', RuntimeError(q), r)
  {
  }

  lemma RuntimeErrorChanges(s: State, q: Ref, r: Ref)
    requires Inv(s) && MapsInRange(s) && EnabledRuntime(s, RuntimeError(q)) && r < |s.entries|
    ensures EntryChange(s, ApplyRuntime(s, RuntimeError(q)), RuntimeError(q), r)
  {
    hide InvBut, EntryChange, MapsInRange;
    FailedChange(s, ApplyRuntime(s, RuntimeError(q)), q, r);
  }

  lemma RuntimeEventChanges(s: State, q: Ref, r: Ref)
    requires Inv(s) && MapsInRange(s) && EnabledRuntime(s, RuntimeEvent(q)) && r < |s.entries|
    ensures EntryChange(s, ApplyRuntime(s, RuntimeEvent(q)), RuntimeEvent(q), r)
  {
    hide InvBut, MaybeDispose, EntryChange, Checked;
    CheckOnly(s.entries[q], s.closing);
    CheckedSame(s.entries[r], s.closing);
    CheckedChange(s, ApplyRuntime(s, RuntimeEvent(q)), RuntimeEvent(q), r);
  }

  lemma PhaseChangesChanges(s: State, q: Ref, idle: bool, r: Ref)
    requires Inv(s) && MapsInRange(s) && EnabledRuntime(s, PhaseChanges(q, idle)) && r < |s.entries|
    ensures EntryChange(s, ApplyRuntime(s, PhaseChanges(q, idle)), PhaseChanges(q, idle), r)
  {
    hide InvBut;
  }

  lemma DeliverIdleNoticeChanges(s: State, q: Ref, r: Ref)
    requires Inv(s) && MapsInRange(s) && EnabledRuntime(s, DeliverIdleNotice(q)) && r < |s.entries|
    ensures EntryChange(s, ApplyRuntime(s, DeliverIdleNotice(q)), DeliverIdleNotice(q), r)
  {
    hide InvBut, MaybeDispose, EntryChange, Checked;
    CheckOnly(s.entries[q], s.closing);
    CheckedSame(s.entries[r], s.closing);
    CheckedChange(s, ApplyRuntime(s, DeliverIdleNotice(q)), DeliverIdleNotice(q), r);
  }

  lemma StartOperationChanges(s: State, c: ConnId, id: SessionId, r: Ref)
    requires Inv(s) && MapsInRange(s) && EnabledOperation(s, StartOperation(c, id)) && r < |s.entries|
    ensures EntryChange(s, ApplyOperation(s, StartOperation(c, id)), StartOperation(c, id), r)
  {
    assert IdOk(s, id);
    hide InvBut;
  }

  /** The operation is counted down; then the session is checked. */
  lemma FinishedChange(s: State, s': State, q: Ref, r: Ref)
    requires r < |s.entries| == |s'.entries|
    requires var k := s.entries[r];
             Checked(s.closing, if r == q then k.(operationCount := k.operationCount - 1) else k, s'.entries[r])
    ensures EntryChange(s, s', FinishOperation(q), r)
  {
  }

  lemma FinishOperationChanges(s: State, q: Ref, r: Ref)
    requires Inv(s) && MapsInRange(s) && EnabledOperation(s, FinishOperation(q)) && r < |s.entries|
    ensures EntryChange(s, ApplyOperation(s, FinishOperation(q)), FinishOperation(q), r)
  {
    hide InvBut, MaybeDispose, EntryChange, Checked;
    CheckOnly(s.entries[q].(operationCount := s.entries[q].operationCount - 1), s.closing);
    CheckedSame(s.entries[r], s.closing);
    FinishedChange(s, ApplyOperation(s, FinishOperation(q)), q, r);
  }

  lemma ResumeDetachChanges(s: State, q: Ref, failed: bool, r: Ref)
    requires Inv(s) && MapsInRange(s) && EnabledOperation(s, ResumeDetach(q, failed)) && r < |s.entries|
    ensures EntryChange(s, ApplyOperation(s, ResumeDetach(q, failed)), ResumeDetach(q, failed), r)
  {
    hide InvBut, MaybeDispose, EntryChange, Checked;
    CheckOnly(s.entries[q], s.closing);
    CheckedSame(s.entries[r], s.closing);
    CheckedChange(s, ApplyOperation(s, ResumeDetach(q, failed)), ResumeDetach(q, failed), r);
  }

  lemma ResumeTerminateChanges(s: State, q: Ref, r: Ref)
    requires Inv(s) && MapsInRange(s) && EnabledOperation(s, ResumeTerminate(q)) && r < |s.entries|
    ensures EntryChange(s, ApplyOperation(s, ResumeTerminate(q)), ResumeTerminate(q), r)
  {
    hide InvBut, MaybeDispose, EntryChange, Checked;
    CheckOnly(s.entries[q], s.closing);
    CheckedSame(s.entries[r], s.closing);
    CheckedChange(s, ApplyOperation(s, ResumeTerminate(q)), ResumeTerminate(q), r);
  }

  lemma ConnectChanges(s: State, c: ConnId, r: Ref)
    requires Inv(s) && MapsInRange(s) && EnabledConnection(s, Connect(c)) && r < |s.entries|
    ensures EntryChange(s, ApplyConnection(s, Connect(c)), Connect(c), r)
  {
    hide InvBut, MaybeDispose, EntryChange;
    CheckedChange(s, ApplyConnection(s, Connect(c)), Connect(c), r);
  }

  lemma ConnectionChangesChanges(s: State, c: ConnId, ready: bool, closed: bool, r: Ref)
    requires Inv(s) && MapsInRange(s) && EnabledConnection(s, ConnectionChanges(c, ready, closed)) && r < |s.entries|
    ensures var e := ConnectionChanges(c, ready, closed);
            EntryChange(s, ApplyConnection(s, e), e, r)
  {
    hide InvBut, MaybeDispose, EntryChange;
    CheckedChange(s, ApplyConnection(s, ConnectionChanges(c, ready, closed)), ConnectionChanges(c, ready, closed), r);
  }

  lemma AttachCommandChanges(s: State, c: ConnId, id: SessionId, r: Ref)
    requires Inv(s) && MapsInRange(s) && EnabledConnection(s, AttachCommand(c, id)) && r < |s.entries|
    ensures EntryChange(s, ApplyConnection(s, AttachCommand(c, id)), AttachCommand(c, id), r)
  {
    hide InvBut, EntryChange, Acquire, Checked;
    AcquireAppends(s, c, id, r);
    CheckedSame(s.entries[r], s.closing);
    CheckedChange(s, ApplyConnection(s, AttachCommand(c, id)), AttachCommand(c, id), r);
  }

  lemma ResumeDisposalChanges(s: State, c: ConnId, id: SessionId, q: Ref, r: Ref)
    requires Inv(s) && MapsInRange(s) && EnabledConnection(s, ResumeDisposal(c, id, q)) && r < |s.entries|
    ensures EntryChange(s, ApplyConnection(s, ResumeDisposal(c, id, q)), ResumeDisposal(c, id, q), r)
  {
    hide InvBut, EntryChange, Acquire, Checked;
    var t := Without(s, AwaitDisposal(c, id, q));
    AcquireAppends(t, c, id, r);
    CheckedSame(s.entries[r], s.closing);
    CheckedChange(s, ApplyConnection(s, ResumeDisposal(c, id, q)), ResumeDisposal(c, id, q), r);
  }

  lemma ResumeAttachChanges(s: State, c: ConnId, q: Ref, r: Ref)
    requires Inv(s) && MapsInRange(s) && EnabledConnection(s, ResumeAttach(c, q)) && r < |s.entries|
    ensures EntryChange(s, ApplyConnection(s, ResumeAttach(c, q)), ResumeAttach(c, q), r)
  {
    hide InvBut, MaybeDispose, EntryChange;
    var s' := ApplyConnection(s, ResumeAttach(c, q));
    if CanAttach(s.conns[c]) {
      AttachedChange(s, s', c, q, r);
    } else {
      CheckOnly(s.entries[q], s.closing);
      RefusedChange(s, s', c, q, r);
    }
  }

  lemma AttachedChange(s: State, s': State, c: ConnId, q: Ref, r: Ref)
    requires r < |s.entries| == |s'.entries| && MayAttach(s, c)
    requires var k := s.entries[r];
             s'.entries[r] == if r == q then k.(connections := k.connections + {c}) else k
    ensures EntryChange(s, s', ResumeAttach(c, q), r)
  {
  }

  lemma RefusedChange(s: State, s': State, c: ConnId, q: Ref, r: Ref)
    requires r < |s.entries| == |s'.entries| && !MayAttach(s, c) && Checked(s.closing, s.entries[r], s'.entries[r])
    ensures EntryChange(s, s', ResumeAttach(c, q), r)
  {
  }

  /** The connection leaves, or does not hold the session; then the session is checked. */
  lemma GoneChange(s: State, s': State, e: Event, c: ConnId, r: Ref)
    requires r < |s.entries| == |s'.entries| && (e.DetachCommand? || e.Disconnect?) && e.conn == c
    requires var k := s.entries[r];
             Checked(s.closing, if Goes(s, e, c, r) then k.(connections := k.connections - {c}) else k, s'.entries[r])
    ensures EntryChange(s, s', e, r)
  {
  }

  lemma DetachCommandChanges(s: State, c: ConnId, id: SessionId, r: Ref)
    requires Inv(s) && MapsInRange(s) && EnabledConnection(s, DetachCommand(c, id)) && r < |s.entries|
    ensures EntryChange(s, ApplyConnection(s, DetachCommand(c, id)), DetachCommand(c, id), r)
  {
    assert IdOk(s, id);
    hide InvBut, MaybeDispose, EntryChange, Checked;
    CheckedSame(s.entries[r], s.closing);
    if Goes(s, DetachCommand(c, id), c, r) {
      var k := s.entries[r].(connections := s.entries[r].connections - {c});
      CheckOnly(k, s.closing);
      CheckedSame(k, s.closing);
    }
    GoneChange(s, ApplyConnection(s, DetachCommand(c, id)), DetachCommand(c, id), c, r);
  }

  lemma DisconnectChanges(s: State, c: ConnId, r: Ref)
    requires Inv(s) && MapsInRange(s) && EnabledConnection(s, Disconnect(c)) && r < |s.entries|
    ensures EntryChange(s, ApplyConnection(s, Disconnect(c)), Disconnect(c), r)
  {
    hide InvBut, MaybeDispose, EntryChange, Checked;
    CheckedSame(s.entries[r], s.closing);
    CheckOnly(s.entries[r].(connections := s.entries[r].connections - {c}), s.closing);
    GoneChange(s, ApplyConnection(s, Disconnect(c)), Disconnect(c), c, r);
  }

  lemma DisposeSettledChanges(s: State, q: Ref, failed: bool, r: Ref)
    requires MapsInRange(s) && EnabledShutdown(s, DisposeSettled(q, failed)) && r < |s.entries|
    ensures EntryChange(s, ApplyShutdown(s, DisposeSettled(q, failed)), DisposeSettled(q, failed), r)
  {
  }

  lemma ClearSessionsChanges(s: State, r: Ref)
    requires MapsInRange(s) && EnabledShutdown(s, ClearSessions) && r < |s.entries|
    ensures EntryChange(s, ApplyShutdown(s, ClearSessions), ClearSessions, r)
  {
  }

  lemma ShutdownChanges(s: State, e: Event, r: Ref)
    requires MapsInRange(s) && ByShutdown(e) && EnabledShutdown(s, e) && r < |s.entries|
    ensures EntryChange(s, ApplyShutdown(s, e), e, r)
  {
    hide EntryChange, MapsInRange;
    if e.DisposeSettled? {
      hide ApplyShutdown;
      DisposeSettledChanges(s, e.ref, e.failed, r);
    } else if e.ClearSessions? {
      hide ApplyShutdown;
      ClearSessionsChanges(s, r);
    } else {
      CheckedSame(s.entries[r], s.closing);
      CheckedChange(s, ApplyShutdown(s, e), e, r);
    }
  }

  lemma ConnectionStepChanges(s: State, e: Event, r: Ref)
    requires Inv(s) && MapsInRange(s) && ByConnection(e) && EnabledConnection(s, e) && r < |s.entries|
    ensures EntryChange(s, ApplyConnection(s, e), e, r)
  {
    hide InvBut, EntryChange, ApplyConnection, MapsInRange;
    if e.Connect? {
      ConnectChanges(s, e.conn, r);
    } else if e.ConnectionChanges? {
      ConnectionChangesChanges(s, e.conn, e.ready, e.transportClosed, r);
    } else if e.AttachCommand? {
      AttachCommandChanges(s, e.conn, e.id, r);
    } else if e.ResumeDisposal? {
      ResumeDisposalChanges(s, e.conn, e.id, e.ref, r);
    } else if e.ResumeAttach? {
      ResumeAttachChanges(s, e.conn, e.ref, r);
    } else if e.DetachCommand? {
      DetachCommandChanges(s, e.conn, e.id, r);
    } else {
      DisconnectChanges(s, e.conn, r);
    }
  }

  lemma CreationStepChanges(s: State, e: Event, r: Ref)
    requires Inv(s) && MapsInRange(s) && ByCreation(e) && EnabledCreation(s, e) && r < |s.entries|
    ensures EntryChange(s, ApplyCreation(s, e), e, r)
  {
    hide InvBut, EntryChange, ApplyCreation, MapsInRange;
    if e.ResumeOpening? {
      ResumeOpeningChanges(s, e.conn, e.ref, r);
    } else if e.ResumeCreator? {
      ResumeCreatorChanges(s, e.ref, r);
    } else if e.RuntimeAcquired? {
      RuntimeAcquiredChanges(s, e.ref, r);
    } else if e.AcquireFailed? {
      AcquireFailedChanges(s, e.ref, r);
    } else if e.SnapshotGood? {
      SnapshotGoodChanges(s, e.ref, r);
    } else if e.SnapshotBad? {
      SnapshotBadChanges(s, e.ref, r);
    } else {
      DiscardSettledChanges(s, e.ref, r);
    }
  }

  lemma OtherStepChanges(s: State, e: Event, r: Ref)
    requires Inv(s) && MapsInRange(s) && Enabled(s, e) && !ByConnection(e) && !ByCreation(e) && r < |s.entries|
    ensures EntryChange(s, Apply(s, e), e, r)
  {
    hide InvBut, EntryChange, ApplyRuntime, ApplyOperation, ApplyShutdown, MapsInRange;
    if ByShutdown(e) {
      ShutdownChanges(s, e, r);
    } else if e.RuntimeError? {
      RuntimeErrorChanges(s, e.ref, r);
    } else if e.RuntimeEvent? {
      RuntimeEventChanges(s, e.ref, r);
    } else if e.PhaseChanges? {
      PhaseChangesChanges(s, e.ref, e.idle, r);
    } else if e.DeliverIdleNotice? {
      DeliverIdleNoticeChanges(s, e.ref, r);
    } else if e.StartOperation? {
      StartOperationChanges(s, e.conn, e.id, r);
    } else if e.FinishOperation? {
      FinishOperationChanges(s, e.ref, r);
    } else if e.ResumeDetach? {
      ResumeDetachChanges(s, e.ref, e.failed, r);
    } else {
      ResumeTerminateChanges(s, e.ref, r);
    }
  }

  /** In every step each session changes only as said above. */
  lemma StepChanges(s: State, e: Event, r: Ref)
    requires Inv(s) && MapsInRange(s) && Enabled(s, e) && r < |s.entries|
    ensures EntryChange(s, Apply(s, e), e, r)
  {
    hide InvBut, EntryChange, ApplyConnection, ApplyCreation;
    if ByConnection(e) {
      ConnectionStepChanges(s, e, r);
    } else if ByCreation(e) {
      CreationStepChanges(s, e, r);
    } else {
      OtherStepChanges(s, e, r);
    }
  }

  /**
   * In every run, disposal of a session begins only before shutdown, and only when it is live, nobody holds it, no
   * operation runs on it, and it is idle or has failed.
   */
  lemma DisposalBeginsOnlyUnprotected(states: seq<State>, events: seq<Event>, i: nat, r: Ref)
    requires Execution(states, events) && i < |events| && r < |states[i].entries|
    requires !states[i].entries[r].disposing
    requires r < |states[i + 1].entries| && states[i + 1].entries[r].disposing
    ensures !states[i].closing
    ensures var e := states[i + 1].entries[r];
            e.creation.Resolved? && e.connections == {} && e.operationCount == 0 && (e.terminal || e.idle)
  {
    hide InvBut, Apply, Enabled;
    ExecutionKeepsInv(states, events, i);
    ExecutionKeepsInv(states, events, i + 1);
    CountNotNegative(states[i + 1], r);
    StepChanges(states[i], events[i], r);
  }

  lemma CountNotNegative(s: State, r: Ref)
    requires Inv(s) && r < |s.entries|
    ensures s.entries[r].operationCount >= 0
  {
    assert RefOk(s, r);
  }

  // The maps and the lists

  /** A session becomes live by its snapshot; it leaves by its own settled disposal, or when shutdown ends. */
  ghost predicate LiveChange(s: State, s': State, e: Event, id: SessionId) {
    if e.ClearSessions? then id !in s'.liveSessions
    else if e.SnapshotGood? && e.ref < |s.entries| && s.entries[e.ref].id == id then Listed(s', id, e.ref)
    else if e.DisposeSettled? && e.ref < |s.entries| && s.entries[e.ref].disposing && s.entries[e.ref].id == id
            && Listed(s, id, e.ref)
    then id !in s'.liveSessions
    else (id in s'.liveSessions <==> id in s.liveSessions)
         && (id in s.liveSessions ==> s'.liveSessions[id] == s.liveSessions[id])
  }

  /** A connection lists an id by a successful attach, until it detaches or disconnects. */
  ghost predicate ListChange(s: State, s': State, e: Event, c: ConnId, id: SessionId)
    requires c in s.conns
  {
    && c in s'.conns
    && (s'.conns[c].disconnected <==> s.conns[c].disconnected || e == Disconnect(c))
    && (id in s'.conns[c].sessionIds <==>
          if e == DetachCommand(c, id) || (e == Disconnect(c) && !s.conns[c].disconnected) then false
          else id in s.conns[c].sessionIds
               || (e.ResumeAttach? && e.conn == c && e.ref < |s.entries| && s.entries[e.ref].id == id
                   && MayAttach(s, c)))
  }

  ghost predicate MapChange(s: State, s': State, e: Event, c: ConnId, id: SessionId) {
    && LiveChange(s, s', e, id) && (c in s.conns ==> ListChange(s, s', e, c, id))
    && (s'.closing <==> s.closing || e.BeginShutdown?)
  }

  /** Events that change neither the live sessions nor a list. */
  predicate Neutral(e: Event) {
    && !e.BeginShutdown? && !e.ClearSessions? && !e.SnapshotGood? && !e.DisposeSettled?
    && !e.DetachCommand? && !e.Disconnect? && !e.ResumeAttach?
  }

  predicate SameLists(s: State, s': State) {
    && s'.liveSessions == s.liveSessions && s'.closing == s.closing
    && forall c <- s.conns ::
         && c in s'.conns && s'.conns[c].sessionIds == s.conns[c].sessionIds
         && s'.conns[c].disconnected == s.conns[c].disconnected
  }

  lemma NeutralChange(s: State, s': State, e: Event, c: ConnId, id: SessionId)
    requires Neutral(e) && SameLists(s, s')
    ensures MapChange(s, s', e, c, id)
  {
  }

  lemma AcquireLists(s: State, c: ConnId, id: SessionId)
    requires MapsInRange(s)
    ensures var t := Acquire(s, c, id);
            t.conns == s.conns && t.liveSessions == s.liveSessions && t.closing == s.closing
  {
    assert id in s.liveSessions ==> s.liveSessions[id] < |s.entries|;
    hide MapsInRange, NewEntry;
    if id in s.liveSessions {
      var r := s.liveSessions[id];
      if s.entries[r].terminal {
        assert Acquire(s, c, id) == s;
      } else if s.entries[r].disposing {
        assert Acquire(s, c, id) == With(s, AwaitDisposal(c, id, r));
      } else {
        assert Acquire(s, c, id) == With(s, Attach(c, r));
      }
    } else if id in s.openingSessions {
      assert Acquire(s, c, id) == With(s, AwaitOpening(c, s.openingSessions[id]));
    }
  }

  lemma ErrorLists(s: State, r: Ref)
    requires EnabledRuntime(s, RuntimeError(r))
    ensures SameLists(s, ApplyRuntime(s, RuntimeError(r)))
  {
  }

  lemma PhaseLists(s: State, r: Ref, idle: bool)
    requires EnabledRuntime(s, PhaseChanges(r, idle))
    ensures SameLists(s, ApplyRuntime(s, PhaseChanges(r, idle)))
  {
  }

  lemma CheckLists(s: State, r: Ref)
    requires r < |s.entries|
    ensures var t := DisposeCheck(s, r);
            t.conns == s.conns && t.liveSessions == s.liveSessions && t.closing == s.closing
  {
  }

  lemma NoticeLists(s: State, e: Event)
    requires (e.RuntimeEvent? || e.DeliverIdleNotice?) && EnabledRuntime(s, e)
    ensures SameLists(s, ApplyRuntime(s, e))
  {
    hide DisposeCheck;
    CheckLists(s, e.ref);
    CheckLists(Without(s, IdleNotice(e.ref)), e.ref);
  }

  lemma AttachLists(s: State, d: ConnId, q: Ref, c: ConnId, id: SessionId)
    requires MapsInRange(s) && EnabledConnection(s, ResumeAttach(d, q))
    ensures MapChange(s, ApplyConnection(s, ResumeAttach(d, q)), ResumeAttach(d, q), c, id)
  {
    hide DisposeCheck, MapsInRange;
    CheckLists(Without(s, Attach(d, q)), q);
  }

  lemma DetachKeepsRest(s: State, d: ConnId, k: SessionId)
    requires MapsInRange(s) && d in s.conns
    ensures var t := DetachFrom(s, d, k);
            && t.liveSessions == s.liveSessions && t.closing == s.closing
            && t.conns == (if k !in s.conns[d].sessionIds then s.conns
                           else s.conns[d := s.conns[d].(sessionIds := s.conns[d].sessionIds - {k})])
  {
    assert k in s.liveSessions ==> s.liveSessions[k] < |s.entries|;
    hide DisposeCheck, MapsInRange;
    if k in s.conns[d].sessionIds && k in s.liveSessions {
      var t := s.(conns := s.conns[d := s.conns[d].(sessionIds := s.conns[d].sessionIds - {k})]);
      var r := s.liveSessions[k];
      var u := SetEntry(t, r, s.entries[r].(connections := s.entries[r].connections - {d}));
      CheckLists(u, r);
    }
  }

  lemma DetachLists(s: State, d: ConnId, k: SessionId, c: ConnId, id: SessionId)
    requires MapsInRange(s) && EnabledConnection(s, DetachCommand(d, k))
    ensures MapChange(s, DetachFrom(s, d, k), DetachCommand(d, k), c, id)
  {
    hide DetachFrom, MapsInRange;
    DetachKeepsRest(s, d, k);
  }

  lemma DisconnectLists(s: State, d: ConnId, c: ConnId, id: SessionId)
    requires d in s.conns
    ensures MapChange(s, DisconnectFrom(s, d), Disconnect(d), c, id)
  {
    hide MaybeDispose;
  }

  lemma ConnectionMaps(s: State, e: Event, c: ConnId, id: SessionId)
    requires MapsInRange(s) && ByConnection(e) && EnabledConnection(s, e)
    ensures MapChange(s, ApplyConnection(s, e), e, c, id)
  {
    hide MaybeDispose, MapChange, Acquire, DetachFrom, DisconnectFrom;
    if e.AttachCommand? {
      AcquireLists(s, e.conn, e.id);
      NeutralChange(s, Acquire(s, e.conn, e.id), e, c, id);
    } else if e.ResumeDisposal? {
      var t := Without(s, AwaitDisposal(e.conn, e.id, e.ref));
      AcquireLists(t, e.conn, e.id);
      NeutralChange(s, ApplyConnection(s, e), e, c, id);
    } else if e.ResumeAttach? {
      AttachLists(s, e.conn, e.ref, c, id);
    } else if e.DetachCommand? {
      DetachLists(s, e.conn, e.id, c, id);
    } else if e.Disconnect? {
      DisconnectLists(s, e.conn, c, id);
    } else {
      NeutralChange(s, ApplyConnection(s, e), e, c, id);
    }
  }

  lemma CreationMaps(s: State, e: Event, c: ConnId, id: SessionId)
    requires ByCreation(e) && EnabledCreation(s, e)
    ensures MapChange(s, ApplyCreation(s, e), e, c, id)
  {
    match e
    case ResumeOpening(_, _) =>
    case ResumeCreator(_) =>
    case _ =>
  }

  lemma RuntimeMaps(s: State, e: Event, c: ConnId, id: SessionId)
    requires ByRuntime(e) && EnabledRuntime(s, e)
    ensures MapChange(s, ApplyRuntime(s, e), e, c, id)
  {
    hide ApplyRuntime, MapChange;
    if e.RuntimeError? {
      ErrorLists(s, e.ref);
    } else if e.PhaseChanges? {
      PhaseLists(s, e.ref, e.idle);
    } else {
      NoticeLists(s, e);
    }
    NeutralChange(s, ApplyRuntime(s, e), e, c, id);
  }

  lemma ShutdownMaps(s: State, e: Event, c: ConnId, id: SessionId)
    requires ByShutdown(e) && EnabledShutdown(s, e)
    ensures MapChange(s, ApplyShutdown(s, e), e, c, id)
  {
  }

  lemma StartLists(s: State, c: ConnId, id: SessionId)
    requires MapsInRange(s) && EnabledOperation(s, StartOperation(c, id))
    ensures SameLists(s, ApplyOperation(s, StartOperation(c, id)))
  {
  }

  lemma CheckingLists(s: State, e: Event)
    requires (e.FinishOperation? || e.ResumeDetach? || e.ResumeTerminate?) && MapsInRange(s) && EnabledOperation(s, e)
    ensures SameLists(s, ApplyOperation(s, e))
  {
    hide DisposeCheck, MapsInRange;
    if e.FinishOperation? {
      var k := s.entries[e.ref];
      CheckLists(SetEntry(Without(s, Operation(e.ref)), e.ref, k.(operationCount := k.operationCount - 1)), e.ref);
    } else if e.ResumeDetach? {
      CheckLists(Without(s, DetachBroadcast(e.ref)), e.ref);
    } else {
      CheckLists(Without(s, Terminating(e.ref)), e.ref);
    }
  }

  lemma OperationMaps(s: State, e: Event, c: ConnId, id: SessionId)
    requires MapsInRange(s) && EnabledOperation(s, e)
    ensures MapChange(s, ApplyOperation(s, e), e, c, id)
  {
    hide ApplyOperation, MapChange, MapsInRange;
    if e.StartOperation? {
      StartLists(s, e.conn, e.id);
    } else {
      CheckingLists(s, e);
    }
    NeutralChange(s, ApplyOperation(s, e), e, c, id);
  }

  lemma MapsChange(s: State, e: Event, c: ConnId, id: SessionId)
    requires MapsInRange(s) && Enabled(s, e)
    ensures MapChange(s, Apply(s, e), e, c, id)
  {
    hide MapChange, ApplyConnection, ApplyCreation, ApplyRuntime, ApplyShutdown, ApplyOperation;
    if ByConnection(e) {
      ConnectionMaps(s, e, c, id);
    } else if ByCreation(e) {
      CreationMaps(s, e, c, id);
    } else if ByRuntime(e) {
      RuntimeMaps(s, e, c, id);
    } else if ByShutdown(e) {
      ShutdownMaps(s, e, c, id);
    } else {
      OperationMaps(s, e, c, id);
    }
  }

  /** A creation that has not got its runtime when shutdown begins never becomes a session. */
  lemma {:induction false} NothingOpensInShutdown(states: seq<State>, events: seq<Event>, i: nat, n: nat, r: Ref)
    requires Execution(states, events) && i < n <= |events| && events[i].BeginShutdown? && r < |states[i].entries|
    requires !states[i].entries[r].creation.Snapshotting? && !states[i].entries[r].creation.Resolved?
    ensures states[n].closing && r < |states[n].entries|
    ensures !states[n].entries[r].creation.Snapshotting? && !states[n].entries[r].creation.Resolved?
  {
    hide Apply, Enabled, InvBut, MapChange, EntryChange;
    var (s, e) := (states[n - 1], events[n - 1]);
    if i < n - 1 {
      NothingOpensInShutdown(states, events, i, n - 1, r);
    }
    ExecutionKeepsInv(states, events, n - 1);
    MapsChange(s, e, 0, "");
    StepChanges(s, e, r);
    StaysUnopened(s, states[n], e, r);
    ClosingFollows(s, states[n], e);
  }

  lemma ClosingFollows(s: State, s': State, e: Event)
    requires MapChange(s, s', e, 0, "")
    ensures s'.closing <==> s.closing || e.BeginShutdown?
  {
  }

  lemma StaysUnopened(s: State, s': State, e: Event, r: Ref)
    requires r < |s.entries| && EntryChange(s, s', e, r) && (s.closing || e.BeginShutdown?)
    requires !s.entries[r].creation.Snapshotting? && !s.entries[r].creation.Resolved?
    ensures r < |s'.entries|
    ensures !s'.entries[r].creation.Snapshotting? && !s'.entries[r].creation.Resolved?
  {
  }
}
