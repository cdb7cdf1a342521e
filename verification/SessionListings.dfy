/**
 * Commands are meant to reach only sessions the connection holds. They are checked against the
 * connection's list of session ids, so this needs every listed id to be backed by the live session.
 */
module SessionListings {
  import opened Common
  import opened SessionProtocol
  import opened SessionSafety
  import opened SessionTheorems

  /** If the connection lists the id, the live session of that id holds the connection and is not being disposed. */
  predicate BackedAt(s: State, c: ConnId, id: SessionId) {
    c in s.conns && id in s.conns[c].sessionIds ==>
      && id in s.liveSessions && s.liveSessions[id] < |s.entries|
      && c in s.entries[s.liveSessions[id]].connections && !s.entries[s.liveSessions[id]].disposing
  }

  ghost predicate Backed(s: State) {
    !s.cleared && forall c, id :: BackedAt(s, c, id)
  }

  /** attach runs although disposal has begun, and adds an id the connection did not list. */
  predicate LateAttach(s: State, e: Event) {
    && e.ResumeAttach? && e.ref < |s.entries| && e.conn in s.conns && CanAttach(s.conns[e.conn])
    && s.entries[e.ref].disposing && s.entries[e.ref].id !in s.conns[e.conn].sessionIds
  }

  /** The guard attach does not check: a successful attach keeps the listings backed exactly when it is not late. */
  lemma AttachKeepsListingsExactly(s: State, c: ConnId, r: Ref)
    requires Inv(s) && MapsInRange(s) && Backed(s) && Enabled(s, ResumeAttach(c, r))
    ensures Backed(Apply(s, ResumeAttach(c, r))) <==> !LateAttach(s, ResumeAttach(c, r))
  {
    var e := ResumeAttach(c, r);
    var s' := Apply(s, e);
    if LateAttach(s, e) {
      LateAttachBreaksListing(s, c, r);
      assert !BackedAt(s', c, s.entries[r].id);
    } else {
      hide InvBut;
      forall d, k ensures BackedAt(s', d, k) {
        EarlyAttachKeepsListing(s, c, r, d, k);
      }
    }
  }

  lemma LateAttachBreaksListing(s: State, c: ConnId, r: Ref)
    requires Inv(s) && MapsInRange(s) && Backed(s) && EnabledConnection(s, ResumeAttach(c, r))
    requires LateAttach(s, ResumeAttach(c, r))
    ensures !BackedAt(ApplyConnection(s, ResumeAttach(c, r)), c, s.entries[r].id)
  {
    var id := s.entries[r].id;
    assert TaskOk(s, Attach(c, r)) && RefOk(s, r) && BackedAt(s, c, id);
    if id in s.liveSessions {
      assert PairOk(s, s.liveSessions[id], c) && IdOk(s, id);
    }
  }

  lemma EarlyAttachKeepsListing(s: State, c: ConnId, r: Ref, d: ConnId, k: SessionId)
    requires Inv(s) && MapsInRange(s) && Backed(s) && EnabledConnection(s, ResumeAttach(c, r))
    requires !LateAttach(s, ResumeAttach(c, r))
    ensures BackedAt(ApplyConnection(s, ResumeAttach(c, r)), d, k)
  {
    assert TaskOk(s, Attach(c, r)) && RefOk(s, r) && BackedAt(s, d, k);
    hide InvBut;
  }

  lemma ConnectionKeepsBacked(s: State, e: Event, d: ConnId, k: SessionId)
    requires Inv(s) && MapsInRange(s) && Backed(s)
    requires e.Connect? || e.ConnectionChanges? || e.DetachCommand? || e.Disconnect?
    requires EnabledConnection(s, e)
    ensures BackedAt(ApplyConnection(s, e), d, k) && !ApplyConnection(s, e).cleared
  {
    assert BackedAt(s, d, k);
    if k in s.liveSessions { assert IdOk(s, k); }
    if e.DetachCommand? && e.id in s.liveSessions { assert IdOk(s, e.id); }
  }

  lemma AcquireKeepsBacked(s: State, e: Event, d: ConnId, k: SessionId)
    requires Inv(s) && MapsInRange(s) && Backed(s)
    requires (e.AttachCommand? || e.ResumeDisposal?) && EnabledConnection(s, e)
    ensures BackedAt(ApplyConnection(s, e), d, k) && !ApplyConnection(s, e).cleared
  {
    assert BackedAt(s, d, k);
  }

  lemma CreationKeepsBacked(s: State, e: Event, d: ConnId, k: SessionId)
    requires Inv(s) && Backed(s) && ByCreation(e) && EnabledCreation(s, e)
    ensures BackedAt(ApplyCreation(s, e), d, k) && !ApplyCreation(s, e).cleared
  {
    assert BackedAt(s, d, k) && RefOk(s, e.ref);
    if k in s.liveSessions { assert IdOk(s, k); }
  }

  lemma RuntimeKeepsBacked(s: State, e: Event, d: ConnId, k: SessionId)
    requires Inv(s) && Backed(s) && ByRuntime(e) && EnabledRuntime(s, e)
    ensures BackedAt(ApplyRuntime(s, e), d, k) && !ApplyRuntime(s, e).cleared
  {
    assert BackedAt(s, d, k);
  }

  lemma ShutdownKeepsBacked(s: State, e: Event, d: ConnId, k: SessionId)
    requires Inv(s) && Backed(s) && ByShutdown(e) && !e.ClearSessions? && EnabledShutdown(s, e)
    ensures BackedAt(ApplyShutdown(s, e), d, k) && !ApplyShutdown(s, e).cleared
  {
    assert BackedAt(s, d, k);
    if k in s.liveSessions { assert IdOk(s, k); }
  }

  lemma OperationKeepsBacked(s: State, e: Event, d: ConnId, k: SessionId)
    requires Inv(s) && MapsInRange(s) && Backed(s) && EnabledOperation(s, e)
    ensures BackedAt(ApplyOperation(s, e), d, k) && !ApplyOperation(s, e).cleared
  {
    hide InvBut, ApplyOperation, BackedAt, Backed;
    match e
    case StartOperation(_, _) => StartKeepsBacked(s, e, d, k);
    case ResumeTerminate(_) => TerminateKeepsBacked(s, e, d, k);
    case FinishOperation(_) => FinishKeepsBacked(s, e, d, k);
    case ResumeDetach(_, _) => DetachKeepsBacked(s, e, d, k);
  }

  lemma StartKeepsBacked(s: State, e: Event, d: ConnId, k: SessionId)
    requires MapsInRange(s) && Backed(s) && EnabledOperation(s, e) && e.StartOperation?
    ensures BackedAt(ApplyOperation(s, e), d, k) && !ApplyOperation(s, e).cleared
  {
    assert BackedAt(s, d, k);
  }

  lemma FinishKeepsBacked(s: State, e: Event, d: ConnId, k: SessionId)
    requires MapsInRange(s) && Backed(s) && EnabledOperation(s, e) && e.FinishOperation?
    ensures BackedAt(ApplyOperation(s, e), d, k) && !ApplyOperation(s, e).cleared
  {
    assert BackedAt(s, d, k);
  }

  lemma DetachKeepsBacked(s: State, e: Event, d: ConnId, k: SessionId)
    requires MapsInRange(s) && Backed(s) && EnabledOperation(s, e) && e.ResumeDetach?
    ensures BackedAt(ApplyOperation(s, e), d, k) && !ApplyOperation(s, e).cleared
  {
    assert BackedAt(s, d, k);
  }

  lemma TerminateKeepsBacked(s: State, e: Event, d: ConnId, k: SessionId)
    requires MapsInRange(s) && Backed(s) && EnabledOperation(s, e) && e.ResumeTerminate?
    ensures BackedAt(ApplyOperation(s, e), d, k) && !ApplyOperation(s, e).cleared
  {
    assert BackedAt(s, d, k);
  }

  lemma StepKeepsBacked(s: State, e: Event)
    requires Inv(s) && MapsInRange(s) && Backed(s) && Enabled(s, e)
    requires !LateAttach(s, e) && !e.ClearSessions?
    ensures Backed(Apply(s, e))
  {
    hide InvBut, ApplyConnection, ApplyCreation, ApplyRuntime, ApplyShutdown, ApplyOperation;
    if e.ResumeAttach? {
      AttachKeepsListingsExactly(s, e.conn, e.ref);
    } else {
      forall d, k ensures BackedAt(Apply(s, e), d, k) && !Apply(s, e).cleared {
        if e.AttachCommand? || e.ResumeDisposal? {
          AcquireKeepsBacked(s, e, d, k);
        } else if ByConnection(e) {
          ConnectionKeepsBacked(s, e, d, k);
        } else if ByCreation(e) {
          CreationKeepsBacked(s, e, d, k);
        } else if ByRuntime(e) {
          RuntimeKeepsBacked(s, e, d, k);
        } else if ByShutdown(e) {
          ShutdownKeepsBacked(s, e, d, k);
        } else {
          OperationKeepsBacked(s, e, d, k);
        }
      }
      assert BackedAt(Apply(s, e), 0, "") && !Apply(s, e).cleared;
    }
  }

  lemma ConnectionLeavesCleared(s: State, e: Event)
    requires MapsInRange(s) && ByConnection(e) && EnabledConnection(s, e)
    ensures ApplyConnection(s, e).cleared == s.cleared
  {
    match e
    case AttachCommand(c, id) =>
    case ResumeDisposal(c, id, r) =>
    case DetachCommand(c, id) =>
    case _ =>
  }

  lemma CreationLeavesCleared(s: State, e: Event)
    requires ByCreation(e) && EnabledCreation(s, e)
    ensures ApplyCreation(s, e).cleared == s.cleared
  {
    match e
    case ResumeOpening(c, r) =>
    case ResumeCreator(r) =>
    case RuntimeAcquired(r) =>
    case _ =>
  }

  lemma OperationLeavesCleared(s: State, e: Event)
    requires MapsInRange(s) && EnabledOperation(s, e)
    ensures ApplyOperation(s, e).cleared == s.cleared
  {
  }

  lemma ClearedStays(s: State, e: Event)
    requires MapsInRange(s) && Enabled(s, e)
    ensures Apply(s, e).cleared <==> s.cleared || e.ClearSessions?
  {
    hide ApplyConnection, ApplyCreation, ApplyOperation;
    if ByConnection(e) {
      ConnectionLeavesCleared(s, e);
    } else if ByCreation(e) {
      CreationLeavesCleared(s, e);
    } else if !ByRuntime(e) && !ByShutdown(e) {
      OperationLeavesCleared(s, e);
    }
  }

  /**
   * In a run without late attaches every command is run on a session that holds the connection. Until close()
   * empties the map the listings are backed; from then on no command finds a session.
   */
  lemma {:induction false} CommandsReachHeldSessions(states: seq<State>, events: seq<Event>, n: nat)
    requires Execution(states, events) && n <= |events|
    requires forall i :: 0 <= i < n ==> !LateAttach(states[i], events[i])
    ensures !states[n].cleared ==> Backed(states[n])
    ensures MapsInRange(states[n]) ==>
              forall c, id :: c in states[n].conns && RequireAttached(states[n], c, id).Some? ==>
                !states[n].cleared && c in states[n].entries[RequireAttached(states[n], c, id).value].connections
  {
    hide Apply, Enabled, InvBut;
    if n > 0 {
      CommandsReachHeldSessions(states, events, n - 1);
      ExecutionKeepsInv(states, events, n - 1);
      ClearedStays(states[n - 1], events[n - 1]);
      if !states[n].cleared {
        StepKeepsBacked(states[n - 1], events[n - 1]);
      }
    }
    ExecutionKeepsInv(states, events, n);
    forall c, id | MapsInRange(states[n]) && c in states[n].conns && RequireAttached(states[n], c, id).Some?
      ensures !states[n].cleared && c in states[n].entries[RequireAttached(states[n], c, id).value].connections
    {
      LiveBeforeClearing(states[n], id);
      assert BackedAt(states[n], c, id);
    }
  }

  lemma LiveBeforeClearing(s: State, id: SessionId)
    requires Inv(s) && id in s.liveSessions
    ensures !s.cleared
  {
    assert IdOk(s, id);
  }

  lemma Extend(s: State, e: Event, s': State)
    requires Reachable(s) && MapsInRange(s) && Enabled(s, e) && s' == Apply(s, e)
    ensures Reachable(s')
  {
    hide Apply, Enabled;
    var states, events :| Execution(states, events) && s == states[|events|];
    assert Execution(states + [s'], events + [e]);
    assert (states + [s'])[|events + [e]|] == s';
  }

  const READY := Conn(true, false, false, {})
  const FIRST := Entry("s", 0, Resolved, true, 0, false, false, true, {}, 0, false, false, true, {})
  const DISPOSING := FIRST.(disposing := true, subscribed := false, disposeCalls := 1)
  const GONE := DISPOSING.(connections := {0}, disposeSettled := true)

  const CONNECTED := INITIAL.(conns := map[0 := READY])
  const OPENING := CONNECTED.(openingSessions := map["s" := 0], entries := [NewEntry("s", 0)],
                              tasks := multiset{Creator(0)})
  const OPENED := CONNECTED.(liveSessions := map["s" := 0], entries := [FIRST], tasks := multiset{Attach(0, 0)})
  const LATE := OPENED.(entries := [DISPOSING])
  const ATTACHED := LATE.(
    conns := map[0 := READY.(sessionIds := {"s"})], tasks := multiset{}, entries := [GONE.(disposeSettled := false)])
  const STALE := CONNECTED.(conns := map[0 := READY.(sessionIds := {"s"}), 1 := READY], entries := [GONE])
  const REOPENED := STALE.(
    liveSessions := map["s" := 1], openingSessions := map["s" := 1], tasks := multiset{Creator(1)},
    entries := [GONE, FIRST.(creator := 1)])

  lemma Opens()
    ensures Reachable(OPENING)
  {
    assert Execution([INITIAL], []);
    assert Reachable(INITIAL);
    var s := INITIAL.(conns := map[0 := READY.(ready := false)]);
    Extend(INITIAL, Connect(0), s);
    assert s.conns[0 := READY] == CONNECTED.conns;
    Extend(s, ConnectionChanges(0, true, false), CONNECTED);
    Extend(CONNECTED, AttachCommand(0, "s"), OPENING);
  }

  lemma IsOpened()
    ensures Reachable(OPENED)
  {
    Opens();
    var s := OPENING.(entries := [FIRST.(creation := Snapshotting, subscribed := false)]);
    Extend(OPENING, RuntimeAcquired(0), s);
    var t := s.(entries := [FIRST], liveSessions := map["s" := 0]);
    Extend(s, SnapshotGood(0), t);
    Finishes(t);
  }

  lemma Finishes(s: State)
    requires s == OPENING.(entries := [FIRST], liveSessions := map["s" := 0]) && Reachable(s)
    ensures Reachable(OPENED)
  {
    assert s.openingSessions - {"s"} == map[];
    Extend(s, ResumeCreator(0), OPENED);
  }

  /** A runtime event finds no connection yet and disposes of the session; the attach then runs late. */
  lemma AttachesLate()
    ensures LateAttach(LATE, ResumeAttach(0, 0))
    ensures Reachable(ATTACHED)
  {
    IsOpened();
    Extend(OPENED, RuntimeEvent(0), LATE);
    assert READY.sessionIds + {"s"} == {"s"} && DISPOSING.connections + {0} == {0};
    assert LATE.conns[0 := READY.(sessionIds := {"s"})] == ATTACHED.conns;
    Extend(LATE, ResumeAttach(0, 0), ATTACHED);
  }

  lemma GoesStale()
    ensures Reachable(STALE)
  {
    AttachesLate();
    var t := ATTACHED.(liveSessions := map[], entries := [GONE]);
    assert ATTACHED.liveSessions - {"s"} == map[];
    Extend(ATTACHED, DisposeSettled(0, false), t);
    var u := t.(conns := t.conns[1 := READY.(ready := false)]);
    Extend(t, Connect(1), u);
    assert u.conns[1 := READY] == STALE.conns;
    Extend(u, ConnectionChanges(1, true, false), STALE);
  }

  const OPENING_AGAIN := STALE.(openingSessions := map["s" := 1], entries := [GONE, NewEntry("s", 1)],
                                tasks := multiset{Creator(1)})

  lemma OpensAgain()
    ensures Reachable(OPENING_AGAIN)
  {
    GoesStale();
    Extend(STALE, AttachCommand(1, "s"), OPENING_AGAIN);
  }

  /** The id is opened again: connection 0 may now operate on a session that does not hold it. */
  lemma LateAttachReachesForeignSession()
    ensures Reachable(REOPENED) && MapsInRange(REOPENED)
    ensures RequireAttached(REOPENED, 0, "s") == Some(1) && 0 !in REOPENED.entries[1].connections
  {
    OpensAgain();
    var s := OPENING_AGAIN;
    var t := s.(entries := [GONE, FIRST.(creator := 1, creation := Snapshotting, subscribed := false)]);
    Extend(s, RuntimeAcquired(1), t);
    Extend(t, SnapshotGood(1), REOPENED);
  }
}
