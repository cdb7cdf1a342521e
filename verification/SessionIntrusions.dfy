/**
 * Where a late attach leads. The id it leaves in the connection's list stays there, so the session that is
 * opened next under this id, by anyone, takes the connection's commands without holding it.
 */
module SessionIntrusions {
  import opened SessionProtocol
  import opened SessionSafety
  import opened SessionTheorems
  import opened SessionListings

  // Every entry of the opening sessions has its creator's continuation still to run

  predicate HeldAt(s: State, id: SessionId) {
    id in s.openingSessions ==> Creator(s.openingSessions[id]) in s.tasks
  }

  ghost predicate OpeningsHeld(s: State) {
    forall id :: HeldAt(s, id)
  }

  lemma TaskKeepsHeld(s: State, t: Task, id: SessionId)
    requires HeldAt(s, id)
    ensures HeldAt(With(s, t), id) && (!t.Creator? ==> HeldAt(Without(s, t), id))
  {
  }

  lemma AcquireKeepsHeld(s: State, c: ConnId, k: SessionId, id: SessionId)
    requires MapsInRange(s) && HeldAt(s, id)
    ensures HeldAt(Acquire(s, c, k), id)
  {
    hide MapsInRange;
    if k !in s.liveSessions && k !in s.openingSessions {
      TaskKeepsHeld(s, Creator(|s.entries|), id);
    }
  }

  lemma DetachKeepsHeld(s: State, c: ConnId, k: SessionId, id: SessionId)
    requires MapsInRange(s) && c in s.conns && HeldAt(s, id)
    ensures HeldAt(DetachFrom(s, c, k), id)
  {
  }

  lemma AttachKeepsHeld(s: State, c: ConnId, r: Ref, id: SessionId)
    requires EnabledConnection(s, ResumeAttach(c, r)) && MapsInRange(s) && HeldAt(s, id)
    ensures HeldAt(ApplyConnection(s, ResumeAttach(c, r)), id)
  {
    TaskKeepsHeld(s, Attach(c, r), id);
  }

  lemma ConnectionKeepsHeld(s: State, e: Event, id: SessionId)
    requires MapsInRange(s) && ByConnection(e) && EnabledConnection(s, e) && HeldAt(s, id)
    ensures HeldAt(ApplyConnection(s, e), id)
  {
    hide Acquire, DetachFrom, HeldAt;
    if e.AttachCommand? {
      AcquireKeepsHeld(s, e.conn, e.id, id);
    } else if e.ResumeDisposal? {
      var t := AwaitDisposal(e.conn, e.id, e.ref);
      TaskKeepsHeld(s, t, id);
      AcquireKeepsHeld(Without(s, t), e.conn, e.id, id);
    } else if e.DetachCommand? {
      DetachKeepsHeld(s, e.conn, e.id, id);
    } else if e.ResumeAttach? {
      AttachKeepsHeld(s, e.conn, e.ref, id);
    } else {
      SameOpenings(s, ApplyConnection(s, e), id);
    }
  }

  lemma SameOpenings(s: State, s': State, id: SessionId)
    requires HeldAt(s, id)
    ensures s'.openingSessions == s.openingSessions && s'.tasks == s.tasks ==> HeldAt(s', id)
  {
  }

  lemma CreatorKeepsHeld(s: State, r: Ref, id: SessionId)
    requires IdOk(s, id) && EnabledCreation(s, ResumeCreator(r)) && HeldAt(s, id)
    ensures HeldAt(ApplyCreation(s, ResumeCreator(r)), id)
  {
    var e := s.entries[r];
    var t := Without(s, Creator(r));
    var u := if Opening(s, e.id, r) then t.(openingSessions := s.openingSessions - {e.id}) else t;
    CreatorForgets(s, r, id);
    TaskKeepsHeld(u, Attach(e.creator, r), id);
    assert ApplyCreation(s, ResumeCreator(r)) == if e.creation.Resolved? then With(u, Attach(e.creator, r)) else u;
  }

  /** Only the entry of the creator that goes on is forgotten. */
  lemma CreatorForgets(s: State, r: Ref, id: SessionId)
    requires IdOk(s, id) && r < |s.entries| && HeldAt(s, id)
    ensures var t := Without(s, Creator(r));
            var k := s.entries[r].id;
            HeldAt(if Opening(s, k, r) then t.(openingSessions := s.openingSessions - {k}) else t, id)
  {
    if id in s.openingSessions && s.openingSessions[id] != r {
      assert Creator(s.openingSessions[id]) in Without(s, Creator(r)).tasks;
    }
  }

  lemma CreationKeepsHeld(s: State, e: Event, id: SessionId)
    requires Inv(s) && ByCreation(e) && EnabledCreation(s, e) && HeldAt(s, id)
    ensures HeldAt(ApplyCreation(s, e), id)
  {
    assert IdOk(s, id);
    hide InvBut, HeldAt, IdOk;
    if e.ResumeOpening? {
      var t := AwaitOpening(e.conn, e.ref);
      TaskKeepsHeld(s, t, id);
      TaskKeepsHeld(Without(s, t), Attach(e.conn, e.ref), id);
    } else if e.ResumeCreator? {
      CreatorKeepsHeld(s, e.ref, id);
    } else {
      SameOpenings(s, ApplyCreation(s, e), id);
    }
  }

  lemma RuntimeKeepsHeld(s: State, e: Event, id: SessionId)
    requires ByRuntime(e) && EnabledRuntime(s, e) && HeldAt(s, id)
    ensures HeldAt(ApplyRuntime(s, e), id)
  {
  }

  lemma OperationKeepsHeld(s: State, e: Event, id: SessionId)
    requires MapsInRange(s) && EnabledOperation(s, e) && HeldAt(s, id)
    ensures HeldAt(ApplyOperation(s, e), id)
  {
    match e
    case StartOperation(c, k) =>
    case FinishOperation(r) =>
    case ResumeDetach(r, failed) =>
    case ResumeTerminate(r) =>
  }

  lemma StepKeepsHeld(s: State, e: Event)
    requires Inv(s) && MapsInRange(s) && Enabled(s, e) && OpeningsHeld(s)
    ensures OpeningsHeld(Apply(s, e))
  {
    hide InvBut, ApplyConnection, ApplyCreation, ApplyRuntime, ApplyOperation;
    forall id ensures HeldAt(Apply(s, e), id) {
      assert HeldAt(s, id);
      if ByConnection(e) {
        ConnectionKeepsHeld(s, e, id);
      } else if ByCreation(e) {
        CreationKeepsHeld(s, e, id);
      } else if ByRuntime(e) {
        RuntimeKeepsHeld(s, e, id);
      } else if !ByShutdown(e) {
        OperationKeepsHeld(s, e, id);
      }
    }
  }

  lemma {:induction false} ExecutionKeepsHeld(states: seq<State>, events: seq<Event>, n: nat)
    requires Execution(states, events) && n <= |events|
    ensures OpeningsHeld(states[n])
  {
    hide Apply, Enabled, InvBut;
    if n > 0 {
      ExecutionKeepsHeld(states, events, n - 1);
      ExecutionKeepsInv(states, events, n - 1);
      StepKeepsHeld(states[n - 1], events[n - 1]);
    }
  }

  // Runs that lead to a command on a session the connection does not hold

  /** A command of the connection would be run on a session that does not hold it. */
  ghost predicate Intruding(s: State, c: ConnId, id: SessionId) {
    && MapsInRange(s) && c in s.conns && RequireAttached(s, c, id).Some?
    && c !in s.entries[RequireAttached(s, c, id).value].connections
  }

  /** States linked by enabled events. */
  ghost predicate Stretch(s: State, states: seq<State>, events: seq<Event>) {
    && |states| == |events| + 1 && states[0] == s
    && forall i :: 0 <= i < |events| ==>
         MapsInRange(states[i]) && Enabled(states[i], events[i]) && states[i + 1] == Apply(states[i], events[i])
  }

  ghost predicate MayIntrude(s: State, c: ConnId, id: SessionId) {
    exists states, events :: Stretch(s, states, events) && Intruding(states[|events|], c, id)
  }

  lemma IntrudesNow(s: State, c: ConnId, id: SessionId)
    requires Intruding(s, c, id)
    ensures MayIntrude(s, c, id)
  {
    var events: seq<Event> := [];
    assert Stretch(s, [s], events) && Intruding([s][|events|], c, id);
  }

  lemma IntrudesAfter(s: State, e: Event, c: ConnId, id: SessionId)
    requires MapsInRange(s) && Enabled(s, e) && MayIntrude(Apply(s, e), c, id)
    ensures MayIntrude(s, c, id)
  {
    hide Enabled, Apply, Intruding;
    var states, events :| Stretch(Apply(s, e), states, events) && Intruding(states[|events|], c, id);
    var (longer, more) := ([s] + states, [e] + events);
    forall i | 0 <= i < |more|
      ensures MapsInRange(longer[i]) && Enabled(longer[i], more[i]) && longer[i + 1] == Apply(longer[i], more[i])
    {
      if i > 0 {
        assert longer[i] == states[i - 1] && more[i] == events[i - 1];
      }
    }
    assert Stretch(s, longer, more);
    assert longer[|more|] == states[|events|];
  }

  /** The connection lists the id, whatever the live session of that id. */
  ghost predicate Lists(s: State, c: ConnId, id: SessionId) {
    && Inv(s) && MapsInRange(s) && OpeningsHeld(s) && !s.closing
    && c in s.conns && id in s.conns[c].sessionIds
  }

  /** Some steps of other parties, which leave the connection's list alone. */
  predicate Elsewhere(e: Event, c: ConnId) {
    || (e.Connect? && e.conn != c) || e.AttachCommand? || e.RuntimeAcquired? || e.SnapshotGood? || e.DiscardSettled?
    || e.ResumeCreator? || e.DisposeSettled?
  }

  lemma StillLists(s: State, e: Event, c: ConnId, id: SessionId)
    requires Lists(s, c, id) && Elsewhere(e, c) && Enabled(s, e)
    ensures Lists(Apply(s, e), c, id)
  {
    hide InvBut, OpeningsHeld;
    StepKeepsInv(s, e);
    InRange(Apply(s, e));
    StepKeepsHeld(s, e);
    ListUntouched(s, e, c);
  }

  lemma ListUntouched(s: State, e: Event, c: ConnId)
    requires MapsInRange(s) && Elsewhere(e, c) && Enabled(s, e) && c in s.conns
    ensures Apply(s, e).closing == s.closing && c in Apply(s, e).conns && Apply(s, e).conns[c] == s.conns[c]
  {
    match e
    case Connect(_) =>
    case AttachCommand(_, _) =>
    case ResumeCreator(_) =>
    case RuntimeAcquired(_) =>
    case SnapshotGood(_) =>
    case DiscardSettled(_) =>
    case DisposeSettled(_, _) =>
  }

  /** The session is about to become live, and holds nobody yet. */
  lemma SnapshotIntrudes(s: State, c: ConnId, id: SessionId, r: Ref)
    requires Lists(s, c, id) && r < |s.entries| && s.entries[r].id == id && s.entries[r].creation.Snapshotting?
    ensures MayIntrude(s, c, id)
  {
    assert RefOk(s, r);
    hide InvBut;
    var s' := ApplyCreation(s, SnapshotGood(r));
    IntrudesNow(s', c, id);
    assert Apply(s, SnapshotGood(r)) == s';
    IntrudesAfter(s, SnapshotGood(r), c, id);
  }

  lemma AcquiringIntrudes(s: State, c: ConnId, id: SessionId, r: Ref)
    requires Lists(s, c, id) && r < |s.entries| && s.entries[r].id == id && s.entries[r].creation.Acquiring?
    ensures MayIntrude(s, c, id)
  {
    hide InvBut, MayIntrude, OpeningsHeld;
    StillLists(s, RuntimeAcquired(r), c, id);
    var s' := ApplyCreation(s, RuntimeAcquired(r));
    assert Apply(s, RuntimeAcquired(r)) == s';
    SnapshotIntrudes(s', c, id, r);
    IntrudesAfter(s, RuntimeAcquired(r), c, id);
  }

  /** There is always room for one more connection. */
  lemma {:induction false} Above(ids: set<ConnId>) returns (c: ConnId)
    ensures forall d <- ids :: d < c
  {
    if ids == {} {
      c := 0;
    } else {
      var d :| d in ids;
      c := Above(ids - {d});
      assert forall k <- ids :: k == d || k in ids - {d};
      c := if c <= d then d + 1 else c;
    }
  }

  /** Nothing covers the id: another connection opens it. */
  lemma FreeIntrudes(s: State, c: ConnId, id: SessionId)
    requires Lists(s, c, id) && id !in s.liveSessions && id !in s.openingSessions
    ensures MayIntrude(s, c, id)
  {
    hide InvBut, MayIntrude, OpeningsHeld;
    var d := Above(s.conns.Keys);
    assert d !in s.conns;
    StillLists(s, Connect(d), c, id);
    var t := ApplyConnection(s, Connect(d));
    assert Apply(s, Connect(d)) == t;
    StillLists(t, AttachCommand(d, id), c, id);
    var u := ApplyConnection(t, AttachCommand(d, id));
    assert Apply(t, AttachCommand(d, id)) == u;
    AcquiringIntrudes(u, c, id, |s.entries|);
    IntrudesAfter(t, AttachCommand(d, id), c, id);
    IntrudesAfter(s, Connect(d), c, id);
  }

  /** An opening that has settled is forgotten. */
  lemma SettledIntrudes(s: State, c: ConnId, id: SessionId)
    requires Lists(s, c, id) && id !in s.liveSessions && id in s.openingSessions
    requires !Pending(s.entries[s.openingSessions[id]].creation)
    ensures MayIntrude(s, c, id)
  {
    var r := s.openingSessions[id];
    assert HeldAt(s, id) && IdOk(s, id);
    hide InvBut, MayIntrude, OpeningsHeld;
    StillLists(s, ResumeCreator(r), c, id);
    var s' := ApplyCreation(s, ResumeCreator(r));
    assert Apply(s, ResumeCreator(r)) == s';
    FreeIntrudes(s', c, id);
    IntrudesAfter(s, ResumeCreator(r), c, id);
  }

  lemma DiscardingIntrudes(s: State, c: ConnId, id: SessionId)
    requires Lists(s, c, id) && id !in s.liveSessions && id in s.openingSessions
    requires s.entries[s.openingSessions[id]].creation.Discarding?
    ensures MayIntrude(s, c, id)
  {
    var r := s.openingSessions[id];
    hide InvBut, MayIntrude, OpeningsHeld;
    StillLists(s, DiscardSettled(r), c, id);
    var s' := ApplyCreation(s, DiscardSettled(r));
    assert Apply(s, DiscardSettled(r)) == s';
    SettledIntrudes(s', c, id);
    IntrudesAfter(s, DiscardSettled(r), c, id);
  }

  lemma VacantIntrudes(s: State, c: ConnId, id: SessionId)
    requires Lists(s, c, id) && id !in s.liveSessions
    ensures MayIntrude(s, c, id)
  {
    if id !in s.openingSessions {
      FreeIntrudes(s, c, id);
    } else {
      var r := s.openingSessions[id];
      assert IdOk(s, id);
      hide InvBut, MayIntrude, OpeningsHeld;
      match s.entries[r].creation
      case Acquiring => AcquiringIntrudes(s, c, id, r);
      case Snapshotting => SnapshotIntrudes(s, c, id, r);
      case Discarding => DiscardingIntrudes(s, c, id);
      case _ => SettledIntrudes(s, c, id);
    }
  }

  /** The session that is being disposed goes, and leaves the id vacant. */
  lemma DisposingIntrudes(s: State, c: ConnId, id: SessionId)
    requires Lists(s, c, id) && id in s.liveSessions && s.entries[s.liveSessions[id]].disposing
    ensures MayIntrude(s, c, id)
  {
    var r := s.liveSessions[id];
    assert IdOk(s, id) && RefOk(s, r);
    hide InvBut, MayIntrude, OpeningsHeld;
    var e := DisposeSettled(r, false);
    StillLists(s, e, c, id);
    var s' := ApplyShutdown(s, e);
    assert Apply(s, e) == s';
    VacantIntrudes(s', c, id);
    IntrudesAfter(s, e, c, id);
  }

  /**
   * Every late attach before shutdown may end in a command on a session that does not hold the connection,
   * unless a session that has failed meanwhile occupies the id and is not being disposed yet.
   */
  lemma LateAttachMayIntrude(s: State, c: ConnId, r: Ref)
    requires Reachable(s) && MapsInRange(s) && !s.closing
    requires Enabled(s, ResumeAttach(c, r)) && LateAttach(s, ResumeAttach(c, r))
    requires var id := s.entries[r].id;
             id in s.liveSessions ==>
               s.entries[s.liveSessions[id]].disposing || !s.entries[s.liveSessions[id]].terminal
    ensures MayIntrude(Apply(s, ResumeAttach(c, r)), c, s.entries[r].id)
  {
    var e := ResumeAttach(c, r);
    var id := s.entries[r].id;
    var s' := ApplyConnection(s, e);
    assert Apply(s, e) == s';
    ReachableInv(s);
    ReachableHeld(s);
    StepKeepsInv(s, e);
    InRange(s');
    StepKeepsHeld(s, e);
    if id in s.liveSessions {
      assert PairOk(s, s.liveSessions[id], c) && IdOk(s, id);
    }
    hide InvBut, MayIntrude, OpeningsHeld;
    if id !in s'.liveSessions {
      VacantIntrudes(s', c, id);
    } else if s'.entries[s'.liveSessions[id]].disposing {
      DisposingIntrudes(s', c, id);
    } else {
      IntrudesNow(s', c, id);
    }
  }

  lemma ReachableHeld(s: State)
    requires Reachable(s)
    ensures OpeningsHeld(s)
  {
    var states, events :| Execution(states, events) && s == states[|events|];
    ExecutionKeepsHeld(states, events, |events|);
  }
}
