/**
 * An attach command gets its connection into a session: by steps of its own and answers of the service only, from
 * every state in which its id is not occupied by a session that has failed or by an opening that is lost.
 */
module SessionProgress {
  import opened SessionProtocol
  import opened SessionSafety
  import opened SessionTheorems
  import opened SessionIntrusions
  import opened SessionChanges

  /** The connection is in the live session of the id, which is neither failed nor being disposed, and lists it. */
  predicate IsIn(s: State, c: ConnId, id: SessionId) {
    && id in s.liveSessions && s.liveSessions[id] < |s.entries| && c in s.conns && id in s.conns[c].sessionIds
    && var e := s.entries[s.liveSessions[id]];
       c in e.connections && !e.terminal && !e.disposing
  }

  /** Continuations of the connection's own command and of creators, and what the service answers. */
  predicate OwnStep(e: Event, c: ConnId) {
    || e.RuntimeAcquired? || e.SnapshotGood? || e.ResumeCreator? || (e.DisposeSettled? && !e.failed)
    || ((e.ResumeOpening? || e.ResumeDisposal? || e.ResumeAttach?) && e.conn == c)
  }

  ghost predicate OwnStretch(s: State, states: seq<State>, events: seq<Event>, c: ConnId) {
    && |states| == |events| + 1 && states[0] == s
    && forall i :: 0 <= i < |events| ==>
         && OwnStep(events[i], c) && MapsInRange(states[i]) && Enabled(states[i], events[i])
         && states[i + 1] == Apply(states[i], events[i])
  }

  ghost predicate GetsIn(s: State, c: ConnId, id: SessionId) {
    exists states, events :: OwnStretch(s, states, events, c) && IsIn(states[|events|], c, id)
  }

  lemma InNow(s: State, c: ConnId, id: SessionId)
    requires IsIn(s, c, id)
    ensures GetsIn(s, c, id)
  {
    var events: seq<Event> := [];
    assert OwnStretch(s, [s], events, c) && IsIn([s][|events|], c, id);
  }

  lemma InAfter(s: State, e: Event, c: ConnId, id: SessionId)
    requires OwnStep(e, c) && MapsInRange(s) && Enabled(s, e) && GetsIn(Apply(s, e), c, id)
    ensures GetsIn(s, c, id)
  {
    hide Enabled, Apply, IsIn, OwnStep;
    var states, events :| OwnStretch(Apply(s, e), states, events, c) && IsIn(states[|events|], c, id);
    var (longer, more) := ([s] + states, [e] + events);
    forall i | 0 <= i < |more|
      ensures OwnStep(more[i], c) && MapsInRange(longer[i]) && Enabled(longer[i], more[i])
      ensures longer[i + 1] == Apply(longer[i], more[i])
    {
      if i > 0 {
        assert longer[i] == states[i - 1] && more[i] == events[i - 1];
      }
    }
    assert OwnStretch(s, longer, more, c);
    assert longer[|more|] == states[|events|];
  }

  /** The connection may attach, and the server is not closing. */
  ghost predicate Able(s: State, c: ConnId) {
    && Inv(s) && MapsInRange(s) && OpeningsHeld(s) && !s.closing
    && c in s.conns && s.conns[c].ready && !s.conns[c].disconnected && !s.conns[c].transportClosed
  }

  lemma StillAble(s: State, e: Event, c: ConnId)
    requires Able(s, c) && Enabled(s, e) && (e.AttachCommand? || (OwnStep(e, c) && !e.ResumeAttach?))
    ensures Able(Apply(s, e), c)
  {
    hide InvBut, OpeningsHeld;
    StepKeepsInv(s, e);
    InRange(Apply(s, e));
    StepKeepsHeld(s, e);
    SameConnection(s, e, c);
  }

  lemma OpeningSame(s: State, c: ConnId, r: Ref)
    requires EnabledCreation(s, ResumeOpening(c, r))
    ensures var t := ApplyCreation(s, ResumeOpening(c, r)); t.closing == s.closing && t.conns == s.conns
  {
  }

  lemma CreatorSame(s: State, r: Ref)
    requires EnabledCreation(s, ResumeCreator(r))
    ensures var t := ApplyCreation(s, ResumeCreator(r)); t.closing == s.closing && t.conns == s.conns
  {
    var e := s.entries[r];
    var t := Without(s, Creator(r));
    var u := if Opening(s, e.id, r) then t.(openingSessions := s.openingSessions - {e.id}) else t;
    assert u.closing == s.closing && u.conns == s.conns;
    assert ApplyCreation(s, ResumeCreator(r)) == if e.creation.Resolved? then With(u, Attach(e.creator, r)) else u;
  }

  lemma RuntimeSame(s: State, e: Event)
    requires (e.RuntimeAcquired? || e.SnapshotGood?) && EnabledCreation(s, e)
    ensures ApplyCreation(s, e).closing == s.closing && ApplyCreation(s, e).conns == s.conns
  {
  }

  lemma SameConnection(s: State, e: Event, c: ConnId)
    requires MapsInRange(s) && Enabled(s, e) && (e.AttachCommand? || (OwnStep(e, c) && !e.ResumeAttach?))
    ensures Apply(s, e).closing == s.closing && Apply(s, e).conns == s.conns
  {
    hide Acquire, ApplyCreation;
    if e.AttachCommand? {
      AcquireLists(s, e.conn, e.id);
    } else if e.ResumeDisposal? {
      AcquireLists(Without(s, AwaitDisposal(e.conn, e.id, e.ref)), e.conn, e.id);
    } else if e.DisposeSettled? {
      hide ApplyConnection;
    } else {
      hide ApplyConnection, ApplyShutdown;
      if e.ResumeOpening? {
        OpeningSame(s, e.conn, e.ref);
      } else if e.ResumeCreator? {
        CreatorSame(s, e.ref);
      } else {
        RuntimeSame(s, e);
      }
    }
  }

  /** The last step. */
  lemma AttachGetsIn(s: State, c: ConnId, id: SessionId, r: Ref)
    requires Able(s, c) && Attach(c, r) in s.tasks && Listed(s, id, r)
    requires r < |s.entries| && !s.entries[r].terminal && !s.entries[r].disposing
    ensures GetsIn(s, c, id)
  {
    assert IdOk(s, id);
    hide InvBut;
    var s' := ApplyConnection(s, ResumeAttach(c, r));
    assert Apply(s, ResumeAttach(c, r)) == s';
    InNow(s', c, id);
    InAfter(s, ResumeAttach(c, r), c, id);
  }

  /** A continuation that waits for the creation waits for a session that becomes live. */
  predicate Waits(s: State, c: ConnId, r: Ref) {
    AwaitOpening(c, r) in s.tasks || (Creator(r) in s.tasks && r < |s.entries| && s.entries[r].creator == c)
  }

  lemma ResolvedGetsIn(s: State, c: ConnId, id: SessionId, r: Ref)
    requires Able(s, c) && Waits(s, c, r) && Listed(s, id, r)
    requires r < |s.entries| && s.entries[r].creation.Resolved? && !s.entries[r].terminal && !s.entries[r].disposing
    ensures GetsIn(s, c, id)
  {
    hide InvBut, OpeningsHeld, GetsIn;
    var e := if AwaitOpening(c, r) in s.tasks then ResumeOpening(c, r) else ResumeCreator(r);
    StillAble(s, e, c);
    var s' := ApplyCreation(s, e);
    assert Apply(s, e) == s';
    assert Attach(c, r) in s'.tasks;
    AttachGetsIn(s', c, id, r);
    InAfter(s, e, c, id);
  }

  lemma SnapshotGetsIn(s: State, c: ConnId, id: SessionId, r: Ref)
    requires Able(s, c) && Waits(s, c, r)
    requires r < |s.entries| && s.entries[r].id == id && s.entries[r].creation.Snapshotting?
    ensures GetsIn(s, c, id)
  {
    assert RefOk(s, r);
    hide InvBut, OpeningsHeld, GetsIn;
    var e := SnapshotGood(r);
    StillAble(s, e, c);
    var s' := ApplyCreation(s, e);
    assert Apply(s, e) == s';
    ResolvedGetsIn(s', c, id, r);
    InAfter(s, e, c, id);
  }

  lemma AcquiringGetsIn(s: State, c: ConnId, id: SessionId, r: Ref)
    requires Able(s, c) && Waits(s, c, r)
    requires r < |s.entries| && s.entries[r].id == id && s.entries[r].creation.Acquiring?
    ensures GetsIn(s, c, id)
  {
    hide InvBut, OpeningsHeld, GetsIn;
    var e := RuntimeAcquired(r);
    StillAble(s, e, c);
    var s' := ApplyCreation(s, e);
    assert Apply(s, e) == s';
    SnapshotGetsIn(s', c, id, r);
    InAfter(s, e, c, id);
  }

  /** The command finds the id free. */
  lemma FreeGetsIn(s: State, c: ConnId, id: SessionId)
    requires Able(s, c) && Able(Acquire(s, c, id), c) && id !in s.liveSessions && id !in s.openingSessions
    ensures GetsIn(Acquire(s, c, id), c, id)
  {
    hide InvBut, OpeningsHeld, GetsIn;
    AcquiringGetsIn(Acquire(s, c, id), c, id, |s.entries|);
  }

  /** It waits for a disposal and tries again. */
  lemma RetryGetsIn(s: State, c: ConnId, id: SessionId, r: Ref)
    requires Able(s, c) && AwaitDisposal(c, id, r) in s.tasks && id !in s.liveSessions && id !in s.openingSessions
    requires r < |s.entries| && s.entries[r].disposeSettled && !s.entries[r].disposeFailed
    ensures GetsIn(s, c, id)
  {
    hide InvBut, OpeningsHeld, GetsIn;
    var e := ResumeDisposal(c, id, r);
    var t := Without(s, AwaitDisposal(c, id, r));
    StillAble(s, e, c);
    assert Apply(s, e) == Acquire(t, c, id);
    AcquiringGetsIn(Acquire(t, c, id), c, id, |s.entries|);
    InAfter(s, e, c, id);
  }

  /** An opening that has settled is forgotten first. */
  lemma VacatedGetsIn(s: State, c: ConnId, id: SessionId, r: Ref)
    requires Able(s, c) && AwaitDisposal(c, id, r) in s.tasks && id !in s.liveSessions
    requires r < |s.entries| && s.entries[r].disposeSettled && !s.entries[r].disposeFailed
    requires id in s.openingSessions ==> !Pending(s.entries[s.openingSessions[id]].creation)
    ensures GetsIn(s, c, id)
  {
    if id in s.openingSessions {
      var q := s.openingSessions[id];
      assert HeldAt(s, id) && IdOk(s, id);
      hide InvBut, OpeningsHeld, GetsIn;
      var e := ResumeCreator(q);
      StillAble(s, e, c);
      var s' := ApplyCreation(s, e);
      assert Apply(s, e) == s';
      RetryGetsIn(s', c, id, r);
      InAfter(s, e, c, id);
    } else {
      RetryGetsIn(s, c, id, r);
    }
  }

  lemma DisposingGetsIn(s: State, c: ConnId, id: SessionId, r: Ref)
    requires Able(s, c) && AwaitDisposal(c, id, r) in s.tasks && Listed(s, id, r)
    requires r < |s.entries| && s.entries[r].disposing
    ensures GetsIn(s, c, id)
  {
    assert IdOk(s, id) && RefOk(s, r);
    if id in s.openingSessions {
      assert RefOk(s, s.openingSessions[id]);
    }
    hide InvBut, OpeningsHeld, GetsIn;
    var e := DisposeSettled(r, false);
    StillAble(s, e, c);
    var s' := ApplyShutdown(s, e);
    assert Apply(s, e) == s';
    VacatedGetsIn(s', c, id, r);
    InAfter(s, e, c, id);
  }

  /** The id is occupied neither by a failed session nor by an opening that comes to nothing. */
  predicate Attachable(s: State, id: SessionId) {
    if id in s.liveSessions
    then s.liveSessions[id] < |s.entries| && !s.entries[s.liveSessions[id]].terminal
    else id in s.openingSessions ==>
           && s.openingSessions[id] < |s.entries|
           && var creation := s.entries[s.openingSessions[id]].creation;
              creation.Acquiring? || creation.Snapshotting?
  }

  /** From every reachable state before shutdown an attach command can get its connection in. */
  lemma AttachCommandMaySucceed(s: State, c: ConnId, id: SessionId)
    requires Reachable(s) && MapsInRange(s) && !s.closing && Attachable(s, id) && c in s.conns
    requires s.conns[c].ready && !s.conns[c].disconnected && !s.conns[c].transportClosed
    ensures GetsIn(Apply(s, AttachCommand(c, id)), c, id)
  {
    ReachableInv(s);
    ReachableHeld(s);
    var s' := Acquire(s, c, id);
    assert Apply(s, AttachCommand(c, id)) == s';
    StillAble(s, AttachCommand(c, id), c);
    assert IdOk(s, id);
    hide InvBut, OpeningsHeld, GetsIn;
    if id in s.liveSessions {
      var r := s.liveSessions[id];
      if s.entries[r].disposing {
        DisposingGetsIn(s', c, id, r);
      } else {
        AttachGetsIn(s', c, id, r);
      }
    } else if id in s.openingSessions {
      var r := s.openingSessions[id];
      if s.entries[r].creation.Acquiring? {
        AcquiringGetsIn(s', c, id, r);
      } else {
        SnapshotGetsIn(s', c, id, r);
      }
    } else {
      FreeGetsIn(s, c, id);
    }
  }

  /** A caller that waited for a disposal that failed fails with it, and tries no more. */
  lemma FailedDisposalFailsTheCommand(s: State, c: ConnId, id: SessionId, r: Ref)
    requires MapsInRange(s) && Enabled(s, ResumeDisposal(c, id, r)) && s.entries[r].disposeFailed
    ensures Apply(s, ResumeDisposal(c, id, r)) == s.(tasks := s.tasks - multiset{AwaitDisposal(c, id, r)})
  {
  }

  /** A session that has failed takes nobody in: the command has no effect while such a session occupies the id. */
  lemma FailedIsRefused(s: State, c: ConnId, id: SessionId)
    requires MapsInRange(s) && c in s.conns && id in s.liveSessions && s.entries[s.liveSessions[id]].terminal
    ensures Apply(s, AttachCommand(c, id)) == s
  {
  }
}
