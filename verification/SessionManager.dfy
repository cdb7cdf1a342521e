/**
 * The session manager with its fields updated in place, one method for each segment between two awaits.
 * Every method takes exactly the step of the protocol that models it.
 */
module SessionManager {
  import opened Common
  import opened P = SessionProtocol

  class LiveSessionManager {
    var conns: map<ConnId, Conn>
    var liveSessions: map<SessionId, Ref>
    var openingSessions: map<SessionId, Ref>
    /** The session objects; a Ref is the identity of one. */
    var entries: seq<Entry>
    /** The continuations the event loop holds. */
    var tasks: multiset<Task>
    var closing: bool
    var awaited: Option<set<Ref>>
    var cleared: bool

    ghost function View(): State
      reads this
    {
      State(conns, liveSessions, openingSessions, entries, tasks, closing, awaited, cleared)
    }

    constructor ()
      ensures View() == INITIAL
    {
      conns, liveSessions, openingSessions, entries := map[], map[], map[], [];
      tasks, closing, awaited, cleared := multiset{}, false, None, false;
    }

    method Acquire(c: ConnId, id: SessionId)
      requires MapsInRange(View())
      modifies this
      ensures View() == P.Acquire(old(View()), c, id)
    {
      if id in liveSessions {
        var existing := liveSessions[id];
        if entries[existing].terminal {
          return;
        }
        if entries[existing].disposing {
          tasks := tasks + multiset{AwaitDisposal(c, id, existing)};
          return;
        }
        tasks := tasks + multiset{Attach(c, existing)};
        return;
      }
      if id in openingSessions {
        tasks := tasks + multiset{AwaitOpening(c, openingSessions[id])};
        return;
      }
      var pending := |entries|;
      entries := entries + [NewEntry(id, c)];
      openingSessions := openingSessions[id := pending];
      tasks := tasks + multiset{Creator(pending)};
    }

    method MaybeDispose(r: Ref)
      requires r < |entries|
      modifies this`entries
      ensures View() == DisposeCheck(old(View()), r)
    {
      var live := entries[r];
      if closing || !live.creation.Resolved? || live.disposing || |live.connections| > 0 || live.operationCount > 0
         || (!live.terminal && !live.idle)
      {
        assert entries[r := live] == entries;
        return;
      }
      live := live.(subscribed := false);
      live := live.(disposing := true, disposeCalls := live.disposeCalls + 1);
      entries := entries[r := live];
    }

    method ResumeAttach(c: ConnId, r: Ref)
      requires MapsInRange(View()) && Enabled(View(), P.ResumeAttach(c, r))
      modifies this
      ensures View() == Apply(old(View()), P.ResumeAttach(c, r))
    {
      tasks := tasks - multiset{Attach(c, r)};
      var connection := conns[c];
      if connection.disconnected || !connection.ready || connection.transportClosed {
        MaybeDispose(r);
        return;
      }
      conns := conns[c := connection.(sessionIds := connection.sessionIds + {entries[r].id})];
      entries := entries[r := entries[r].(connections := entries[r].connections + {c})];
    }

    /** The continuation of the caller that started create(): forget the promise, then go on to attach. */
    method ResumeCreator(r: Ref)
      requires MapsInRange(View()) && Enabled(View(), P.ResumeCreator(r))
      modifies this
      ensures View() == Apply(old(View()), P.ResumeCreator(r))
    {
      tasks := tasks - multiset{Creator(r)};
      var id := entries[r].id;
      if id in openingSessions && openingSessions[id] == r {
        openingSessions := openingSessions - {id};
      }
      if entries[r].creation.Resolved? {
        tasks := tasks + multiset{Attach(entries[r].creator, r)};
      }
    }

    method RuntimeAcquired(r: Ref)
      requires MapsInRange(View()) && Enabled(View(), P.RuntimeAcquired(r))
      modifies this
      ensures View() == Apply(old(View()), P.RuntimeAcquired(r))
    {
      entries := entries[r := entries[r].(acquired := true)];
      if closing {
        entries := entries[r := entries[r].(creation := Discarding, disposeCalls := entries[r].disposeCalls + 1)];
      } else {
        entries := entries[r := entries[r].(creation := Snapshotting)];
      }
    }

    method SnapshotGood(r: Ref)
      requires MapsInRange(View()) && Enabled(View(), P.SnapshotGood(r))
      modifies this
      ensures View() == Apply(old(View()), P.SnapshotGood(r))
    {
      entries := entries[r := entries[r].(subscribed := true)];
      liveSessions := liveSessions[entries[r].id := r];
      entries := entries[r := entries[r].(creation := Resolved)];
    }

    /** A bad snapshot, or one of another session, discards the runtime. */
    method SnapshotBad(r: Ref)
      requires MapsInRange(View()) && Enabled(View(), P.SnapshotBad(r))
      modifies this
      ensures View() == Apply(old(View()), P.SnapshotBad(r))
    {
      entries := entries[r := entries[r].(creation := Discarding, disposeCalls := entries[r].disposeCalls + 1)];
    }

    /** create() rejects: the runtime could not be had, or has been discarded. */
    method CreationFails(r: Ref, discarded: bool)
      requires MapsInRange(View()) && Enabled(View(), if discarded then DiscardSettled(r) else AcquireFailed(r))
      modifies this
      ensures View() == Apply(old(View()), if discarded then DiscardSettled(r) else AcquireFailed(r))
    {
      if discarded {
        entries := entries[r := entries[r].(disposeSettled := true)];
      }
      entries := entries[r := entries[r].(creation := Rejected)];
    }

    /** A caller that shared the opening goes on with its result, whatever has become of the session since. */
    method ResumeOpening(c: ConnId, r: Ref)
      requires MapsInRange(View()) && Enabled(View(), P.ResumeOpening(c, r))
      modifies this
      ensures View() == Apply(old(View()), P.ResumeOpening(c, r))
    {
      tasks := tasks - multiset{AwaitOpening(c, r)};
      if entries[r].creation.Resolved? {
        tasks := tasks + multiset{Attach(c, r)};
      }
    }

    /** A caller that waited for a disposal tries again, unless the disposal failed. */
    method ResumeDisposal(c: ConnId, id: SessionId, r: Ref)
      requires MapsInRange(View()) && Enabled(View(), P.ResumeDisposal(c, id, r))
      modifies this
      ensures View() == Apply(old(View()), P.ResumeDisposal(c, id, r))
    {
      tasks := tasks - multiset{AwaitDisposal(c, id, r)};
      if !entries[r].disposeFailed {
        Acquire(c, id);
      }
    }

    /** The disposal check at the end of a detach's broadcast and of a termination. */
    method ResumeDetach(r: Ref, failed: bool)
      requires MapsInRange(View()) && EnabledOperation(View(), P.ResumeDetach(r, failed))
      modifies this
      ensures View() == ApplyOperation(old(View()), P.ResumeDetach(r, failed))
    {
      tasks := tasks - multiset{DetachBroadcast(r)};
      if !failed {
        MaybeDispose(r);
      }
    }

    method ResumeTerminate(r: Ref)
      requires MapsInRange(View()) && EnabledOperation(View(), P.ResumeTerminate(r))
      modifies this
      ensures View() == ApplyOperation(old(View()), P.ResumeTerminate(r))
    {
      tasks := tasks - multiset{Terminating(r)};
      MaybeDispose(r);
    }

    /** close(): the openings of this moment are awaited, then the map is cleared. */
    method AwaitOpenings()
      requires EnabledShutdown(View(), P.AwaitOpenings)
      modifies this
      ensures View() == ApplyShutdown(old(View()), P.AwaitOpenings)
    {
      awaited := Some(openingSessions.Values);
    }

    method Detach(c: ConnId, id: SessionId)
      requires MapsInRange(View()) && c in conns
      modifies this
      ensures View() == Apply(old(View()), DetachCommand(c, id))
    {
      if id !in conns[c].sessionIds {
        return;
      }
      conns := conns[c := conns[c].(sessionIds := conns[c].sessionIds - {id})];
      if id !in liveSessions {
        return;
      }
      var r := liveSessions[id];
      entries := entries[r := entries[r].(connections := entries[r].connections - {c})];
      if |entries[r].connections| > 0 && !entries[r].terminal && !entries[r].disposing {
        tasks := tasks + multiset{DetachBroadcast(r)};
      } else {
        MaybeDispose(r);
      }
    }

    method StartOperation(c: ConnId, id: SessionId)
      requires MapsInRange(View()) && c in conns
      modifies this
      ensures View() == Apply(old(View()), P.StartOperation(c, id))
    {
      if id !in conns[c].sessionIds || id !in liveSessions {
        return;
      }
      var live := liveSessions[id];
      if entries[live].terminal || entries[live].disposing {
        return;
      }
      entries := entries[live := entries[live].(operationCount := entries[live].operationCount + 1)];
      tasks := tasks + multiset{Operation(live)};
    }

    method FinishOperation(r: Ref)
      requires MapsInRange(View()) && EnabledOperation(View(), P.FinishOperation(r))
      modifies this
      ensures View() == ApplyOperation(old(View()), P.FinishOperation(r))
    {
      tasks := tasks - multiset{Operation(r)};
      entries := entries[r := entries[r].(operationCount := entries[r].operationCount - 1)];
      MaybeDispose(r);
    }

    method Terminate(r: Ref)
      requires MapsInRange(View()) && Enabled(View(), RuntimeError(r))
      modifies this
      ensures View() == Apply(old(View()), RuntimeError(r))
    {
      if entries[r].terminal {
        return;
      }
      entries := entries[r := entries[r].(terminal := true)];
      entries := entries[r := entries[r].(subscribed := false)];
      entries := entries[r := entries[r].(terminated := entries[r].connections)];
      tasks := tasks + multiset{Terminating(r)};
    }

    /** The settled disposal: the session leaves the map if it is still there. */
    method DisposeSettled(r: Ref, failed: bool)
      requires MapsInRange(View()) && Enabled(View(), P.DisposeSettled(r, failed))
      modifies this
      ensures View() == Apply(old(View()), P.DisposeSettled(r, failed))
    {
      var id := entries[r].id;
      entries := entries[r := entries[r].(disposeSettled := true, disposeFailed := failed)];
      if entries[r].disposing && id in liveSessions && liveSessions[id] == r {
        liveSessions := liveSessions - {id};
      }
    }

    /** The connection leaves every session it lists, then each of them is looked at. */
    method Disconnect(c: ConnId)
      requires MapsInRange(View()) && c in conns
      requires forall id <- liveSessions :: entries[liveSessions[id]].id == id
      modifies this
      ensures View() == DisconnectFrom(old(View()), c)
    {
      if conns[c].disconnected {
        return;
      }
      ghost var start := View();
      var ids := conns[c].sessionIds;
      conns := conns[c := Conn(false, true, conns[c].transportClosed, {})];
      LeaveAll(c, ids, start);
      CheckAll(c, ids, start);
      assert entries == DisconnectFrom(start, c).entries;
    }

    ghost function Left(start: State, c: ConnId, r: Ref): Entry
      requires r < |start.entries|
    {
      start.entries[r].(connections := start.entries[r].connections - {c})
    }

    ghost predicate Unchanged(start: State)
      reads this
    {
      View() == start.(conns := conns, entries := entries) && |entries| == |start.entries|
    }

    method LeaveAll(c: ConnId, ids: set<SessionId>, ghost start: State)
      requires MapsInRange(start) && c in start.conns && ids == start.conns[c].sessionIds
      requires forall id <- start.liveSessions :: start.entries[start.liveSessions[id]].id == id
      requires Unchanged(start) && entries == start.entries
      modifies this`entries
      ensures Unchanged(start)
      ensures forall r :: 0 <= r < |entries| ==>
        entries[r] == if Leaves(start, c, r) then Left(start, c, r) else start.entries[r]
    {
      var rest := ids;
      while rest != {}
        invariant rest <= ids && Unchanged(start)
        invariant forall r :: 0 <= r < |entries| ==>
          entries[r] == if Leaves(start, c, r) && start.entries[r].id !in rest then Left(start, c, r)
                        else start.entries[r]
        decreases |rest|
      {
        var id :| id in rest;
        rest := rest - {id};
        if id in liveSessions {
          var r := liveSessions[id];
          entries := entries[r := entries[r].(connections := entries[r].connections - {c})];
        }
      }
    }

    method CheckAll(c: ConnId, ids: set<SessionId>, ghost start: State)
      requires MapsInRange(start) && c in start.conns && ids == start.conns[c].sessionIds
      requires forall id <- start.liveSessions :: start.entries[start.liveSessions[id]].id == id
      requires Unchanged(start)
      requires forall r :: 0 <= r < |entries| ==>
        entries[r] == if Leaves(start, c, r) then Left(start, c, r) else start.entries[r]
      modifies this`entries
      ensures Unchanged(start)
      ensures forall r :: 0 <= r < |entries| ==> entries[r] == Leave(start, c, r)
    {
      var rest := ids;
      while rest != {}
        invariant rest <= ids && Unchanged(start)
        invariant forall r :: 0 <= r < |entries| ==>
          entries[r] == if Leaves(start, c, r) && start.entries[r].id in rest then Left(start, c, r)
                        else Leave(start, c, r)
        decreases |rest|
      {
        var id :| id in rest;
        rest := rest - {id};
        if id in liveSessions {
          MaybeDispose(liveSessions[id]);
        }
      }
    }

    /** close() after the openings have settled: empty the map and dispose of what is not being disposed. */
    method ClearSessions()
      requires MapsInRange(View()) && EnabledShutdown(View(), P.ClearSessions)
      requires forall id <- liveSessions :: entries[liveSessions[id]].id == id
      modifies this
      ensures View() == ApplyShutdown(old(View()), P.ClearSessions)
    {
      ghost var start := View();
      var sessions := liveSessions;
      liveSessions, cleared := map[], true;
      CloseAll(sessions, start);
      assert entries == ApplyShutdown(start, P.ClearSessions).entries;
    }

    static lemma AbsentNotClosed(start: State)
      requires MapsInRange(start)
      ensures forall r :: 0 <= r < |start.entries| && start.entries[r].id !in start.liveSessions ==>
              Closed(start, r) == start.entries[r]
    {
    }

    /** Of the sessions with the id, close() touches just the one in the map. */
    static lemma OnlyOneClosed(start: State, id: SessionId)
      requires MapsInRange(start) && id in start.liveSessions && start.entries[start.liveSessions[id]].id == id
      ensures forall r :: 0 <= r < |start.entries| && start.entries[r].id == id ==>
                Closed(start, r) == if r == start.liveSessions[id] && !start.entries[r].disposing
                                    then start.entries[r].(subscribed := false,
                                                           disposeCalls := start.entries[r].disposeCalls + 1)
                                    else start.entries[r]
    {
    }

    method CloseAll(sessions: map<SessionId, Ref>, ghost start: State)
      requires MapsInRange(start) && sessions == start.liveSessions && entries == start.entries
      requires forall id <- sessions :: start.entries[sessions[id]].id == id
      modifies this`entries
      ensures |entries| == |start.entries|
      ensures forall r :: 0 <= r < |entries| ==> entries[r] == Closed(start, r)
    {
      AbsentNotClosed(start);
      hide Closed;
      var rest := sessions.Keys;
      while rest != {}
        invariant rest <= sessions.Keys && |entries| == |start.entries|
        invariant forall r :: 0 <= r < |entries| ==>
          entries[r] == if start.entries[r].id in rest then start.entries[r] else Closed(start, r)
        decreases |rest|
      {
        var id :| id in rest;
        rest := rest - {id};
        var r := sessions[id];
        OnlyOneClosed(start, id);
        if !entries[r].disposing {
          entries := entries[r := entries[r].(subscribed := false, disposeCalls := entries[r].disposeCalls + 1)];
        }
      }
    }
  }
}
