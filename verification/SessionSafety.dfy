/** Invariants of every interleaving of the session protocol. */
module SessionSafety {
  import opened Common
  import opened SessionProtocol

  /** The life of one runtime, seen on its own. */
  ghost predicate EntryOk(e: Entry, cleared: bool) {
    && e.disposeCalls <= 1
    && (e.disposeSettled ==> e.disposeCalls == 1)
    && (e.acquired <==> !e.creation.Acquiring? && (e.creation.Rejected? ==> e.disposeCalls == 1))
    && (e.creation.Acquiring? || e.creation.Snapshotting? ==> e.disposeCalls == 0)
    && (e.creation.Discarding? ==> e.disposeCalls == 1 && !e.disposeSettled)
    && (e.creation.Rejected? && e.disposeCalls == 1 ==> e.disposeSettled)
    && (!e.creation.Resolved? ==>
          e.connections == {} && e.operationCount == 0 && !e.terminal && !e.disposing && !e.subscribed)
    && (e.disposing ==> e.disposeCalls == 1 && e.operationCount == 0 && !e.subscribed)
    && (e.creation.Resolved? && !e.disposing ==> e.disposeCalls == if cleared then 1 else 0)
    && (e.creation.Resolved? && !e.subscribed ==> e.terminal || e.disposeCalls == 1)
    && (e.terminal ==> !e.subscribed)
  }

  /** The runtime may still be alive: it is being created, or its disposal has not settled. */
  ghost predicate Unsettled(e: Entry) {
    Pending(e.creation) || (e.creation.Resolved? && !e.disposeSettled)
  }

  predicate Listed(s: State, id: SessionId, r: Ref) {
    id in s.liveSessions && s.liveSessions[id] == r
  }

  predicate Opening(s: State, id: SessionId, r: Ref) {
    id in s.openingSessions && s.openingSessions[id] == r
  }

  /** Nothing protects this session any more, but its disposal has not begun. */
  ghost predicate Stranded(s: State, r: Ref)
    requires r < |s.entries|
  {
    var e := s.entries[r];
    && e.creation.Resolved? && Listed(s, e.id, r) && !e.disposing
    && e.connections == {} && e.operationCount == 0 && (e.terminal || e.idle)
  }

  /** A pending step will look at the session again. */
  ghost predicate Watched(s: State, r: Ref)
    requires r < |s.entries|
  {
    || Creator(r) in s.tasks || Attach(s.entries[r].creator, r) in s.tasks || Terminating(r) in s.tasks
    || (!s.entries[r].terminal && IdleNotice(r) in s.tasks)
  }

  /** What holds of one runtime and its traces in the maps, the tasks and the shutdown. */
  ghost predicate RefOk(s: State, r: Ref)
    requires r < |s.entries|
  {
    var e := s.entries[r];
    && EntryOk(e, s.cleared)
    && e.creator in s.conns
    && e.operationCount == s.tasks[Operation(r)]
    && (Pending(e.creation) ==> Opening(s, e.id, r) && e.id !in s.liveSessions && Creator(r) in s.tasks)
    && (e.creation.Resolved? && !e.disposeSettled && !s.cleared ==> Listed(s, e.id, r))
    && (e.creation.Snapshotting? ==> !s.cleared && (s.awaited.Some? ==> r in s.awaited.value))
  }

  ghost predicate NoOrphan(s: State, r: Ref)
    requires r < |s.entries|
  {
    !s.closing && Stranded(s, r) ==> Watched(s, r)
  }

  ghost predicate IdOk(s: State, id: SessionId) {
    && (id in s.openingSessions ==>
          var r := s.openingSessions[id]; r < |s.entries| && s.entries[r].id == id)
    && (id in s.liveSessions ==>
          var r := s.liveSessions[id];
          !s.cleared && r < |s.entries| && s.entries[r].id == id
          && s.entries[r].creation.Resolved? && !s.entries[r].disposeSettled)
  }

  ghost predicate TaskOk(s: State, t: Task) {
    t in s.tasks ==>
      && t.ref < |s.entries|
      && (t.AwaitDisposal? || t.AwaitOpening? || t.Attach? ==> t.conn in s.conns)
      && (t.Attach? ==> s.entries[t.ref].creation.Resolved?)
  }

  /** A connection of a listed session lists that session and is not disconnected. */
  ghost predicate PairOk(s: State, r: Ref, c: ConnId)
    requires r < |s.entries|
  {
    var e := s.entries[r];
    c in e.connections && Listed(s, e.id, r) ==>
      c in s.conns && !s.conns[c].disconnected && e.id in s.conns[c].sessionIds
  }

  ghost predicate FlagsOk(s: State) {
    (s.awaited.Some? ==> s.closing) && (s.cleared ==> s.awaited.Some?)
  }

  /** The invariant; between two halves of a segment one session, x, may be stranded without a watcher. */
  ghost predicate InvBut(s: State, x: int) {
    && FlagsOk(s)
    && (forall r :: 0 <= r < |s.entries| ==> RefOk(s, r))
    && (forall r :: 0 <= r < |s.entries| && r != x ==> NoOrphan(s, r))
    && (forall id :: IdOk(s, id))
    && (forall t :: TaskOk(s, t))
    && (forall r, c :: 0 <= r < |s.entries| ==> PairOk(s, r, c))
  }

  ghost predicate Inv(s: State) {
    InvBut(s, -1)
  }

  lemma InRange(s: State)
    requires Inv(s)
    ensures MapsInRange(s)
  {
    forall id | id in s.liveSessions || id in s.openingSessions ensures IdOk(s, id) {}
  }

  predicate Watcher(t: Task) {
    t.Creator? || t.Attach? || t.Terminating? || t.IdleNotice?
  }

  /** Removing a continuation can only leave its own session without a watcher. */
  lemma DropTask(s: State, t: Task)
    requires Inv(s) && t in s.tasks && !t.Operation? && t.ref < |s.entries|
    requires t.Creator? ==> !Pending(s.entries[t.ref].creation)
    ensures InvBut(Without(s, t), t.ref)
    ensures !Watcher(t) ==> Inv(Without(s, t))
  {
    var s' := Without(s, t);
    forall r | 0 <= r < |s'.entries| ensures RefOk(s', r) { assert RefOk(s, r); }
    forall r | 0 <= r < |s'.entries| && (r == t.ref ==> !Watcher(t)) ensures NoOrphan(s', r) { assert NoOrphan(s, r); }
    forall id ensures IdOk(s', id) { assert IdOk(s, id); }
    forall u ensures TaskOk(s', u) { assert TaskOk(s, u); }
    forall r, c | 0 <= r < |s'.entries| ensures PairOk(s', r, c) { assert PairOk(s, r, c); }
  }

  lemma AddTask(s: State, t: Task, x: int)
    requires InvBut(s, x) && !t.Operation? && TaskOk(With(s, t), t)
    ensures InvBut(With(s, t), x)
  {
    var s' := With(s, t);
    forall r | 0 <= r < |s'.entries| ensures RefOk(s', r) { assert RefOk(s, r); }
    forall r | 0 <= r < |s'.entries| && r != x ensures NoOrphan(s', r) { assert NoOrphan(s, r); }
    forall id ensures IdOk(s', id) { assert IdOk(s, id); }
    forall u ensures TaskOk(s', u) { assert TaskOk(s, u); }
    forall r, c | 0 <= r < |s'.entries| ensures PairOk(s', r, c) { assert PairOk(s, r, c); }
  }

  /** The change keeps the session's place in the maps and the tasks. */
  ghost predicate SamePlace(s: State, e: Entry, e': Entry) {
    && e'.id == e.id && e'.creator == e.creator && e'.operationCount == e.operationCount
    && EntryOk(e', s.cleared) && e'.connections <= e.connections
    && (e'.creation == e.creation || (!Pending(e'.creation) && !e'.creation.Resolved?)
        || (e'.creation.Discarding? && Pending(e.creation))
        || (e'.creation.Snapshotting? && e.creation.Acquiring? && !s.closing))
    && (e.creation.Resolved? ==> e'.creation.Resolved? && e'.disposeSettled == e.disposeSettled)
  }

  lemma ChangeEntry(s: State, x: Ref, e: Entry)
    requires Inv(s) || InvBut(s, x)
    requires x < |s.entries| && SamePlace(s, s.entries[x], e)
    ensures InvBut(SetEntry(s, x, e), x)
  {
    var s' := SetEntry(s, x, e);
    forall r | 0 <= r < |s'.entries| ensures RefOk(s', r) { assert RefOk(s, r); }
    forall r | 0 <= r < |s'.entries| && r != x ensures NoOrphan(s', r) { assert NoOrphan(s, r); }
    forall id ensures IdOk(s', id) { assert IdOk(s, id); }
    forall u ensures TaskOk(s', u) { assert TaskOk(s, u); }
    forall r, c | 0 <= r < |s'.entries| ensures PairOk(s', r, c) { assert PairOk(s, r, c); }
  }

  /** Looking at the session restores the invariant: if nothing protects it, its disposal begins. */
  lemma Check(s: State, x: Ref)
    requires InvBut(s, x) && x < |s.entries|
    ensures Inv(DisposeCheck(s, x))
  {
    assert RefOk(s, x);
    ChangeEntry(s, x, MaybeDispose(s.entries[x], s.closing));
  }

  lemma NewCreation(s: State, c: ConnId, id: SessionId)
    requires Inv(s) && MapsInRange(s) && c in s.conns && id !in s.liveSessions && id !in s.openingSessions
    ensures Inv(Acquire(s, c, id))
  {
    var s' := Acquire(s, c, id);
    assert TaskOk(s, Operation(|s.entries|));
    forall r | 0 <= r < |s'.entries| ensures RefOk(s', r) {
      if r < |s.entries| {
        assert RefOk(s, r) && IdOk(s, s.entries[r].id);
      }
    }
    forall r | 0 <= r < |s'.entries| ensures NoOrphan(s', r) { if r < |s.entries| { assert NoOrphan(s, r); } }
    forall k ensures IdOk(s', k) { assert IdOk(s, k); }
    forall u ensures TaskOk(s', u) { assert TaskOk(s, u); }
    forall r, c | 0 <= r < |s'.entries| ensures PairOk(s', r, c) { if r < |s.entries| { assert PairOk(s, r, c); } }
  }

  lemma AcquireKeeps(s: State, c: ConnId, id: SessionId)
    requires Inv(s) && MapsInRange(s) && c in s.conns
    ensures Inv(Acquire(s, c, id))
  {
    assert IdOk(s, id);
    if id in s.liveSessions {
      var r := s.liveSessions[id];
      if !s.entries[r].terminal {
        AddTask(s, if s.entries[r].disposing then AwaitDisposal(c, id, r) else Attach(c, r), -1);
      }
    } else if id in s.openingSessions {
      AddTask(s, AwaitOpening(c, s.openingSessions[id]), -1);
    } else {
      NewCreation(s, c, id);
    }
  }

  /** Only the connection table changes, and no connection of a listed session loses anything. */
  lemma ChangeConnection(s: State, c: ConnId, conn: Conn)
    requires Inv(s)
    requires c in s.conns ==> conn.disconnected == s.conns[c].disconnected
    requires c in s.conns ==> forall id <- s.conns[c].sessionIds - conn.sessionIds :: id !in s.liveSessions
    ensures Inv(s.(conns := s.conns[c := conn]))
  {
    var s' := s.(conns := s.conns[c := conn]);
    forall r | 0 <= r < |s'.entries| ensures RefOk(s', r) { assert RefOk(s, r); }
    forall r | 0 <= r < |s'.entries| ensures NoOrphan(s', r) { assert NoOrphan(s, r); }
    forall id ensures IdOk(s', id) { assert IdOk(s, id); }
    forall u ensures TaskOk(s', u) { assert TaskOk(s, u); }
    forall r, d | 0 <= r < |s'.entries| ensures PairOk(s', r, d) { assert PairOk(s, r, d); }
  }

  lemma AttachKeeps(s: State, c: ConnId, x: Ref)
    requires InvBut(s, x) && x < |s.entries| && c in s.conns && !s.conns[c].disconnected
    requires s.entries[x].creation.Resolved?
    ensures Inv(AttachTo(s, c, x))
  {
    var s' := AttachTo(s, c, x);
    forall r | 0 <= r < |s'.entries| ensures RefOk(s', r) { assert RefOk(s, r); }
    forall r | 0 <= r < |s'.entries| ensures NoOrphan(s', r) { if r != x { assert NoOrphan(s, r); } }
    forall id ensures IdOk(s', id) { assert IdOk(s, id); }
    forall u ensures TaskOk(s', u) { assert TaskOk(s, u); }
    forall r, d | 0 <= r < |s'.entries| ensures PairOk(s', r, d) { assert PairOk(s, r, d); }
  }

  lemma LeaveOne(s: State, c: ConnId, id: SessionId)
    requires Inv(s) && MapsInRange(s) && c in s.conns && id in s.liveSessions
    ensures var x := s.liveSessions[id];
            InvBut(SetEntry(s, x, s.entries[x].(connections := s.entries[x].connections - {c}))
                   .(conns := s.conns[c := s.conns[c].(sessionIds := s.conns[c].sessionIds - {id})]), x)
  {
    var x := s.liveSessions[id];
    var s' := SetEntry(s, x, s.entries[x].(connections := s.entries[x].connections - {c}))
              .(conns := s.conns[c := s.conns[c].(sessionIds := s.conns[c].sessionIds - {id})]);
    assert IdOk(s, id);
    forall r | 0 <= r < |s'.entries| ensures RefOk(s', r) { assert RefOk(s, r); }
    forall r | 0 <= r < |s'.entries| && r != x ensures NoOrphan(s', r) { assert NoOrphan(s, r); }
    forall k ensures IdOk(s', k) { assert IdOk(s, k); }
    forall u ensures TaskOk(s', u) { assert TaskOk(s, u); }
    forall r, d | 0 <= r < |s'.entries| ensures PairOk(s', r, d) { assert PairOk(s, r, d); }
  }

  lemma DetachKeeps(s: State, c: ConnId, id: SessionId)
    requires Inv(s) && MapsInRange(s) && c in s.conns
    ensures Inv(DetachFrom(s, c, id))
  {
    if id in s.conns[c].sessionIds {
      if id !in s.liveSessions {
        ChangeConnection(s, c, s.conns[c].(sessionIds := s.conns[c].sessionIds - {id}));
      } else {
        var x := s.liveSessions[id];
        var e := s.entries[x].(connections := s.entries[x].connections - {c});
        LeaveOne(s, c, id);
        var t := SetEntry(s, x, e).(conns := s.conns[c := s.conns[c].(sessionIds := s.conns[c].sessionIds - {id})]);
        if e.connections != {} && !e.terminal && !e.disposing {
          assert Inv(t);
          AddTask(t, DetachBroadcast(x), -1);
        } else {
          Check(t, x);
        }
      }
    }
  }

  lemma DisconnectKeeps(s: State, c: ConnId)
    requires Inv(s) && MapsInRange(s) && c in s.conns
    ensures Inv(DisconnectFrom(s, c))
  {
    var s' := DisconnectFrom(s, c);
    if !s.conns[c].disconnected {
      forall r | 0 <= r < |s'.entries| ensures RefOk(s', r) { assert RefOk(s, r); }
      forall r | 0 <= r < |s'.entries| ensures NoOrphan(s', r) { assert NoOrphan(s, r); }
      forall id ensures IdOk(s', id) { assert IdOk(s, id); }
      forall u ensures TaskOk(s', u) { assert TaskOk(s, u); }
      forall r, d | 0 <= r < |s'.entries| ensures PairOk(s', r, d) { assert PairOk(s, r, d); }
    }
  }

  lemma OperationKeeps(s: State, x: Ref)
    requires Inv(s) && x < |s.entries| && s.entries[x].creation.Resolved? && !s.entries[x].disposing
    ensures Inv(With(SetEntry(s, x, s.entries[x].(operationCount := s.entries[x].operationCount + 1)), Operation(x)))
  {
    var s' := With(SetEntry(s, x, s.entries[x].(operationCount := s.entries[x].operationCount + 1)), Operation(x));
    assert RefOk(s, x);
    forall r | 0 <= r < |s'.entries| ensures RefOk(s', r) { assert RefOk(s, r); }
    forall r | 0 <= r < |s'.entries| ensures NoOrphan(s', r) { assert NoOrphan(s, r); }
    forall id ensures IdOk(s', id) { assert IdOk(s, id); }
    forall u ensures TaskOk(s', u) { assert TaskOk(s, u); }
    forall r, c | 0 <= r < |s'.entries| ensures PairOk(s', r, c) { assert PairOk(s, r, c); }
  }

  lemma FinishKeeps(s: State, x: Ref)
    requires Inv(s) && x < |s.entries| && Operation(x) in s.tasks
    ensures var e := s.entries[x];
            InvBut(SetEntry(Without(s, Operation(x)), x, e.(operationCount := e.operationCount - 1)), x)
  {
    var s' := SetEntry(Without(s, Operation(x)), x, s.entries[x].(operationCount := s.entries[x].operationCount - 1));
    assert RefOk(s, x);
    forall r | 0 <= r < |s'.entries| ensures RefOk(s', r) { assert RefOk(s, r); }
    forall r | 0 <= r < |s'.entries| && r != x ensures NoOrphan(s', r) { assert NoOrphan(s, r); }
    forall id ensures IdOk(s', id) { assert IdOk(s, id); }
    forall u ensures TaskOk(s', u) { assert TaskOk(s, u); }
    forall r, c | 0 <= r < |s'.entries| ensures PairOk(s', r, c) { assert PairOk(s, r, c); }
  }

  lemma SnapshotGoodKeeps(s: State, x: Ref)
    requires Inv(s) && MapsInRange(s) && x < |s.entries| && s.entries[x].creation.Snapshotting?
    ensures Inv(Apply(s, SnapshotGood(x)))
  {
    var s' := Apply(s, SnapshotGood(x));
    assert RefOk(s, x);
    forall r | 0 <= r < |s'.entries| ensures RefOk(s', r) { assert RefOk(s, r); }
    forall r | 0 <= r < |s'.entries| ensures NoOrphan(s', r) { assert NoOrphan(s, r); }
    forall id ensures IdOk(s', id) { assert IdOk(s, id); }
    forall u ensures TaskOk(s', u) { assert TaskOk(s, u); }
    forall r, c | 0 <= r < |s'.entries| ensures PairOk(s', r, c) { assert PairOk(s, r, c); }
  }

  lemma ForgetOpening(s: State, x: int, id: SessionId)
    requires InvBut(s, x) && MapsInRange(s)
    requires id in s.openingSessions ==> !Pending(s.entries[s.openingSessions[id]].creation)
    ensures InvBut(s.(openingSessions := s.openingSessions - {id}), x)
  {
    var s' := s.(openingSessions := s.openingSessions - {id});
    forall r | 0 <= r < |s'.entries| ensures RefOk(s', r) { assert RefOk(s, r); }
    forall r | 0 <= r < |s'.entries| && r != x ensures NoOrphan(s', r) { assert NoOrphan(s, r); }
    forall k ensures IdOk(s', k) { assert IdOk(s, k); }
    forall u ensures TaskOk(s', u) { assert TaskOk(s, u); }
    forall r, c | 0 <= r < |s'.entries| ensures PairOk(s', r, c) { assert PairOk(s, r, c); }
  }

  lemma ResumeCreatorKeeps(s: State, x: Ref)
    requires Inv(s) && MapsInRange(s) && EnabledCreation(s, ResumeCreator(x))
    ensures Inv(ApplyCreation(s, ResumeCreator(x)))
  {
    var e := s.entries[x];
    var t := Without(s, Creator(x));
    var u := if Opening(s, e.id, x) then t.(openingSessions := s.openingSessions - {e.id}) else t;
    PromiseKeeps(s, x, u);
    if e.creation.Resolved? {
      AddTask(u, Attach(e.creator, x), x);
      assert NoOrphan(With(u, Attach(e.creator, x)), x);
    } else {
      assert NoOrphan(u, x);
    }
  }

  lemma PromiseKeeps(s: State, x: Ref, u: State)
    requires Inv(s) && MapsInRange(s)
    requires x < |s.entries| && Creator(x) in s.tasks && !Pending(s.entries[x].creation)
    requires var t := Without(s, Creator(x));
             u == if Opening(s, s.entries[x].id, x) then t.(openingSessions := s.openingSessions - {s.entries[x].id})
                  else t
    ensures InvBut(u, x) && RefOk(s, x) && TaskOk(u, Attach(s.entries[x].creator, x))
  {
    assert RefOk(s, x);
    DropTask(s, Creator(x));
    if Opening(s, s.entries[x].id, x) {
      ForgetOpening(Without(s, Creator(x)), x, s.entries[x].id);
    }
  }

  lemma DisposeSettledKeeps(s: State, x: Ref, failed: bool)
    requires Inv(s) && MapsInRange(s) && Enabled(s, DisposeSettled(x, failed))
    ensures Inv(Apply(s, DisposeSettled(x, failed)))
  {
    var s' := Apply(s, DisposeSettled(x, failed));
    assert RefOk(s, x) && IdOk(s, s.entries[x].id);
    forall r | 0 <= r < |s'.entries| ensures RefOk(s', r) { assert RefOk(s, r); }
    forall r | 0 <= r < |s'.entries| ensures NoOrphan(s', r) { assert NoOrphan(s, r); }
    forall id ensures IdOk(s', id) { assert IdOk(s, id); }
    forall u ensures TaskOk(s', u) { assert TaskOk(s, u); }
    forall r, c | 0 <= r < |s'.entries| ensures PairOk(s', r, c) { assert PairOk(s, r, c); }
  }

  lemma ClearKeeps(s: State)
    requires Inv(s) && MapsInRange(s) && Enabled(s, ClearSessions)
    ensures Inv(Apply(s, ClearSessions))
  {
    var s' := Apply(s, ClearSessions);
    forall r | 0 <= r < |s'.entries| ensures RefOk(s', r) { assert RefOk(s, r) && IdOk(s, s.entries[r].id); }
    forall r | 0 <= r < |s'.entries| ensures NoOrphan(s', r) { assert NoOrphan(s, r); }
    forall id ensures IdOk(s', id) { assert IdOk(s, id); }
    forall u ensures TaskOk(s', u) { assert TaskOk(s, u); }
    forall r, c | 0 <= r < |s'.entries| ensures PairOk(s', r, c) { assert PairOk(s, r, c); }
  }

  lemma AwaitOpeningsKeeps(s: State)
    requires Inv(s) && Enabled(s, AwaitOpenings)
    ensures Inv(s.(awaited := Some(s.openingSessions.Values)))
  {
    var s' := s.(awaited := Some(s.openingSessions.Values));
    forall r | 0 <= r < |s'.entries| ensures RefOk(s', r) { assert RefOk(s, r); }
    forall r | 0 <= r < |s'.entries| ensures NoOrphan(s', r) { assert NoOrphan(s, r); }
    forall id ensures IdOk(s', id) { assert IdOk(s, id); }
    forall u ensures TaskOk(s', u) { assert TaskOk(s, u); }
    forall r, c | 0 <= r < |s'.entries| ensures PairOk(s', r, c) { assert PairOk(s, r, c); }
  }
}
