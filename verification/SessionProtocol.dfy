/**
 * Ownership of live sessions on the server, as a state machine. Every segment of code between two
 * awaits is one event; pending continuations are tasks, and any enabled event may happen next.
 */
module SessionProtocol {
  import opened Common

  type SessionId = string
  type ConnId = nat
  /** Names one call of create(): its promise, its runtime and its live session. */
  type Ref = nat

  datatype Conn = Conn(ready: bool, disconnected: bool, transportClosed: bool, sessionIds: set<SessionId>)

  /** Where a call of create() stands. The promise is settled once it is Resolved or Rejected. */
  datatype Creation = Acquiring | Snapshotting | Discarding | Resolved | Rejected

  datatype Entry = Entry(
    id: SessionId, creator: ConnId, creation: Creation,
    acquired: bool, disposeCalls: nat, disposeSettled: bool, disposeFailed: bool, idle: bool,
    connections: set<ConnId>, operationCount: int, terminal: bool, disposing: bool, subscribed: bool,
    terminated: set<ConnId>)

  /** A continuation waiting to run. */
  datatype Task =
    | AwaitDisposal(conn: ConnId, id: SessionId, ref: Ref) // acquire: await existing.disposing, then retry
    | AwaitOpening(conn: ConnId, ref: Ref)                 // acquire: return opening
    | Creator(ref: Ref)                                    // acquire: await pending, then clean up
    | Attach(conn: ConnId, ref: Ref)                       // acquire has returned; attach comes next
    | DetachBroadcast(ref: Ref)                            // detach: await broadcastSnapshot, then maybeDispose
    | Operation(ref: Ref)                                  // runOperation: await operation() and its broadcast
    | Terminating(ref: Ref)                                // terminate: await closing and disconnecting
    | IdleNotice(ref: Ref)                                 // the runtime's event announcing its return to idle

  datatype State = State(
    conns: map<ConnId, Conn>,
    liveSessions: map<SessionId, Ref>,
    openingSessions: map<SessionId, Ref>,
    entries: seq<Entry>,
    tasks: multiset<Task>,
    closing: bool,
    awaited: Option<set<Ref>>, // the promises close() is waiting for
    cleared: bool)             // close() has emptied liveSessions

  datatype Event =
    | Connect(conn: ConnId)
    | ConnectionChanges(conn: ConnId, ready: bool, transportClosed: bool)
    | AttachCommand(conn: ConnId, id: SessionId)
    | ResumeDisposal(conn: ConnId, id: SessionId, ref: Ref)
    | ResumeOpening(conn: ConnId, ref: Ref)
    | ResumeCreator(ref: Ref)
    | RuntimeAcquired(ref: Ref)
    | AcquireFailed(ref: Ref)
    | SnapshotGood(ref: Ref)
    | SnapshotBad(ref: Ref)
    | DiscardSettled(ref: Ref)
    | ResumeAttach(conn: ConnId, ref: Ref)
    | DetachCommand(conn: ConnId, id: SessionId)
    | ResumeDetach(ref: Ref, failed: bool)
    | StartOperation(conn: ConnId, id: SessionId)
    | FinishOperation(ref: Ref)
    | RuntimeError(ref: Ref)
    | ResumeTerminate(ref: Ref)
    | RuntimeEvent(ref: Ref)
    | PhaseChanges(ref: Ref, idle: bool)
    | DeliverIdleNotice(ref: Ref)
    | Disconnect(conn: ConnId)
    | DisposeSettled(ref: Ref, failed: bool)
    | BeginShutdown
    | AwaitOpenings
    | ClearSessions

  const INITIAL := State(map[], map[], map[], [], multiset{}, false, None, false)

  predicate Pending(c: Creation) { c.Acquiring? || c.Snapshotting? || c.Discarding? }

  ghost predicate MapsInRange(s: State) {
    && (forall id <- s.liveSessions :: s.liveSessions[id] < |s.entries|)
    && (forall id <- s.openingSessions :: s.openingSessions[id] < |s.entries|)
  }

  predicate ByConnection(e: Event) {
    || e.Connect? || e.ConnectionChanges? || e.AttachCommand? || e.ResumeDisposal? || e.ResumeAttach?
    || e.DetachCommand? || e.Disconnect?
  }

  predicate ByCreation(e: Event) {
    || e.ResumeOpening? || e.ResumeCreator? || e.RuntimeAcquired? || e.AcquireFailed? || e.SnapshotGood?
    || e.SnapshotBad? || e.DiscardSettled?
  }

  predicate ByRuntime(e: Event) {
    e.RuntimeError? || e.RuntimeEvent? || e.PhaseChanges? || e.DeliverIdleNotice?
  }

  predicate ByShutdown(e: Event) {
    e.DisposeSettled? || e.BeginShutdown? || e.AwaitOpenings? || e.ClearSessions?
  }

  predicate Enabled(s: State, e: Event) {
    if ByConnection(e) then EnabledConnection(s, e)
    else if ByCreation(e) then EnabledCreation(s, e)
    else if ByRuntime(e) then EnabledRuntime(s, e)
    else if ByShutdown(e) then EnabledShutdown(s, e)
    else EnabledOperation(s, e)
  }

  predicate EnabledConnection(s: State, e: Event)
    requires ByConnection(e)
  {
    match e
    case Connect(c) => c !in s.conns
    case ConnectionChanges(c, _, _) => c in s.conns && !s.conns[c].disconnected
    case AttachCommand(c, _) => c in s.conns
    case ResumeDisposal(c, id, r) => AwaitDisposal(c, id, r) in s.tasks && r < |s.entries|
      && s.entries[r].disposeSettled
    case ResumeAttach(c, r) => Attach(c, r) in s.tasks && c in s.conns && r < |s.entries|
    case DetachCommand(c, _) => c in s.conns
    case Disconnect(c) => c in s.conns
  }

  predicate EnabledCreation(s: State, e: Event)
    requires ByCreation(e)
  {
    && e.ref < |s.entries|
    && var creation := s.entries[e.ref].creation;
       match e
       case ResumeOpening(c, r) => AwaitOpening(c, r) in s.tasks && !Pending(creation)
       case ResumeCreator(r) => Creator(r) in s.tasks && !Pending(creation)
       case RuntimeAcquired(_) => creation.Acquiring?
       case AcquireFailed(_) => creation.Acquiring?
       case SnapshotGood(_) => creation.Snapshotting?
       case SnapshotBad(_) => creation.Snapshotting?
       case DiscardSettled(_) => creation.Discarding?
  }

  predicate EnabledRuntime(s: State, e: Event)
    requires ByRuntime(e)
  {
    && e.ref < |s.entries|
    && match e
       case RuntimeError(r) => s.entries[r].subscribed
       case RuntimeEvent(r) => s.entries[r].subscribed
       case PhaseChanges(r, _) => s.entries[r].acquired
       case DeliverIdleNotice(r) => IdleNotice(r) in s.tasks
  }

  predicate EnabledShutdown(s: State, e: Event)
    requires ByShutdown(e)
  {
    match e
    case DisposeSettled(r, _) =>
      r < |s.entries| && s.entries[r].creation.Resolved? && s.entries[r].disposeCalls > 0
          && !s.entries[r].disposeSettled
    case BeginShutdown => true
    case AwaitOpenings => s.closing && s.awaited.None?
    case ClearSessions =>
      && s.awaited.Some? && !s.cleared
      && forall r <- s.awaited.value :: r < |s.entries| && !Pending(s.entries[r].creation)
  }

  predicate EnabledOperation(s: State, e: Event) {
    match e
    case StartOperation(c, _) => c in s.conns
    case FinishOperation(r) => Operation(r) in s.tasks && r < |s.entries|
    case ResumeDetach(r, _) => DetachBroadcast(r) in s.tasks && r < |s.entries|
    case ResumeTerminate(r) => // every connection it collected is gone
      && Terminating(r) in s.tasks && r < |s.entries|
      && forall c <- s.entries[r].terminated :: c in s.conns && s.conns[c].disconnected
    case _ => false
  }

  /** maybeDispose on one session: begin disposal unless something still protects it. */
  function MaybeDispose(e: Entry, closing: bool): Entry {
    if closing || !e.creation.Resolved? || e.disposing || e.connections != {} || e.operationCount > 0
       || (!e.terminal && !e.idle)
    then e
    else e.(subscribed := false, disposing := true, disposeCalls := e.disposeCalls + 1)
  }

  function SetEntry(s: State, r: Ref, e: Entry): State
    requires r < |s.entries|
  {
    s.(entries := s.entries[r := e])
  }

  function Without(s: State, t: Task): State {
    s.(tasks := s.tasks - multiset{t})
  }

  function With(s: State, t: Task): State {
    s.(tasks := s.tasks + multiset{t})
  }

  /** One round of the retry loop in acquire. */
  function Acquire(s: State, c: ConnId, id: SessionId): State
    requires MapsInRange(s)
  {
    if id in s.liveSessions then
      var r := s.liveSessions[id];
      if s.entries[r].terminal then s
      else if s.entries[r].disposing then With(s, AwaitDisposal(c, id, r))
      else With(s, Attach(c, r))
    else if id in s.openingSessions then With(s, AwaitOpening(c, s.openingSessions[id]))
    else
      var r := |s.entries|;
      With(s, Creator(r)).(
        entries := s.entries + [NewEntry(id, c)],
        openingSessions := s.openingSessions[id := r])
  }

  function NewEntry(id: SessionId, c: ConnId): Entry {
    Entry(id, c, Acquiring, false, 0, false, false, true, {}, 0, false, false, false, {})
  }

  function DisposeCheck(s: State, r: Ref): State
    requires r < |s.entries|
  {
    SetEntry(s, r, MaybeDispose(s.entries[r], s.closing))
  }

  predicate CanAttach(c: Conn) {
    !c.disconnected && c.ready && !c.transportClosed
  }

  function AttachTo(s: State, c: ConnId, r: Ref): State
    requires r < |s.entries| && c in s.conns
  {
    var e := s.entries[r];
    SetEntry(s, r, e.(connections := e.connections + {c}))
      .(conns := s.conns[c := s.conns[c].(sessionIds := s.conns[c].sessionIds + {e.id})])
  }

  function DetachFrom(s: State, c: ConnId, id: SessionId): State
    requires MapsInRange(s) && c in s.conns
  {
    if id !in s.conns[c].sessionIds then s
    else
      var t := s.(conns := s.conns[c := s.conns[c].(sessionIds := s.conns[c].sessionIds - {id})]);
      if id !in s.liveSessions then t
      else
        var r := s.liveSessions[id];
        var e := s.entries[r].(connections := s.entries[r].connections - {c});
        var u := SetEntry(t, r, e);
        if e.connections != {} && !e.terminal && !e.disposing then With(u, DetachBroadcast(r)) else DisposeCheck(u, r)
  }

  /** requireAttached: the reference of the session the connection may operate on. */
  function RequireAttached(s: State, c: ConnId, id: SessionId): Option<Ref>
    requires MapsInRange(s) && c in s.conns
  {
    if id !in s.conns[c].sessionIds || id !in s.liveSessions then None
    else
      var r := s.liveSessions[id];
      if s.entries[r].terminal || s.entries[r].disposing then None else Some(r)
  }

  /** The live session a disconnecting connection leaves. */
  predicate Leaves(s: State, c: ConnId, r: Ref)
    requires r < |s.entries| && c in s.conns
  {
    var id := s.entries[r].id;
    id in s.conns[c].sessionIds && id in s.liveSessions && s.liveSessions[id] == r
  }

  function Leave(s: State, c: ConnId, r: Ref): Entry
    requires r < |s.entries| && c in s.conns
  {
    var e := s.entries[r];
    if Leaves(s, c, r) then MaybeDispose(e.(connections := e.connections - {c}), s.closing) else e
  }

  function DisconnectFrom(s: State, c: ConnId): State
    requires c in s.conns
  {
    if s.conns[c].disconnected then s
    else
      s.(conns := s.conns[c := Conn(false, true, s.conns[c].transportClosed, {})],
         entries := seq(|s.entries|, r requires 0 <= r < |s.entries| => Leave(s, c, r)))
  }

  /** What close() does to one session when it empties the map. */
  function Closed(s: State, r: Ref): Entry
    requires r < |s.entries|
  {
    var e := s.entries[r];
    if e.id in s.liveSessions && s.liveSessions[e.id] == r && !e.disposing
    then e.(subscribed := false, disposeCalls := e.disposeCalls + 1)
    else e
  }

  function Apply(s: State, e: Event): State
    requires MapsInRange(s) && Enabled(s, e)
  {
    if ByConnection(e) then ApplyConnection(s, e)
    else if ByCreation(e) then ApplyCreation(s, e)
    else if ByRuntime(e) then ApplyRuntime(s, e)
    else if ByShutdown(e) then ApplyShutdown(s, e)
    else ApplyOperation(s, e)
  }

  function ApplyConnection(s: State, e: Event): State
    requires MapsInRange(s) && ByConnection(e) && EnabledConnection(s, e)
  {
    match e
    case Connect(c) => s.(conns := s.conns[c := Conn(false, false, false, {})])
    case ConnectionChanges(c, ready, closed) =>
      s.(conns := s.conns[c := s.conns[c].(ready := ready, transportClosed := closed)])
    case AttachCommand(c, id) => Acquire(s, c, id)
    case ResumeDisposal(c, id, r) =>
      var t := Without(s, AwaitDisposal(c, id, r));
      if s.entries[r].disposeFailed then t else Acquire(t, c, id)
    case ResumeAttach(c, r) =>
      var t := Without(s, Attach(c, r));
      if CanAttach(s.conns[c]) then AttachTo(t, c, r) else DisposeCheck(t, r)
    case DetachCommand(c, id) => DetachFrom(s, c, id)
    case Disconnect(c) => DisconnectFrom(s, c)
  }

  function ApplyCreation(s: State, e: Event): State
    requires ByCreation(e) && EnabledCreation(s, e)
  {
    match e
    case ResumeOpening(c, r) =>
      var t := Without(s, AwaitOpening(c, r));
      if s.entries[r].creation.Resolved? then With(t, Attach(c, r)) else t
    case ResumeCreator(r) =>
      var e := s.entries[r];
      var t := Without(s, Creator(r));
      var u := if e.id in s.openingSessions && s.openingSessions[e.id] == r
               then t.(openingSessions := s.openingSessions - {e.id}) else t;
      if e.creation.Resolved? then With(u, Attach(e.creator, r)) else u
    case RuntimeAcquired(r) =>
      var e := s.entries[r].(acquired := true);
      SetEntry(s, r, if s.closing then e.(creation := Discarding, disposeCalls := e.disposeCalls + 1)
                     else e.(creation := Snapshotting))
    case AcquireFailed(r) => SetEntry(s, r, s.entries[r].(creation := Rejected))
    case SnapshotGood(r) =>
      var e := s.entries[r];
      SetEntry(s, r, e.(creation := Resolved, subscribed := true)).(liveSessions := s.liveSessions[e.id := r])
    case SnapshotBad(r) =>
      var e := s.entries[r];
      SetEntry(s, r, e.(creation := Discarding, disposeCalls := e.disposeCalls + 1))
    case DiscardSettled(r) => SetEntry(s, r, s.entries[r].(creation := Rejected, disposeSettled := true))
  }

  function ApplyRuntime(s: State, e: Event): State
    requires ByRuntime(e) && EnabledRuntime(s, e)
  {
    match e
    case RuntimeError(r) =>
      var e := s.entries[r];
      if e.terminal then s
      else With(SetEntry(s, r, e.(terminal := true, subscribed := false, terminated := e.connections)), Terminating(r))
    case RuntimeEvent(r) => DisposeCheck(s, r)
    case PhaseChanges(r, idle) =>
      var t := SetEntry(s, r, s.entries[r].(idle := idle));
      if idle then With(t, IdleNotice(r)) else t
    case DeliverIdleNotice(r) =>
      var t := Without(s, IdleNotice(r));
      if s.entries[r].subscribed then DisposeCheck(t, r) else t
  }

  function ApplyOperation(s: State, e: Event): State
    requires MapsInRange(s) && EnabledOperation(s, e)
  {
    match e
    case StartOperation(c, id) =>
      match RequireAttached(s, c, id) {
        case None => s
        case Some(r) =>
          var e := s.entries[r];
          With(SetEntry(s, r, e.(operationCount := e.operationCount + 1)), Operation(r))
      }
    case FinishOperation(r) =>
      var e := s.entries[r];
      DisposeCheck(SetEntry(Without(s, Operation(r)), r, e.(operationCount := e.operationCount - 1)), r)
    case ResumeDetach(r, failed) =>
      var t := Without(s, DetachBroadcast(r));
      if failed then t else DisposeCheck(t, r)
    case ResumeTerminate(r) => DisposeCheck(Without(s, Terminating(r)), r)
  }

  function ApplyShutdown(s: State, e: Event): State
    requires ByShutdown(e) && EnabledShutdown(s, e)
  {
    match e
    case DisposeSettled(r, failed) =>
      var e := s.entries[r];
      var t := SetEntry(s, r, e.(disposeSettled := true, disposeFailed := failed));
      if e.disposing && e.id in s.liveSessions && s.liveSessions[e.id] == r
      then t.(liveSessions := s.liveSessions - {e.id}) else t
    case BeginShutdown => s.(closing := true)
    case AwaitOpenings => s.(awaited := Some(s.openingSessions.Values))
    case ClearSessions =>
      s.(entries := seq(|s.entries|, r requires 0 <= r < |s.entries| => Closed(s, r)),
         liveSessions := map[], cleared := true)
  }
}
