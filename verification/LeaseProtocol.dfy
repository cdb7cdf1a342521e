/**
 * Leases of one session id on the client. The client keeps its tables per session id and no
 * operation on one id touches another, so one slot is followed through acquisition, release,
 * reconciliation, removal and disconnects. A disconnect settles every request that is outstanding;
 * what waits for a settled request goes on later, one continuation at a time.
 */
module LeaseProtocol {
  import opened Common

  type Token = nat
  type RequestId = nat

  datatype Mode = Shared | Exclusive

  datatype Phase = Active | Releasing(request: RequestId, relinquish: bool) | Released

  /** A handle remembers the generation in which it was created. */
  datatype Handle = Handle(mode: Mode, generation: nat, phase: Phase)

  /** What an acquisition in flight is waiting for. */
  datatype Stage = AwaitDetachment(request: RequestId) | AwaitReconciliation(request: RequestId)
      | AwaitAttachment(request: RequestId)
  datatype Acquisition = Acquisition(mode: Mode, stage: Stage)

  datatype Command = AttachCommand | DetachCommand
  /** settled: None while the response is outstanding, then whether it succeeded. */
  datatype Request = Request(command: Command, settled: Option<bool>)

  /** creations: responses to create whose continuation has not run yet. */
  datatype Slot = Slot(
    connected: bool,
    count: int,
    exclusive: Option<Token>,
    generation: nat,
    attached: bool,
    cleanupRequired: bool,
    attachment: Option<RequestId>,
    detachment: Option<RequestId>,
    reconciliation: Option<RequestId>,
    requests: seq<Request>,
    creations: nat,
    acquisitions: map<Token, Acquisition>,
    handles: map<Token, Handle>,
    nextToken: Token)

  datatype Event =
    | Acquire(mode: Mode)
    | ResumeAcquire(token: Token)
    | Created(attached: bool)                        // the response to create
    | ResumeCreate                                   // and its continuation, which asks for an exclusive lease
    | Release(token: Token, relinquish: bool)        // detach() or dispose() of a handle
    | ResumeRelease(token: Token)
    | Respond(request: RequestId, ok: bool, attached: bool)
    | SnapshotEvent(attached: bool)
    | SessionRemoved
    | Disconnect
    | Reconnect

  const INITIAL := Slot(false, 0, None, 0, false, false, None, None, None, [], 0, map[], map[], 0)

  /** Reserve a lease, or None when the ownership rules forbid it. */
  function Reserve(s: Slot, token: Token, mode: Mode): Option<Slot> {
    if mode.Exclusive? && s.count > 0 then None
    else if mode.Shared? && s.exclusive.Some? then None
    else Some(s.(count := s.count + 1, exclusive := if mode.Exclusive? then Some(token) else s.exclusive))
  }

  /** A release, and a failed acquisition, give one reservation back. */
  function ReleaseLease(s: Slot, token: Token): Slot {
    s.(count := if s.count <= 1 then 0 else s.count - 1,
       exclusive := if s.exclusive == Some(token) then None else s.exclusive)
  }

  function InvalidateLeases(s: Slot): Slot {
    s.(count := 0, exclusive := None, cleanupRequired := false, generation := s.generation + 1)
  }

  /** A request sent; without a connection it is rejected at once. */
  function Send(s: Slot, command: Command): Slot {
    s.(requests := s.requests + [Request(command, if s.connected then None else Some(false))])
  }

  function Wait(s: Slot, token: Token, mode: Mode, stage: Stage): Slot {
    s.(acquisitions := s.acquisitions[token := Acquisition(mode, stage)])
  }

  function CreateLease(s: Slot, token: Token, mode: Mode): Slot {
    s.(handles := s.handles[token := Handle(mode, s.generation, Active)])
  }

  /** acquireSession after the reservation: wait for a running detach first. */
  function AfterReserve(s: Slot, token: Token, mode: Mode): Slot {
    if s.detachment.Some? then Wait(s, token, mode, AwaitDetachment(s.detachment.value))
    else AfterDetachment(s, token, mode)
  }

  /** Then reconcile a detach that failed earlier; a reconciliation whose request is outstanding is shared. */
  function AfterDetachment(s: Slot, token: Token, mode: Mode): Slot {
    if !s.cleanupRequired then AfterReconciliation(s, token, mode, false)
    else if s.reconciliation.Some? then Wait(s, token, mode, AwaitReconciliation(s.reconciliation.value))
    else
      var q := |s.requests|;
      var t := Send(s, DetachCommand).(reconciliation := if s.connected then Some(q) else None);
      Wait(t, token, mode, AwaitReconciliation(q))
  }

  /** Then attach if needed; a running attach is shared. */
  function AfterReconciliation(s: Slot, token: Token, mode: Mode, reconciled: bool): Slot {
    if !reconciled && s.attached then CreateLease(s, token, mode)
    else if s.attachment.Some? then Wait(s, token, mode, AwaitAttachment(s.attachment.value))
    else
      var q := |s.requests|;
      Wait(Send(s, AttachCommand).(attachment := Some(q)), token, mode, AwaitAttachment(q))
  }

  function AcquireSession(s: Slot, mode: Mode): Slot {
    var token := s.nextToken;
    match Reserve(s.(nextToken := token + 1), token, mode)
    case None => s.(nextToken := token + 1)
    case Some(t) => AfterReserve(t, token, mode)
  }

  predicate Settled(s: Slot, q: RequestId) {
    q < |s.requests| && s.requests[q].settled.Some?
  }

  predicate Succeeded(s: Slot, q: RequestId) {
    Settled(s, q) && s.requests[q].settled.value
  }

  predicate Rejected(s: Slot, q: RequestId) {
    Settled(s, q) && !s.requests[q].settled.value
  }

  function ContinueAcquire(s: Slot, token: Token): Slot
    requires token in s.acquisitions && Settled(s, s.acquisitions[token].stage.request)
  {
    var a := s.acquisitions[token];
    var ok := s.requests[a.stage.request].settled.value;
    var t := s.(acquisitions := s.acquisitions - {token});
    match a.stage
    case AwaitDetachment(_) => AfterDetachment(t, token, a.mode)
    case AwaitReconciliation(_) =>
      if ok then AfterReconciliation(t, token, a.mode, true) else ReleaseLease(t, token)
    case AwaitAttachment(q) =>
      var u := if s.attachment == Some(q) then t.(attachment := None) else t;
      if ok then CreateLease(u, token, a.mode) else ReleaseLease(u, token)
  }

  /** The handle is still of the current generation and has not been released. */
  predicate Live(s: Slot, token: Token) {
    token in s.handles && !s.handles[token].phase.Released? && s.handles[token].generation == s.generation
  }

  /** What isActive() of the handle answers. */
  predicate IsActive(s: Slot, token: Token) {
    Live(s, token) && s.handles[token].phase.Active? && s.attached
  }

  function SetPhase(s: Slot, token: Token, phase: Phase): Slot
    requires token in s.handles
  {
    s.(handles := s.handles[token := s.handles[token].(phase := phase)])
  }

  /** release(): the last lease detaches on the server, any other lease is given up locally. */
  function ReleaseHandle(s: Slot, token: Token, relinquish: bool): Slot {
    if !IsActive(s, token) || !s.connected then s
    else if s.count <= 1 then
      var q := |s.requests|;
      SetPhase(Send(s, DetachCommand).(detachment := Some(q)), token, Releasing(q, relinquish))
    else SetPhase(ReleaseLease(s, token), token, Released)
  }

  /** The end of a release. Only the failing path looks at the generation. */
  function ContinueRelease(s: Slot, token: Token): Slot
    requires token in s.handles && s.handles[token].phase.Releasing? && Settled(s, s.handles[token].phase.request)
  {
    var phase := s.handles[token].phase;
    var t := if s.detachment == Some(phase.request) then s.(detachment := None) else s;
    if s.requests[phase.request].settled.value then SetPhase(ReleaseLease(t, token), token, Released)
    else if s.handles[token].generation != s.generation then SetPhase(t, token, Released)
    else if phase.relinquish then SetPhase(ReleaseLease(t, token), token, Released).(cleanupRequired := true)
    else SetPhase(t, token, Active)
  }

  /** The response to a request: the attached flag follows it, and a reconciliation is over. */
  function Settle(s: Slot, q: RequestId, ok: bool, attached: bool): Slot
    requires q < |s.requests|
  {
    var t := s.(requests := s.requests[q := s.requests[q].(settled := Some(ok))]);
    var u := if s.reconciliation == Some(q)
             then t.(reconciliation := None, cleanupRequired := s.cleanupRequired && !ok) else t;
    if ok then u.(attached := attached && s.requests[q].command.AttachCommand?) else u
  }

  function FailAll(requests: seq<Request>): seq<Request> {
    seq(|requests|, i requires 0 <= i < |requests| =>
      if requests[i].settled.None? then requests[i].(settled := Some(false)) else requests[i])
  }

  /**
   * Every lease table entry goes, and every outstanding request is rejected. Acquisitions and releases in
   * flight stay: their continuations are still to run, also those of requests that were answered before.
   */
  function LoseConnection(s: Slot): Slot {
    var t := if s.count != 0 then InvalidateLeases(s) else s;
    t.(connected := false, attached := false, cleanupRequired := false, reconciliation := None,
       requests := FailAll(s.requests))
  }

  /** The continuations of every response have run, so what is in flight waits for an outstanding response. */
  ghost predicate Drained(s: Slot) {
    && s.creations == 0
    && (forall t <- s.acquisitions :: !Settled(s, s.acquisitions[t].stage.request))
    && (forall t <- s.handles :: s.handles[t].phase.Releasing? ==> !Settled(s, s.handles[t].phase.request))
  }

  /** No acquisition and no release of this session is in flight. */
  ghost predicate Quiet(s: Slot) {
    s.acquisitions == map[] && forall t <- s.handles :: !s.handles[t].phase.Releasing?
  }

  ghost predicate Enabled(s: Slot, e: Event) {
    match e
    case Acquire(_) => true
    case ResumeAcquire(t) => t in s.acquisitions && Settled(s, s.acquisitions[t].stage.request)
    case Created(_) => s.connected
    case ResumeCreate => s.creations > 0
    case Release(t, _) => t in s.handles
    case ResumeRelease(t) =>
      t in s.handles && s.handles[t].phase.Releasing? && Settled(s, s.handles[t].phase.request)
    case Respond(q, _, _) => s.connected && q < |s.requests| && s.requests[q].settled.None?
    case SnapshotEvent(_) => s.connected
    case SessionRemoved => s.connected
    case Disconnect => true
    case Reconnect => !s.connected && Drained(s)     // the hello is a later event of a transport
  }

  function ContinueCreate(s: Slot): Slot
    requires s.creations > 0
  {
    var token := s.nextToken;
    var t := s.(nextToken := token + 1, creations := s.creations - 1);
    match Reserve(t, token, Exclusive)
    case None => t
    case Some(u) => CreateLease(u, token, Exclusive)
  }

  function Apply(s: Slot, e: Event): Slot
    requires Enabled(s, e)
  {
    match e
    case Acquire(mode) => AcquireSession(s, mode)
    case ResumeAcquire(t) => ContinueAcquire(s, t)
    case Created(attached) => s.(attached := attached, creations := s.creations + 1)
    case ResumeCreate => ContinueCreate(s)
    case Release(t, relinquish) => ReleaseHandle(s, t, relinquish)
    case ResumeRelease(t) => ContinueRelease(s, t)
    case Respond(q, ok, attached) => Settle(s, q, ok, attached)
    case SnapshotEvent(attached) => s.(attached := attached)
    case SessionRemoved => InvalidateLeases(s).(attached := false)
    case Disconnect => LoseConnection(s)
    case Reconnect => s.(connected := true, attached := false)
  }
}
