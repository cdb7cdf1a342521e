/**
 * Acquiring sessions on the client: the maps of running attaches, detaches and reconciliations, updated in
 * place. Each segment between two awaits changes what is held of its session as the protocol's slot changes.
 */
module SessionAcquisition {
  import opened Common
  import opened LeaseProtocol
  import opened SessionLeases

  /** Where an acquisition stands at the end of a segment. */
  datatype Progress = OwnershipError | Waiting(stage: Stage) | Failed | Granted

  class ClientSessions {
    const tables: LeaseTables
    var attachments: map<SessionId, RequestId>
    var detachments: map<SessionId, RequestId>
    var reconciliations: map<SessionId, RequestId>
    var attachedIds: set<SessionId>
    var connected: bool

    constructor ()
      ensures tables.Valid() && fresh(tables) && forall id :: Shows(id, INITIAL)
    {
      tables := new LeaseTables();
      attachments, detachments, reconciliations, attachedIds, connected := map[], map[], map[], {}, false;
    }

    /** Everything held of the session is what the slot says. */
    ghost predicate Shows(id: SessionId, s: Slot)
      reads this, tables
    {
      tables.At(id) == TablesOf(s) && MapsShow(id, s)
    }

    ghost predicate MapsShow(id: SessionId, s: Slot)
      reads this
    {
      && s.attachment == (if id in attachments then Some(attachments[id]) else None)
      && s.detachment == (if id in detachments then Some(detachments[id]) else None)
      && s.reconciliation == (if id in reconciliations then Some(reconciliations[id]) else None)
      && (s.attached <==> id in attachedIds)
      && s.connected == connected
    }

    /** What the slot records of the acquisition agrees with where it stands. */
    ghost predicate Stands(s: Slot, token: Token, mode: Mode, p: Progress) {
      match p
      case Waiting(stage) => token in s.acquisitions && s.acquisitions[token] == Acquisition(mode, stage)
      case Granted => token in s.handles && s.handles[token] == Handle(mode, s.generation, Active)
      case _ => token !in s.acquisitions && token !in s.handles
    }

    /** The last part: attach, unless the session is attached or being attached. */
    method Attach(id: SessionId, token: Token, mode: Mode, reconciled: bool, request: RequestId, ghost s: Slot)
      returns (p: Progress)
      requires tables.Valid() && Shows(id, s) && request == |s.requests|
      requires token !in s.acquisitions && token !in s.handles
      modifies this`attachments
      ensures tables.Valid() && Shows(id, AfterReconciliation(s, token, mode, reconciled))
      ensures Stands(AfterReconciliation(s, token, mode, reconciled), token, mode, p) && (p.Granted? || p.Waiting?)
      ensures forall other, o: Slot :: other != id && old(Shows(other, o)) ==> Shows(other, o)
    {
      if !reconciled && id in attachedIds {
        return Granted;
      }
      if id in attachments {
        return Waiting(AwaitAttachment(attachments[id]));
      }
      attachments := attachments[id := request];
      return Waiting(AwaitAttachment(request));
    }

    /** The middle part: a cleanup that is due is reconciled first, once for all who need it. */
    method Reconcile(id: SessionId, token: Token, mode: Mode, request: RequestId, ghost s: Slot) returns (p: Progress)
      requires tables.Valid() && Shows(id, s) && request == |s.requests|
      requires token !in s.acquisitions && token !in s.handles
      modifies this`attachments, this`reconciliations
      ensures tables.Valid() && Shows(id, AfterDetachment(s, token, mode))
      ensures Stands(AfterDetachment(s, token, mode), token, mode, p) && (p.Granted? || p.Waiting?)
      ensures forall other, o: Slot :: other != id && old(Shows(other, o)) ==> Shows(other, o)
    {
      if id !in tables.cleanupRequired {
        p := Attach(id, token, mode, false, request, s);
        return;
      }
      if id in reconciliations {
        return Waiting(AwaitReconciliation(reconciliations[id]));
      }
      if connected {
        reconciliations := reconciliations[id := request];
      }
      return Waiting(AwaitReconciliation(request));
    }

    static lemma ReservesOnly(s: Slot, t: Slot, token: Token, mode: Mode)
      requires t == s.(nextToken := t.nextToken)
      ensures Reserve(t, token, mode).None? <==> Reserve(s, token, mode).None?
      ensures Reserve(t, token, mode).Some? ==>
                var r := Reserve(t, token, mode).value;
                SameMaps(s, r) && r.acquisitions == s.acquisitions && r.handles == s.handles && r.requests == s.requests
    {
    }

    /** acquireSession up to its first wait. The ownership rules are checked before anything is sent. */
    method AcquireSession(id: SessionId, token: Token, mode: Mode, request: RequestId, ghost s: Slot)
      returns (p: Progress)
      requires tables.Valid() && Shows(id, s) && request == |s.requests| && s.count >= 0
      requires token == s.nextToken && token !in s.acquisitions && token !in s.handles
      modifies this`attachments, this`reconciliations, tables
      ensures tables.Valid() && Shows(id, LeaseProtocol.AcquireSession(s, mode))
      ensures Stands(LeaseProtocol.AcquireSession(s, mode), token, mode, p)
      ensures p.OwnershipError? <==> Reserve(s, token, mode).None?
      ensures forall other, o: Slot :: other != id && old(Shows(other, o)) ==> Shows(other, o)
    {
      hide AfterDetachment, Reserve;
      ghost var t := s.(nextToken := s.nextToken + 1);
      ReservesOnly(s, t, token, mode);
      var ok := tables.ReserveLease(id, token, mode, t);
      if !ok {
        return OwnershipError;
      }
      if id in detachments {
        return Waiting(AwaitDetachment(detachments[id]));
      }
      p := Reconcile(id, token, mode, request, Reserve(t, token, mode).value);
    }

    /** The acquisition fails: its reservation is given back. */
    method GiveUp(id: SessionId, token: Token, ghost s: Slot)
      requires tables.Valid() && Shows(id, s)
      modifies tables
      ensures tables.Valid() && Shows(id, ReleaseLease(s, token))
      ensures forall other, o: Slot :: other != id && old(Shows(other, o)) ==> Shows(other, o)
    {
      tables.GiveBack(id, token, s);
    }

    /** acquireSession after its attach. */
    method FinishAttach(id: SessionId, token: Token, mode: Mode, q: RequestId, ok: bool, ghost s: Slot)
      returns (p: Progress)
      requires tables.Valid() && Shows(id, s) && token !in s.handles
      requires token in s.acquisitions && s.acquisitions[token] == Acquisition(mode, AwaitAttachment(q))
      requires Settled(s, q) && ok == s.requests[q].settled.value
      modifies this`attachments, tables
      ensures tables.Valid() && Shows(id, ContinueAcquire(s, token))
              && Stands(ContinueAcquire(s, token), token, mode, p)
      ensures forall other, o: Slot :: other != id && old(Shows(other, o)) ==> Shows(other, o)
    {
      hide ContinueAcquire, ReleaseLease;
      ghost var t := s.(acquisitions := s.acquisitions - {token});
      if id in attachments && attachments[id] == q {
        attachments := attachments - {id};
        t := t.(attachment := None);
      }
      AttachEnds(s, token, q);
      GivenBack(t, token);
      if ok {
        return Granted;
      }
      GiveUp(id, token, t);
      return Failed;
    }

    /** acquireSession after one of its waits. */
    method ContinueAcquisition(id: SessionId, token: Token, mode: Mode, stage: Stage, ok: bool,
                               request: RequestId, ghost s: Slot)
      returns (p: Progress)
      requires tables.Valid() && Shows(id, s) && request == |s.requests| && token !in s.handles
      requires token in s.acquisitions && s.acquisitions[token] == Acquisition(mode, stage)
      requires Settled(s, stage.request) && ok == s.requests[stage.request].settled.value
      modifies this`attachments, this`reconciliations, tables
      ensures tables.Valid() && Shows(id, ContinueAcquire(s, token))
      ensures Stands(ContinueAcquire(s, token), token, mode, p)
      ensures forall other, o: Slot :: other != id && old(Shows(other, o)) ==> Shows(other, o)
    {
      hide AfterDetachment, AfterReconciliation, ReleaseLease;
      ghost var t := s.(acquisitions := s.acquisitions - {token});
      match stage {
        case AwaitDetachment(_) => p := Reconcile(id, token, mode, request, t);
        case AwaitReconciliation(_) =>
          if ok {
            p := Attach(id, token, mode, true, request, t);
          } else {
            GiveUp(id, token, t);
            GivenBack(t, token);
            p := Failed;
          }
        case AwaitAttachment(q) => p := FinishAttach(id, token, mode, q, ok, s);
      }
    }

    static lemma AttachEnds(s: Slot, token: Token, q: RequestId)
      requires token in s.acquisitions && s.acquisitions[token].stage == AwaitAttachment(q) && Settled(s, q)
      ensures var mode := s.acquisitions[token].mode;
              var t := s.(acquisitions := s.acquisitions - {token},
                          attachment := if s.attachment == Some(q) then None else s.attachment);
              ContinueAcquire(s, token) ==
              if s.requests[q].settled.value then CreateLease(t, token, mode) else ReleaseLease(t, token)
    {
    }

    static lemma GivenBack(s: Slot, token: Token)
      ensures ReleaseLease(s, token).acquisitions == s.acquisitions && ReleaseLease(s, token).handles == s.handles
    {
    }

    /** createSession after its response. */
    method FinishCreate(id: SessionId, token: Token, ghost s: Slot) returns (p: Progress)
      requires tables.Valid() && Shows(id, s) && s.creations > 0 && s.count >= 0
      requires token == s.nextToken && token !in s.acquisitions && token !in s.handles
      modifies tables
      ensures tables.Valid() && Shows(id, ContinueCreate(s))
      ensures if p.Granted? then Stands(ContinueCreate(s), token, Exclusive, p) else token !in ContinueCreate(s).handles
      ensures p.Granted? || p.OwnershipError?
      ensures forall other, o: Slot :: other != id && old(Shows(other, o)) ==> Shows(other, o)
    {
      hide Reserve;
      ghost var t := s.(nextToken := s.nextToken + 1, creations := s.creations - 1);
      ReservesOnly(s.(creations := s.creations - 1), t, token, Exclusive);
      var ok := tables.ReserveLease(id, token, Exclusive, t);
      p := if ok then Granted else OwnershipError;
    }

    /** The end of a connection, for every session at once. What is in flight stays. */
    method LoseConnections()
      requires tables.Valid()
      modifies this, tables
      ensures tables.Valid() && forall id, s: Slot :: old(Shows(id, s)) ==> Shows(id, LoseConnection(s))
    {
      hide LoseConnection;
      attachedIds, connected, reconciliations := {}, false, map[];
      tables.InvalidateAll();
      forall id, s: Slot | old(Shows(id, s)) ensures Shows(id, LoseConnection(s)) {
        InvalidationOfTables(s);
        LossOfMaps(s);
      }
    }

    static lemma LossOfMaps(s: Slot)
      ensures SameMaps(s.(attached := false, connected := false, reconciliation := None), LoseConnection(s))
    {
    }

    /** A release: the last lease sends a detach that later acquisitions wait for. */
    method Release(lease: SessionLease, relinquish: bool, request: RequestId, ghost s: Slot)
      returns (outcome: ReleaseOutcome)
      requires tables.Valid() && Shows(lease.id, s) && lease.Shows(s) && request == |s.requests|
      modifies lease, tables, this`detachments
      ensures tables.Valid() && Shows(lease.id, ReleaseHandle(s, lease.token, relinquish))
      ensures lease.Shows(ReleaseHandle(s, lease.token, relinquish))
      ensures forall other, o: Slot :: other != lease.id && old(Shows(other, o)) ==> Shows(other, o)
    {
      outcome := lease.BeginRelease(tables, lease.id in attachedIds, connected, relinquish, s);
      if outcome.DetachFirst? {
        detachments := detachments[lease.id := request];
      }
    }

    /** The end of a release that had to detach: its entry goes unless another release has replaced it. */
    method FinishRelease(lease: SessionLease, ok: bool, relinquish: bool, request: RequestId, ghost s: Slot)
      requires tables.Valid() && Shows(lease.id, s) && lease.Shows(s)
      requires s.handles[lease.token].phase == Releasing(request, relinquish)
      requires Settled(s, request) && ok == s.requests[request].settled.value
      modifies lease, tables, this`detachments
      ensures tables.Valid() && Shows(lease.id, ContinueRelease(s, lease.token))
              && lease.Shows(ContinueRelease(s, lease.token))
      ensures forall other, o: Slot :: other != lease.id && old(Shows(other, o)) ==> Shows(other, o)
    {
      hide ContinueRelease;
      SameEnd(s, lease.token, request);
      lease.EndRelease(tables, ok, relinquish, s);
      if lease.id in detachments && detachments[lease.id] == request {
        detachments := detachments - {lease.id};
      }
    }

    /** The two slots agree on everything but the lease tables, the handles and the acquisitions. */
    static ghost predicate SameMaps(s: Slot, t: Slot) {
      && t.attachment == s.attachment && t.detachment == s.detachment && t.reconciliation == s.reconciliation
      && t.attached == s.attached && t.connected == s.connected
    }

    static lemma LeavesMaps(s: Slot, token: Token, phase: Phase)
      ensures SameMaps(s, ReleaseLease(s, token)) && ReleaseLease(s, token).handles == s.handles
      ensures token in s.handles ==> SameMaps(s, SetPhase(s, token, phase))
    {
    }

    /** The end of a release changes no map but that of the running detaches. */
    static lemma SameEnd(s: Slot, token: Token, request: RequestId)
      requires token in s.handles && s.handles[token].phase.Releasing?
               && s.handles[token].phase.request == request && Settled(s, request)
      ensures SameMaps(s.(detachment := if s.detachment == Some(request) then None else s.detachment),
                       ContinueRelease(s, token))
    {
      hide SetPhase, ReleaseLease, Settled;
      var t := if s.detachment == Some(request) then s.(detachment := None) else s;
      LeavesMaps(t, token, Released);
      LeavesMaps(t, token, Active);
      LeavesMaps(ReleaseLease(t, token), token, Released);
    }
  }
}
